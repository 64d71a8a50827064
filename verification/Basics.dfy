/** Small vocabulary shared by every module: options, results and stock facts about sequences. */
module Basics {

  datatype Option<+T> = None | Some(value: T)

  datatype Result<+T, +E> = Ok(value: T) | Err(error: E)

  function Last<T>(s: seq<T>): T
    requires s != []
  {
    s[|s| - 1]
  }

  function Init<T>(s: seq<T>): seq<T>
    requires s != []
  {
    s[..|s| - 1]
  }

  function Without<T>(s: seq<T>, i: nat): (r: seq<T>)
    requires i < |s|
    ensures multiset(s) == multiset(r) + multiset{s[i]}
  {
    assert s == s[..i] + [s[i]] + s[i + 1..];
    s[..i] + s[i + 1..]
  }

  function Map<A, B>(f: A -> B, s: seq<A>): (r: seq<B>)
    ensures |r| == |s| && forall i :: 0 <= i < |s| ==> r[i] == f(s[i])
  {
    seq(|s|, i requires 0 <= i < |s| => f(s[i]))
  }

  function Filter<A>(keep: A -> bool, s: seq<A>): seq<A>
  {
    if s == [] then []
    else (if keep(s[0]) then [s[0]] else []) + Filter(keep, s[1..])
  }

  lemma FilterOne<A>(keep: A -> bool, x: A)
    ensures Filter(keep, [x]) == if keep(x) then [x] else []
  {
    assert [x][1..] == [];
  }

  lemma Associate<A>(a: seq<A>, b: seq<A>, c: seq<A>)
    ensures a + (b + c) == (a + b) + c
  {}

  lemma Regroup<A>(a: seq<A>, b: seq<A>, c: seq<A>, d: seq<A>)
    ensures (a + b) + c + d == a + (b + (c + d))
  {}

  lemma {:induction false} FilterAppend<A>(keep: A -> bool, s: seq<A>, t: seq<A>)
    ensures Filter(keep, s + t) == Filter(keep, s) + Filter(keep, t)
  {
    if s == [] {
      assert s + t == t;
    } else {
      FilterAppend(keep, s[1..], t);
      assert (s + t)[0] == s[0] && (s + t)[1..] == s[1..] + t;
    }
  }

  lemma MapWithout<A, B>(f: A -> B, s: seq<A>, i: nat)
    requires i < |s|
    ensures multiset(Map(f, s)) == multiset(Map(f, Without(s, i))) + multiset{f(s[i])}
  {
    assert Map(f, Without(s, i)) == Without(Map(f, s), i);
  }

  /** Mapping a function over two permutations of a sequence gives two permutations. */
  lemma {:induction false} MapPermuted<A, B>(f: A -> B, s: seq<A>, t: seq<A>)
    requires multiset(s) == multiset(t)
    ensures multiset(Map(f, s)) == multiset(Map(f, t))
  {
    if s == [] {
      assert |multiset(t)| == 0;
    } else {
      var i := IndexOf(t, s[0]);
      MapWithout(f, s, 0);
      MapWithout(f, t, i);
      SameRest(s, t, i);
      MapPermuted(f, Without(s, 0), Without(t, i));
    }
  }

  lemma IndexOf<A>(s: seq<A>, x: A) returns (i: nat)
    requires x in multiset(s)
    ensures i < |s| && s[i] == x
  {
    i :| i < |s| && s[i] == x;
  }

  lemma SameRest<A>(s: seq<A>, t: seq<A>, i: nat)
    requires multiset(s) == multiset(t) && s != [] && i < |t| && t[i] == s[0]
    ensures multiset(Without(s, 0)) == multiset(Without(t, i))
  {
    assert multiset(Without(s, 0)) == multiset(s) - multiset{s[0]};
    assert multiset(Without(t, i)) == multiset(t) - multiset{s[0]};
  }

  lemma WithoutInit<A>(s: seq<A>, i: nat)
    requires i < |s|
    ensures Without(s, i) == if i == |s| - 1 then Init(s) else Without(Init(s), i) + [Last(s)]
  {}

  lemma SameTails<A>(s: seq<A>, t: seq<A>)
    requires multiset(s) == multiset(t) && s != [] && t != [] && s[0] == t[0]
    ensures multiset(s[1..]) == multiset(t[1..])
  {
    SameRest(s, t, 0);
    assert Without(s, 0) == s[1..] && Without(t, 0) == t[1..];
  }
}
