/** Python's `list.sort`: the one sorted rearrangement that keeps tied elements in their order. */
module Sorting {
  import opened Basics

  ghost predicate TotalPreorder<T(!new)>(leq: (T, T) -> bool) {
    && (forall x, y :: leq(x, y) || leq(y, x))
    && (forall x, y, z :: leq(x, y) && leq(y, z) ==> leq(x, z))
  }

  ghost predicate Sorted<T>(leq: (T, T) -> bool, s: seq<T>) {
    forall i, j :: 0 <= i < j < |s| ==> leq(s[i], s[j])
  }

  function Insert<T>(leq: (T, T) -> bool, x: T, s: seq<T>): seq<T>
  {
    if s == [] then [x]
    else if leq(x, s[0]) then [x] + s
    else [s[0]] + Insert(leq, x, s[1..])
  }

  function Sort<T>(leq: (T, T) -> bool, s: seq<T>): seq<T>
  {
    if s == [] then [] else Insert(leq, s[0], Sort(leq, s[1..]))
  }

  function Tied<T>(leq: (T, T) -> bool, x: T): T -> bool {
    y => leq(x, y) && leq(y, x)
  }

  lemma {:induction false} InsertContents<T>(leq: (T, T) -> bool, x: T, s: seq<T>)
    ensures multiset(Insert(leq, x, s)) == multiset(s) + multiset{x}
  {
    if s != [] && !leq(x, s[0]) {
      InsertContents(leq, x, s[1..]);
      assert s == [s[0]] + s[1..];
    }
  }

  lemma {:induction false} InsertSorted<T(!new)>(leq: (T, T) -> bool, x: T, s: seq<T>)
    requires TotalPreorder(leq) && Sorted(leq, s)
    ensures Sorted(leq, Insert(leq, x, s))
  {
    if s != [] && !leq(x, s[0]) {
      InsertSorted(leq, x, s[1..]);
      InsertContents(leq, x, s[1..]);
      var t := Insert(leq, x, s[1..]);
      forall j | 0 <= j < |t| ensures leq(s[0], t[j]) {
        assert t[j] in multiset(t);
        assert t[j] == x || t[j] in s[1..];
      }
    }
  }

  lemma {:induction false} InsertStable<T(!new)>(leq: (T, T) -> bool, x: T, s: seq<T>, y: T)
    requires TotalPreorder(leq) && Sorted(leq, s)
    ensures Filter(Tied(leq, y), Insert(leq, x, s)) == Filter(Tied(leq, y), [x] + s)
  {
    if s != [] && !leq(x, s[0]) {
      var keep := Tied(leq, y);
      InsertStable(leq, x, s[1..], y);
      assert Insert(leq, x, s)[1..] == Insert(leq, x, s[1..]);
      assert ([x] + s)[1..] == s && ([x] + s[1..])[1..] == s[1..];
      assert !(keep(x) && keep(s[0]));
    }
  }

  /** What `sort` promises: sorted, the same elements, ties in their original order. */
  lemma {:induction false} SortSorts<T(!new)>(leq: (T, T) -> bool, s: seq<T>)
    requires TotalPreorder(leq)
    ensures Sorted(leq, Sort(leq, s))
    ensures multiset(Sort(leq, s)) == multiset(s)
    ensures forall y :: Filter(Tied(leq, y), Sort(leq, s)) == Filter(Tied(leq, y), s)
  {
    if s != [] {
      var rest := Sort(leq, s[1..]);
      SortSorts(leq, s[1..]);
      InsertSorted(leq, s[0], rest);
      InsertContents(leq, s[0], rest);
      assert s == [s[0]] + s[1..];
      forall y ensures Filter(Tied(leq, y), Sort(leq, s)) == Filter(Tied(leq, y), s) {
        InsertStable(leq, s[0], rest, y);
        assert ([s[0]] + rest)[1..] == rest;
      }
    }
  }

  lemma {:induction false} FilterMember<T>(keep: T -> bool, s: seq<T>, x: T)
    ensures x in Filter(keep, s) <==> x in s && keep(x)
  {
    if s != [] {
      FilterMember(keep, s[1..], x);
      assert s == [s[0]] + s[1..];
    }
  }

  lemma SameTail<T>(keep: T -> bool, s: seq<T>, t: seq<T>)
    requires s != [] && t != [] && s[0] == t[0] && Filter(keep, s) == Filter(keep, t)
    ensures Filter(keep, s[1..]) == Filter(keep, t[1..])
  {
    var head := if keep(s[0]) then [s[0]] else [];
    assert Filter(keep, s)[|head|..] == Filter(keep, s[1..]);
    assert Filter(keep, t)[|head|..] == Filter(keep, t[1..]);
  }

  /** And nothing else does: a sorted sequence with the same ties is the sorted one. */
  lemma {:induction false} SortedIsDeterminedByTies<T(!new)>(leq: (T, T) -> bool, s: seq<T>, t: seq<T>)
    requires TotalPreorder(leq) && Sorted(leq, s) && Sorted(leq, t)
    requires forall y :: Filter(Tied(leq, y), s) == Filter(Tied(leq, y), t)
    ensures s == t
  {
    if s == [] || t == [] {
      if s != [] { FilterMember(Tied(leq, s[0]), s, s[0]); }
      if t != [] { FilterMember(Tied(leq, t[0]), t, t[0]); }
    } else {
      FilterMember(Tied(leq, s[0]), s, s[0]);
      FilterMember(Tied(leq, s[0]), t, s[0]);
      FilterMember(Tied(leq, t[0]), s, t[0]);
      FilterMember(Tied(leq, t[0]), t, t[0]);
      assert Filter(Tied(leq, s[0]), s)[0] == s[0];
      assert Filter(Tied(leq, s[0]), t)[0] == t[0];
      forall y ensures Filter(Tied(leq, y), s[1..]) == Filter(Tied(leq, y), t[1..]) {
        SameTail(Tied(leq, y), s, t);
      }
      SortedIsDeterminedByTies(leq, s[1..], t[1..]);
      assert s == [s[0]] + s[1..] && t == [t[0]] + t[1..];
    }
  }

  lemma SameHead<T>(leq: (T, T) -> bool, s: seq<T>, t: seq<T>)
    requires Sorted(leq, s) && Sorted(leq, t) && multiset(s) == multiset(t) && s != [] && t != []
    requires forall x, y :: x in s && y in s && leq(x, y) && leq(y, x) ==> x == y
    ensures s[0] == t[0]
  {
    var i := IndexOf(s, t[0]);
    var j := IndexOf(t, s[0]);
  }

  /** Where ties are equal elements, only the elements matter. */
  lemma {:induction false} SortedIsDeterminedByContents<T>(leq: (T, T) -> bool, s: seq<T>, t: seq<T>)
    requires Sorted(leq, s) && Sorted(leq, t) && multiset(s) == multiset(t)
    requires forall x, y :: x in s && y in s && leq(x, y) && leq(y, x) ==> x == y
    ensures s == t
  {
    assert |multiset(t)| == |multiset(s)|;
    if s != [] {
      SameHead(leq, s, t);
      SameTails(s, t);
      SortedIsDeterminedByContents(leq, s[1..], t[1..]);
    }
  }

  lemma SortIgnoresOrder<T(!new)>(leq: (T, T) -> bool, s: seq<T>, t: seq<T>)
    requires TotalPreorder(leq) && multiset(s) == multiset(t)
    requires forall x, y :: x in s && y in s && leq(x, y) && leq(y, x) ==> x == y
    ensures Sort(leq, s) == Sort(leq, t)
  {
    SortSorts(leq, s);
    SortSorts(leq, t);
    forall x | x in Sort(leq, s) ensures x in s {
      assert x in multiset(Sort(leq, s));
    }
    SortedIsDeterminedByContents(leq, Sort(leq, s), Sort(leq, t));
  }

  lemma SortedStays<T(!new)>(leq: (T, T) -> bool, s: seq<T>)
    requires TotalPreorder(leq) && Sorted(leq, s)
    ensures Sort(leq, s) == s
  {
    SortSorts(leq, s);
    SortedIsDeterminedByTies(leq, Sort(leq, s), s);
  }
}
