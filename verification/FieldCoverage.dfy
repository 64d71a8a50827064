/** Which patterns find everything: exactly those with no plain key above a list. */
module FieldCoverage {
  import opened Basics
  import opened Json
  import opened Fields

  predicate HasList(path: string)
    decreases |path|
  {
    path != "" && (IsList(Head(path)) || HasList(Rest(path)))
  }

  /** A plain key comes somewhere before a list. */
  predicate PlainAboveList(path: string)
    decreases |path|
  {
    path != "" && (if IsList(Head(path)) then PlainAboveList(Rest(path)) else HasList(Rest(path)))
  }

  ghost predicate FindsAll(node: Value, path: string)
  {
    forall m :: Matches(node, path, m) ==> m in Expand(node, path)
  }

  // ---- patterns that find everything ------------------------------------------------------------

  lemma {:induction false} OneInstance(path: string, a: seq<Step>, b: seq<Step>)
    requires !HasList(path) && Fits(a, path) && Fits(b, path)
    ensures a == b
    decreases |path|
  {
    if path != "" {
      OneInstance(Rest(path), a[1..], b[1..]);
      assert a == [a[0]] + a[1..] && b == [b[0]] + b[1..];
    }
  }

  lemma UnderMember(s: Step, ms: seq<Match>, m: Match)
    requires m.steps != [] && m.steps[0] == s && Match(m.steps[1..], m.value) in ms
    ensures m in Under(s, ms)
  {
    var i :| 0 <= i < |ms| && ms[i] == Match(m.steps[1..], m.value);
    assert [s] + m.steps[1..] == m.steps;
    assert Under(s, ms)[i] == m;
  }

  /** The first match is never lost. */
  lemma {:induction false} SomethingIsFound(node: Value, path: string, m: Match)
    requires Matches(node, path, m)
    ensures Expand(node, path) != []
    decreases |path|, 0
  {
    if path != "" {
      var head, rest := Head(path), Rest(path);
      var m1 := Match(m.steps[1..], m.value);
      if IsList(head) {
        SomethingIsFoundInItems(ItemsAt(node, ListKey(head)), 0, ListKey(head), rest, m);
      } else {
        SomethingIsFound(Get(node.fields, head).value, rest, m1);
      }
    }
  }

  lemma {:induction false} SomethingIsFoundInItems(items: seq<Value>, i: nat, key: string, rest: string, m: Match)
    requires m.steps != [] && m.steps[0].Item? && i <= m.steps[0].index < i + |items|
    requires Matches(items[m.steps[0].index - i], rest, Match(m.steps[1..], m.value))
    ensures ExpandItems(items, i, key, rest) != []
    decreases |rest|, 1, |items|
  {
    var here, there := Expand(items[0], rest), ExpandItems(items[1..], i + 1, key, rest);
    assert ExpandItems(items, i, key, rest) == Under(Item(key, i), here) + there;
    if m.steps[0].index == i {
      SomethingIsFound(items[0], rest, Match(m.steps[1..], m.value));
    } else {
      SomethingIsFoundInItems(items[1..], i + 1, key, rest, m);
    }
  }

  lemma {:induction false} FoundWithoutPlainAboveList(node: Value, path: string, m: Match)
    requires !PlainAboveList(path) && Matches(node, path, m)
    ensures m in Expand(node, path)
    decreases |path|, 0
  {
    if path != "" {
      var head, rest := Head(path), Rest(path);
      var m1 := Match(m.steps[1..], m.value);
      if IsList(head) {
        FoundInItems(ItemsAt(node, ListKey(head)), 0, ListKey(head), rest, m);
      } else {
        var child := Get(node.fields, head).value;
        SomethingIsFound(child, rest, m1);
        var first := Expand(child, rest)[0];
        ExpandIsSound(child, rest, first);
        OneInstance(rest, first.steps, m1.steps);
        UnderMember(Key(head), [first], m);
      }
    }
  }

  lemma {:induction false} FoundInItems(items: seq<Value>, i: nat, key: string, rest: string, m: Match)
    requires !PlainAboveList(rest)
    requires m.steps != [] && m.steps[0].Item? && m.steps[0].name == key && i <= m.steps[0].index < i + |items|
    requires Matches(items[m.steps[0].index - i], rest, Match(m.steps[1..], m.value))
    ensures m in ExpandItems(items, i, key, rest)
    decreases |rest|, 1, |items|
  {
    if m.steps[0].index == i {
      FoundWithoutPlainAboveList(items[0], rest, Match(m.steps[1..], m.value));
      UnderMember(Item(key, i), Expand(items[0], rest), m);
    } else {
      FoundInItems(items[1..], i + 1, key, rest, m);
    }
  }

  // ---- patterns that lose something -------------------------------------------------------------

  const LEAF := Str("x")

  /** A result in which every list of the pattern has two items. */
  function Doubled(path: string): Value
    decreases |path|
  {
    if path == "" then LEAF
    else if IsList(Head(path)) then Obj([Field(ListKey(Head(path)), Arr([Doubled(Rest(path)), Doubled(Rest(path))]))])
    else Obj([Field(Head(path), Doubled(Rest(path)))])
  }

  /** The match that takes item 0 of every list, or item 1 of the first one. */
  function Instance(path: string, first: nat): seq<Step>
    decreases |path|
  {
    if path == "" then []
    else if IsList(Head(path)) then [Item(ListKey(Head(path)), first)] + Instance(Rest(path), 0)
    else [Key(Head(path))] + Instance(Rest(path), first)
  }

  lemma {:induction false} InstanceMatches(path: string, first: nat)
    requires first < 2
    ensures Matches(Doubled(path), path, Match(Instance(path, first), LEAF))
    decreases |path|
  {
    if path != "" {
      InstanceMatches(Rest(path), if IsList(Head(path)) then 0 else first);
      assert Instance(path, first)[1..] == Instance(Rest(path), if IsList(Head(path)) then 0 else first);
    }
  }

  lemma {:induction false} InstancesDiffer(path: string)
    requires HasList(path)
    ensures Instance(path, 0) != Instance(path, 1)
    decreases |path|
  {
    if IsList(Head(path)) {
      assert Instance(path, 0)[0].index == 0 && Instance(path, 1)[0].index == 1;
    } else {
      InstancesDiffer(Rest(path));
      assert Instance(path, 0)[1..] == Instance(Rest(path), 0) && Instance(path, 1)[1..] == Instance(Rest(path), 1);
    }
  }

  lemma {:induction false} SomethingIsLost(path: string) returns (m: Match)
    requires PlainAboveList(path)
    ensures Matches(Doubled(path), path, m) && m !in Expand(Doubled(path), path)
    decreases |path|
  {
    var head, rest := Head(path), Rest(path);
    var node := Doubled(path);
    if IsList(head) {
      var m1 := SomethingIsLost(rest);
      m := Match([Item(ListKey(head), 0)] + m1.steps, m1.value);
      assert m.steps[1..] == m1.steps;
      assert ItemsAt(node, ListKey(head)) == [Doubled(rest), Doubled(rest)];
      ItemZeroIsLost([Doubled(rest), Doubled(rest)], ListKey(head), rest, m);
    } else {
      InstanceMatches(path, 0);
      InstanceMatches(path, 1);
      InstancesDiffer(rest);
      assert Instance(path, 0)[1..] == Instance(rest, 0) && Instance(path, 1)[1..] == Instance(rest, 1);
      var found := Expand(node, path);
      assert |found| <= 1;
      m := if found != [] && found[0].steps == Instance(path, 0) then Match(Instance(path, 1), LEAF)
           else Match(Instance(path, 0), LEAF);
    }
  }

  lemma ItemZeroIsLost(items: seq<Value>, key: string, rest: string, m: Match)
    requires items != [] && m.steps != [] && m.steps[0] == Item(key, 0)
    requires Match(m.steps[1..], m.value) !in Expand(items[0], rest)
    ensures m !in ExpandItems(items, 0, key, rest)
  {
    var found := Expand(items[0], rest);
    var here, there := Under(Item(key, 0), found), ExpandItems(items[1..], 1, key, rest);
    UnderTail(Item(key, 0), found, m);
    if m in there {
      ItemsAreSound(items[1..], 1, key, rest, m);
    }
  }

  /**
    Every result gives up all its matches exactly when no plain key stands above a list; and whenever
    there is a match at all, one is found.
   */
  lemma FindsAllIff(path: string)
    ensures (forall node :: FindsAll(node, path)) <==> !PlainAboveList(path)
    ensures forall node, m :: Matches(node, path, m) ==> Expand(node, path) != []
  {
    forall node, m | Matches(node, path, m) ensures Expand(node, path) != [] {
      SomethingIsFound(node, path, m);
    }
    if PlainAboveList(path) {
      var m := SomethingIsLost(path);
      assert !FindsAll(Doubled(path), path);
    } else {
      forall node ensures FindsAll(node, path) {
        forall m | Matches(node, path, m) ensures m in Expand(node, path) {
          FoundWithoutPlainAboveList(node, path, m);
        }
      }
    }
  }
}
