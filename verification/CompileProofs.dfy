/** What a compilation contains, and what it does not depend on. */
module CompileProofs {
  import opened Basics
  import opened Json
  import opened Sorting
  import opened GovernanceYaml
  import GovernanceReadsBack
  import opened Compile

  // ---- order ------------------------------------------------------------------------------------

  lemma {:induction false} BeforeIsTotal(a: string, b: string)
    ensures Before(a, b) || Before(b, a)
    ensures Before(a, b) && Before(b, a) ==> a == b
  {
    if a != [] && b != [] && a[0] == b[0] {
      BeforeIsTotal(a[1..], b[1..]);
      assert a == [a[0]] + a[1..] && b == [b[0]] + b[1..];
    }
  }

  lemma {:induction false} BeforeIsTransitive(a: string, b: string, c: string)
    requires Before(a, b) && Before(b, c)
    ensures Before(a, c)
  {
    if a != [] && a[0] == b[0] == c[0] {
      BeforeIsTransitive(a[1..], b[1..], c[1..]);
    }
  }

  lemma BeforeOrders()
    ensures TotalPreorder(Before)
  {
    forall x, y ensures Before(x, y) || Before(y, x) { BeforeIsTotal(x, y); }
    forall x, y, z | Before(x, y) && Before(y, z) ensures Before(x, z) { BeforeIsTransitive(x, y, z); }
  }

  lemma KeysOrder<V(!new)>()
    ensures TotalPreorder<Entry<V>>(KeyBefore)
  {
    forall x: Entry<V>, y: Entry<V> ensures KeyBefore(x, y) || KeyBefore(y, x) { BeforeIsTotal(x.key, y.key); }
    forall x: Entry<V>, y: Entry<V>, z: Entry<V> | KeyBefore(x, y) && KeyBefore(y, z) ensures KeyBefore(x, z) {
      BeforeIsTransitive(x.key, y.key, z.key);
    }
  }

  /** Sorting strings: the order they came in does not matter. */
  lemma NamesIgnoreOrder(s: seq<string>, t: seq<string>)
    requires multiset(s) == multiset(t)
    ensures Sort(Before, s) == Sort(Before, t)
  {
    BeforeOrders();
    forall x, y | Before(x, y) && Before(y, x) ensures x == y { BeforeIsTotal(x, y); }
    SortIgnoresOrder(Before, s, t);
  }

  // ---- permuted manifests -----------------------------------------------------------------------

  lemma {:induction false} FilterCounts<A>(keep: A -> bool, s: seq<A>, x: A)
    ensures multiset(Filter(keep, s))[x] == if keep(x) then multiset(s)[x] else 0
  {
    if s != [] {
      FilterCounts(keep, s[1..], x);
      assert s == [s[0]] + s[1..];
    }
  }

  lemma FilterPermuted<A(!new)>(keep: A -> bool, s: seq<A>, t: seq<A>)
    requires multiset(s) == multiset(t)
    ensures multiset(Filter(keep, s)) == multiset(Filter(keep, t))
  {
    forall x ensures multiset(Filter(keep, s))[x] == multiset(Filter(keep, t))[x] {
      FilterCounts(keep, s, x);
      FilterCounts(keep, t, x);
    }
  }

  lemma ChosenPermuted(keep: ToolManifest -> bool, ms: seq<ToolManifest>, ns: seq<ToolManifest>)
    requires multiset(ms) == multiset(ns)
    ensures Sort(Before, Chosen(keep, ms)) == Sort(Before, Chosen(keep, ns))
  {
    FilterPermuted(keep, ms, ns);
    MapPermuted(IdOf, Filter(keep, ms), Filter(keep, ns));
    NamesIgnoreOrder(Chosen(keep, ms), Chosen(keep, ns));
  }

  lemma {:induction false} ChosenMeaning(keep: ToolManifest -> bool, ms: seq<ToolManifest>, id: string)
    ensures id in Chosen(keep, ms) <==> exists i :: 0 <= i < |ms| && ms[i].id == id && keep(ms[i])
  {
    if ms != [] {
      ChosenMeaning(keep, ms[1..], id);
      var chosen := Chosen(keep, ms);
      assert chosen == (if keep(ms[0]) then [ms[0].id] else []) + Chosen(keep, ms[1..]);
      assert forall i :: 0 < i < |ms| ==> ms[i] == ms[1..][i - 1];
      if id in Chosen(keep, ms[1..]) {
        var i :| 0 <= i < |ms[1..]| && ms[1..][i].id == id && keep(ms[1..][i]);
        assert ms[i + 1].id == id && keep(ms[i + 1]);
      }
    }
  }

  lemma SortedMeaning(s: seq<string>, x: string)
    ensures x in Sort(Before, s) <==> x in s
    ensures Sorted(Before, Sort(Before, s))
  {
    BeforeOrders();
    SortSorts(Before, s);
    assert x in Sort(Before, s) <==> x in multiset(Sort(Before, s));
    assert x in s <==> x in multiset(s);
  }

  /** The sinks are the tools whose effect can resolve to EXPORT or EXEC, and no others; sources are those that declare fields. */
  lemma SinksAndSources(t: Texts, ms: seq<ToolManifest>, policy: Policy, inputs: Option<Dict>, c: Compiled, id: string)
    requires Compilation(t, ms, policy, inputs) == Ok(c)
    ensures id in c.egress <==>
            exists i :: 0 <= i < |ms| && ms[i].id == id
                        && (ms[i].defaultClass == "EXPORT" || ms[i].defaultClass == "EXEC" || "EXPORT" in ms[i].rules || "EXEC" in ms[i].rules)
    ensures id in c.untrusted <==> exists i :: 0 <= i < |ms| && ms[i].id == id && ms[i].untrustedFields != []
    ensures id in c.sensitive <==> exists i :: 0 <= i < |ms| && ms[i].id == id && ms[i].sensitiveFields != []
    ensures Sorted(Before, c.egress) && Sorted(Before, c.untrusted) && Sorted(Before, c.sensitive)
  {
    ChosenMeaning(IsEgress, ms, id);
    ChosenMeaning(IsUntrusted, ms, id);
    ChosenMeaning(IsSensitive, ms, id);
    SortedMeaning(Chosen(IsEgress, ms), id);
    SortedMeaning(Chosen(IsUntrusted, ms), id);
    SortedMeaning(Chosen(IsSensitive, ms), id);
    forall i | 0 <= i < |ms|
      ensures IsEgress(ms[i]) <==>
              ms[i].defaultClass == "EXPORT" || ms[i].defaultClass == "EXEC" || "EXPORT" in ms[i].rules || "EXEC" in ms[i].rules
    {
      EgressIff(ms[i]);
    }
  }

  lemma EgressIff(m: ToolManifest)
    ensures IsEgress(m) <==> m.defaultClass == "EXPORT" || m.defaultClass == "EXEC" || "EXPORT" in m.rules || "EXEC" in m.rules
  {}

  predicate FirstDifference(a: string, b: string, k: int)
  {
    0 <= k < |a| && k < |b| && a[..k] == b[..k] && a[k] != b[k]
  }

  lemma DifferenceShifts(a: string, b: string, k: nat)
    requires a != [] && b != [] && a[0] == b[0]
    ensures FirstDifference(a[1..], b[1..], k) <==> FirstDifference(a, b, k + 1)
    ensures k < |a| - 1 ==> a[1..][k] == a[k + 1]
    ensures k < |b| - 1 ==> b[1..][k] == b[k + 1]
  {
    if k < |a| - 1 && k < |b| - 1 {
      assert a[..k + 1] == [a[0]] + a[1..][..k] && b[..k + 1] == [b[0]] + b[1..][..k];
      assert a[..k + 1][1..] == a[1..][..k] && b[..k + 1][1..] == b[1..][..k];
    }
  }

  lemma PrefixShifts(a: string, b: string)
    requires a != [] && b != [] && a[0] == b[0]
    ensures a <= b <==> a[1..] <= b[1..]
  {
    assert a == [a[0]] + a[1..] && b == [b[0]] + b[1..];
  }

  ghost predicate Smaller(a: string, b: string)
  {
    exists k :: FirstDifference(a, b, k) && a[k] < b[k]
  }

  /** The order of names is that of their characters: by the first in which they differ, a prefix coming first. */
  lemma {:induction false} BeforeIff(a: string, b: string)
    ensures Before(a, b) <==> a <= b || Smaller(a, b)
  {
    if a != [] && b != [] && a[0] == b[0] {
      BeforeIff(a[1..], b[1..]);
      PrefixShifts(a, b);
      if k :| FirstDifference(a, b, k) && a[k] < b[k] { DifferenceShifts(a, b, k - 1); }
      if k :| FirstDifference(a[1..], b[1..], k) && a[1..][k] < b[1..][k] { DifferenceShifts(a, b, k); }
    } else if a != [] && b != [] {
      assert FirstDifference(a, b, 0);
    }
  }

  // ---- dictionaries -----------------------------------------------------------------------------

  lemma {:induction false} PutMeaning<V>(d: seq<Entry<V>>, key: string, value: V, k: string)
    ensures Lookup(Put(d, key, value), k) == if k == key then Some(value) else Lookup(d, k)
  {
    if d != [] && d[0].key != key {
      PutMeaning(d[1..], key, value, k);
    }
  }

  ghost predicate DistinctKeys<V>(d: seq<Entry<V>>)
  {
    forall i, j :: 0 <= i < j < |d| ==> d[i].key != d[j].key
  }

  lemma {:induction false} PutKeepsDistinct<V>(d: seq<Entry<V>>, key: string, value: V)
    requires DistinctKeys(d)
    ensures DistinctKeys(Put(d, key, value))
    ensures forall e :: e in Put(d, key, value) ==> e.key == key || e in d
  {
    if d != [] && d[0].key != key {
      PutKeepsDistinct(d[1..], key, value);
      var rest := Put(d[1..], key, value);
      forall i | 0 <= i < |rest| ensures rest[i].key != d[0].key {
        assert rest[i] in rest;
        if rest[i].key != key {
          var j :| 0 <= j < |d[1..]| && d[1..][j] == rest[i];
          assert d[j + 1] == rest[i];
        }
      }
    }
  }

  lemma {:induction false} PutFresh<V>(d: seq<Entry<V>>, key: string, value: V)
    requires Lookup(d, key).None?
    ensures Put(d, key, value) == d + [Entry(key, value)]
  {
    if d != [] {
      PutFresh(d[1..], key, value);
      assert d == [d[0]] + d[1..];
    }
  }

  lemma {:induction false} LookupMeaning<V>(d: seq<Entry<V>>, key: string)
    requires DistinctKeys(d)
    ensures forall v :: Lookup(d, key) == Some(v) <==> Entry(key, v) in d
  {
    if d != [] {
      LookupMeaning(d[1..], key);
      forall v ensures Lookup(d, key) == Some(v) <==> Entry(key, v) in d {
        if Entry(key, v) in d {
          var i :| 0 <= i < |d| && d[i] == Entry(key, v);
          if i > 0 { assert d[1..][i - 1] == d[i]; }
        }
        assert Entry(key, v) in d[1..] ==> Entry(key, v) in d;
      }
    }
  }

  /** Two orders of the same dictionary answer alike, and sort alike. */
  lemma DictionariesAgree<V(!new)>(d: seq<Entry<V>>, e: seq<Entry<V>>)
    requires multiset(d) == multiset(e) && DistinctKeys(d) && DistinctKeys(e)
    ensures forall key :: Lookup(d, key) == Lookup(e, key)
    ensures Sort(KeyBefore, d) == Sort(KeyBefore, e)
  {
    forall key ensures Lookup(d, key) == Lookup(e, key) {
      LookupMeaning(d, key);
      LookupMeaning(e, key);
      assert forall v :: Entry(key, v) in d <==> Entry(key, v) in multiset(d);
      assert forall v :: Entry(key, v) in e <==> Entry(key, v) in multiset(e);
      assert forall v :: Lookup(d, key) == Some(v) <==> Lookup(e, key) == Some(v);
      if Lookup(d, key).Some? { assert Lookup(e, key) == Some(Lookup(d, key).value); }
    }
    KeysOrder<V>();
    forall x, y | x in d && y in d && KeyBefore(x, y) && KeyBefore(y, x) ensures x == y {
      BeforeIsTotal(x.key, y.key);
    }
    SortIgnoresOrder(KeyBefore, d, e);
  }

  // ---- distinct ids -----------------------------------------------------------------------------

  ghost predicate DistinctIds(ms: seq<ToolManifest>)
  {
    forall i, j :: 0 <= i < j < |ms| ==> ms[i].id != ms[j].id
  }

  function Drive(m: ToolManifest): Entry<seq<string>>
  {
    Entry(m.id, m.drivingArgs)
  }

  function Field(m: ToolManifest): Entry<seq<string>>
  {
    Entry(m.id, Sort(Before, m.untrustedFields))
  }

  lemma {:induction false} LookupAbsent(keep: ToolManifest -> bool, entry: ToolManifest -> Entry<seq<string>>, ms: seq<ToolManifest>, id: string)
    requires forall m :: entry(m).key == m.id
    requires forall i :: 0 <= i < |ms| ==> ms[i].id != id
    ensures Lookup(Map(entry, Filter(keep, ms)), id).None?
  {
    if ms != [] {
      var rest := Map(entry, Filter(keep, ms[1..]));
      LookupAbsent(keep, entry, ms[1..], id);
      if keep(ms[0]) {
        assert Map(entry, Filter(keep, ms)) == [entry(ms[0])] + rest;
        assert ([entry(ms[0])] + rest)[1..] == rest;
      } else {
        assert Map(entry, Filter(keep, ms)) == rest;
      }
    }
  }

  lemma InitLast(keep: ToolManifest -> bool, entry: ToolManifest -> Entry<seq<string>>, ms: seq<ToolManifest>)
    requires ms != []
    ensures Map(entry, Filter(keep, ms)) == Map(entry, Filter(keep, Init(ms))) + if keep(Last(ms)) then [entry(Last(ms))] else []
  {
    assert ms == Init(ms) + [Last(ms)];
    FilterAppend(keep, Init(ms), [Last(ms)]);
    assert Filter(keep, [Last(ms)]) == if keep(Last(ms)) then [Last(ms)] else [];
  }

  lemma {:induction false} DrivingIsMapped(ms: seq<ToolManifest>)
    requires DistinctIds(ms)
    ensures DrivingArgs(ms) == Map(Drive, Filter(Drives, ms))
    decreases |ms|
  {
    if ms != [] {
      DrivingIsMapped(Init(ms));
      InitLast(Drives, Drive, ms);
      if Drives(Last(ms)) {
        LookupAbsent(Drives, Drive, Init(ms), Last(ms).id);
        PutFresh(DrivingArgs(Init(ms)), Last(ms).id, Last(ms).drivingArgs);
      }
    }
  }

  lemma {:induction false} FieldsAreMapped(ms: seq<ToolManifest>)
    requires DistinctIds(ms)
    ensures Fields(ms) == Map(Field, Filter(IsUntrusted, ms))
    decreases |ms|
  {
    if ms != [] {
      FieldsAreMapped(Init(ms));
      InitLast(IsUntrusted, Field, ms);
      if IsUntrusted(Last(ms)) {
        LookupAbsent(IsUntrusted, Field, Init(ms), Last(ms).id);
        PutFresh(Fields(Init(ms)), Last(ms).id, Sort(Before, Last(ms).untrustedFields));
      }
    }
  }

  lemma {:induction false} DrivingIsDistinct(ms: seq<ToolManifest>)
    ensures DistinctKeys(DrivingArgs(ms))
    decreases |ms|
  {
    if ms != [] {
      DrivingIsDistinct(Init(ms));
      PutKeepsDistinct(DrivingArgs(Init(ms)), Last(ms).id, Last(ms).drivingArgs);
    }
  }

  lemma {:induction false} FieldsAreDistinct(ms: seq<ToolManifest>)
    ensures DistinctKeys(Fields(ms))
    decreases |ms|
  {
    if ms != [] {
      FieldsAreDistinct(Init(ms));
      PutKeepsDistinct(Fields(Init(ms)), Last(ms).id, Sort(Before, Last(ms).untrustedFields));
    }
  }

  lemma DrivingPermuted(ms: seq<ToolManifest>, ns: seq<ToolManifest>)
    requires DistinctIds(ms) && DistinctIds(ns) && multiset(ms) == multiset(ns)
    ensures multiset(DrivingArgs(ms)) == multiset(DrivingArgs(ns)) && multiset(Fields(ms)) == multiset(Fields(ns))
  {
    DrivingIsMapped(ms);
    DrivingIsMapped(ns);
    FilterPermuted(Drives, ms, ns);
    MapPermuted(Drive, Filter(Drives, ms), Filter(Drives, ns));
    FieldsAreMapped(ms);
    FieldsAreMapped(ns);
    FilterPermuted(IsUntrusted, ms, ns);
    MapPermuted(Field, Filter(IsUntrusted, ms), Filter(IsUntrusted, ns));
  }

  lemma {:induction false} DestinationsAgree(egress: seq<string>, d: seq<Entry<seq<string>>>, e: seq<Entry<seq<string>>>, allowed: seq<string>)
    requires forall key :: Lookup(d, key) == Lookup(e, key)
    ensures Destinations(egress, d, allowed) == Destinations(egress, e, allowed)
    decreases |egress|
  {
    if egress != [] {
      DestinationsAgree(Init(egress), d, e, allowed);
      assert CheckedArg(d, Last(egress)) == CheckedArg(e, Last(egress));
    }
  }

  /** The same dictionary, in whatever order. */
  ghost predicate SameDict<V>(d: seq<Entry<V>>, e: seq<Entry<V>>)
  {
    DistinctKeys(d) && DistinctKeys(e) && multiset(d) == multiset(e)
  }

  /**
    The order of the manifests is irrelevant when their ids are distinct: the same compilation, up to the
    order of two dictionaries, or the same refusal; and the same governance file to the letter.
   */
  lemma CompilationIgnoresOrder(t: Texts, ms: seq<ToolManifest>, ns: seq<ToolManifest>, policy: Policy, inputs: Option<Dict>)
    requires DistinctIds(ms) && DistinctIds(ns) && multiset(ms) == multiset(ns)
    ensures var c, d := Compilation(t, ms, policy, inputs), Compilation(t, ns, policy, inputs);
            && (c.Err? ==> d == c)
            && (c.Ok? ==> && d.Ok? && d.value == c.value.(fields := d.value.fields, driving := d.value.driving)
                          && SameDict(c.value.fields, d.value.fields) && SameDict(c.value.driving, d.value.driving)
                          && GovernanceOf(c.value) == GovernanceOf(d.value))
  {
    ChosenPermuted(IsEgress, ms, ns);
    ChosenPermuted(IsUntrusted, ms, ns);
    ChosenPermuted(IsSensitive, ms, ns);
    DrivingPermuted(ms, ns);
    DrivingIsDistinct(ms);
    DrivingIsDistinct(ns);
    FieldsAreDistinct(ms);
    FieldsAreDistinct(ns);
    DictionariesAgree(DrivingArgs(ms), DrivingArgs(ns));
    PoliciesAgree(t, Sort(Before, Chosen(IsEgress, ms)), DrivingArgs(ms), DrivingArgs(ns), policy.allowlist, inputs);
  }

  lemma PoliciesAgree(t: Texts, egress: seq<string>, d: seq<Entry<seq<string>>>, e: seq<Entry<seq<string>>>,
                      allowlist: seq<Value>, inputs: Option<Dict>)
    requires forall key :: Lookup(d, key) == Lookup(e, key)
    ensures PoliciesFor(t, egress, d, allowlist, inputs) == PoliciesFor(t, egress, e, allowlist, inputs)
  {
    var x := Expanded(allowlist, inputs);
    if x.Ok? {
      DestinationsAgree(egress, d, e, Shown(t, x.value));
    }
  }

  // ---- destination policies ---------------------------------------------------------------------

  lemma {:induction false} DestinationsMeaning(egress: seq<string>, driving: seq<Entry<seq<string>>>, allowed: seq<string>, sink: string)
    ensures Lookup(Destinations(egress, driving, allowed), sink)
         == if sink in egress then Some(Destination(CheckedArg(driving, sink), allowed)) else None
    decreases |egress|
  {
    if egress != [] {
      DestinationsMeaning(Init(egress), driving, allowed, sink);
      PutMeaning(Destinations(Init(egress), driving, allowed), Last(egress), Destination(CheckedArg(driving, Last(egress)), allowed), sink);
      assert egress == Init(egress) + [Last(egress)];
    }
  }

  /** With an allowlist, every sink and only a sink is held to it, on the argument that drives it. */
  lemma EverySinkIsHeld(t: Texts, ms: seq<ToolManifest>, policy: Policy, inputs: Option<Dict>, c: Compiled, sink: string)
    requires Compilation(t, ms, policy, inputs) == Ok(c)
    ensures Lookup(c.policies, sink).Some? <==> policy.allowlist != [] && sink in c.egress
    ensures Lookup(c.policies, sink).Some? ==>
              && Expanded(policy.allowlist, inputs).Ok?
              && Lookup(c.policies, sink).value.allowed == Shown(t, Expanded(policy.allowlist, inputs).value)
              && Lookup(c.policies, sink).value.arg == CheckedArg(c.driving, sink)
  {
    if policy.allowlist != [] {
      DestinationsMeaning(c.egress, c.driving, Shown(t, Expanded(policy.allowlist, inputs).value), sink);
    }
  }

  lemma {:induction false} DrivingOf(ms: seq<ToolManifest>, i: nat)
    requires DistinctIds(ms) && i < |ms|
    ensures Lookup(DrivingArgs(ms), ms[i].id) == if Drives(ms[i]) then Some(ms[i].drivingArgs) else None
    decreases |ms|
  {
    var last, before := Last(ms), DrivingArgs(Init(ms));
    if Drives(last) {
      PutMeaning(before, last.id, last.drivingArgs, ms[i].id);
    }
    if i < |ms| - 1 {
      DrivingOf(Init(ms), i);
      assert Init(ms)[i] == ms[i] && ms[i].id != last.id;
    } else {
      DrivingIsMapped(Init(ms));
      LookupAbsent(Drives, Drive, Init(ms), last.id);
    }
  }

  /** The argument is the first that the tool's manifest names as driving it. */
  lemma CheckedArgMeaning(ms: seq<ToolManifest>, i: nat)
    requires DistinctIds(ms) && i < |ms|
    ensures CheckedArg(DrivingArgs(ms), ms[i].id) == if ms[i].drivingArgs != [] then ms[i].drivingArgs[0] else "recipient"
  {
    DrivingOf(ms, i);
  }

  /** An allowlist resolves exactly when every reference in it is supplied. */
  lemma {:induction false} ExpansionSucceedsIff(items: seq<Value>, inputs: Option<Dict>)
    ensures Expanded(items, inputs).Ok? <==>
            forall i :: 0 <= i < |items| && IsReference(items[i]) ==> Supplied(inputs, items[i])
    decreases |items|
  {
    if items != [] {
      ExpansionSucceedsIff(Init(items), inputs);
      assert forall i :: 0 <= i < |items| - 1 ==> items[i] == Init(items)[i];
    }
  }

  predicate StandsFor(inputs: Option<Dict>, item: Value, v: Value)
  {
    (IsReference(item) ==> Supplied(inputs, item)) && v in Meaning(inputs, item)
  }

  /** And then it admits what its items stand for, and nothing else. */
  lemma {:induction false} ExpansionMeaning(items: seq<Value>, inputs: Option<Dict>, v: Value)
    requires Expanded(items, inputs).Ok?
    ensures v in Expanded(items, inputs).value <==> exists i :: 0 <= i < |items| && StandsFor(inputs, items[i], v)
    decreases |items|
  {
    if items != [] {
      ExpansionMeaning(Init(items), inputs, v);
      assert forall i :: 0 <= i < |items| - 1 ==> items[i] == Init(items)[i];
      assert v in Expanded(items, inputs).value <==> v in Expanded(Init(items), inputs).value || StandsFor(inputs, Last(items), v);
    }
  }

  /** So a placeholder is never admitted as a destination, unless an input holds it as its value. */
  lemma {:induction false} NoPlaceholderIsAdmitted(items: seq<Value>, inputs: Option<Dict>, v: Value)
    requires Expanded(items, inputs).Ok? && v in Expanded(items, inputs).value && IsReference(v)
    ensures inputs.Some?
    ensures exists key :: key in inputs.value && (inputs.value[key] == v || (inputs.value[key].Arr? && v in inputs.value[key].items))
  {
    ExpansionMeaning(items, inputs, v);
    var i :| 0 <= i < |items| && StandsFor(inputs, items[i], v);
    assert IsReference(items[i]);
    var key := items[i].s[|INPUT_REF|..];
    assert key in inputs.value;
  }

  // ---- the governance file ----------------------------------------------------------------------

  lemma {:induction false} DestinationsAreDistinct(egress: seq<string>, driving: seq<Entry<seq<string>>>, allowed: seq<string>)
    ensures DistinctKeys(Destinations(egress, driving, allowed))
    decreases |egress|
  {
    if egress != [] {
      DestinationsAreDistinct(Init(egress), driving, allowed);
      PutKeepsDistinct(Destinations(Init(egress), driving, allowed), Last(egress), Destination(CheckedArg(driving, Last(egress)), allowed));
    }
  }

  lemma SortedDictionary<V(!new)>(d: seq<Entry<V>>, e: Entry<V>)
    requires DistinctKeys(d)
    ensures e in Sort(KeyBefore, d) <==> Lookup(d, e.key) == Some(e.value)
  {
    KeysOrder<V>();
    SortSorts(KeyBefore, d);
    LookupMeaning(d, e.key);
    assert e in Sort(KeyBefore, d) <==> e in multiset(Sort(KeyBefore, d));
    assert e in d <==> e in multiset(d);
  }

  lemma DrivingIsPrinted(c: Compiled, tool: string, args: seq<string>)
    requires DistinctKeys(c.driving)
    ensures ToolArgs(tool, args) in GovernanceOf(c).driving <==> Lookup(c.driving, tool) == Some(args)
  {
    var sorted := Sort(KeyBefore, c.driving);
    SortedDictionary(c.driving, Entry(tool, args));
    if Entry(tool, args) in sorted {
      var i :| 0 <= i < |sorted| && sorted[i] == Entry(tool, args);
      assert ToolArgsOf(sorted)[i] == ToolArgs(tool, args);
    }
    if ToolArgs(tool, args) in ToolArgsOf(sorted) {
      var i :| 0 <= i < |sorted| && ToolArgsOf(sorted)[i] == ToolArgs(tool, args);
      assert sorted[i] == Entry(tool, args);
    }
  }

  lemma PoliciesArePrinted(c: Compiled, tool: string, arg: string, allowed: seq<string>)
    requires DistinctKeys(c.policies)
    ensures EnumPolicy(tool, arg, allowed) in GovernanceOf(c).policies <==> Lookup(c.policies, tool) == Some(Destination(arg, allowed))
  {
    var sorted, e := Sort(KeyBefore, c.policies), Entry(tool, Destination(arg, allowed));
    SortedDictionary(c.policies, e);
    if e in sorted {
      var i :| 0 <= i < |sorted| && sorted[i] == e;
      assert EnumPoliciesOf(sorted)[i] == EnumPolicy(tool, arg, allowed);
    }
    if EnumPolicy(tool, arg, allowed) in EnumPoliciesOf(sorted) {
      var i :| 0 <= i < |sorted| && EnumPoliciesOf(sorted)[i] == EnumPolicy(tool, arg, allowed);
      assert sorted[i] == e;
    }
  }

  lemma DictionariesAreDistinct(t: Texts, ms: seq<ToolManifest>, policy: Policy, inputs: Option<Dict>, c: Compiled)
    requires Compilation(t, ms, policy, inputs) == Ok(c)
    ensures DistinctKeys(c.driving) && DistinctKeys(c.policies) && DistinctKeys(c.fields)
  {
    DrivingIsDistinct(ms);
    FieldsAreDistinct(ms);
    if policy.allowlist != [] {
      DestinationsAreDistinct(c.egress, c.driving, Shown(t, Expanded(policy.allowlist, inputs).value));
    }
  }

  /**
    Reading the governance file gives back what was compiled: its sources and sinks, and both dictionaries
    entry by entry.
   */
  lemma CompilationIsRecoverable(t: Texts, comments: seq<Line>, ms: seq<ToolManifest>, policy: Policy, inputs: Option<Dict>, c: Compiled)
    returns (g: Governance)
    requires Compilation(t, ms, policy, inputs) == Ok(c) && GovernanceReadsBack.AllComments(comments)
    ensures ReadYaml(Yaml(comments, GovernanceOf(c))) == Some(g)
    ensures g.untrusted == c.untrusted && g.sensitive == c.sensitive && g.egress == c.egress
    ensures forall tool, args :: ToolArgs(tool, args) in g.driving <==> Lookup(c.driving, tool) == Some(args)
    ensures forall tool, arg, allowed :: EnumPolicy(tool, arg, allowed) in g.policies <==> Lookup(c.policies, tool) == Some(Destination(arg, allowed))
  {
    g := GovernanceOf(c);
    GovernanceReadsBack.YamlReadsBack(comments, g);
    DictionariesAreDistinct(t, ms, policy, inputs, c);
    forall tool, args ensures ToolArgs(tool, args) in g.driving <==> Lookup(c.driving, tool) == Some(args) {
      DrivingIsPrinted(c, tool, args);
    }
    forall tool, arg, allowed
      ensures EnumPolicy(tool, arg, allowed) in g.policies <==> Lookup(c.policies, tool) == Some(Destination(arg, allowed))
    {
      PoliciesArePrinted(c, tool, arg, allowed);
    }
  }
}
