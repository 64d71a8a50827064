/** What a compilation says of a tool, told by the manifests, the policy and the inputs alone. */
module CompileMeaning {
  import opened Basics
  import opened Json
  import opened Sorting
  import opened Compile
  import opened CompileProofs

  // ---- fields and driving arguments -------------------------------------------------------------

  /** The last manifest of that id that declares untrusted fields. */
  predicate LastUntrusted(ms: seq<ToolManifest>, id: string, i: nat)
  {
    && i < |ms| && ms[i].id == id && ms[i].untrustedFields != []
    && forall j :: i < j < |ms| && ms[j].id == id ==> ms[j].untrustedFields == []
  }

  predicate LastDriven(ms: seq<ToolManifest>, id: string, i: nat)
  {
    && i < |ms| && ms[i].id == id && ms[i].drivingArgs != []
    && forall j :: i < j < |ms| && ms[j].id == id ==> ms[j].drivingArgs == []
  }

  lemma {:induction false} FieldsOf(ms: seq<ToolManifest>, id: string) returns (i: nat)
    ensures Lookup(Fields(ms), id).None? ==> forall j :: 0 <= j < |ms| && ms[j].id == id ==> ms[j].untrustedFields == []
    ensures Lookup(Fields(ms), id).Some? ==> LastUntrusted(ms, id, i) && Lookup(Fields(ms), id).value == Sort(Before, ms[i].untrustedFields)
    decreases |ms|
  {
    i := 0;
    if ms != [] {
      i := FieldsOf(Init(ms), id);
      assert forall j :: 0 <= j < |ms| - 1 ==> ms[j] == Init(ms)[j];
      if IsUntrusted(Last(ms)) {
        PutMeaning(Fields(Init(ms)), Last(ms).id, Sort(Before, Last(ms).untrustedFields), id);
        if Last(ms).id == id { i := |ms| - 1; }
      }
    }
  }

  lemma {:induction false} DrivingOfLast(ms: seq<ToolManifest>, id: string) returns (i: nat)
    ensures Lookup(DrivingArgs(ms), id).None? ==> forall j :: 0 <= j < |ms| && ms[j].id == id ==> ms[j].drivingArgs == []
    ensures Lookup(DrivingArgs(ms), id).Some? ==> LastDriven(ms, id, i) && Lookup(DrivingArgs(ms), id).value == ms[i].drivingArgs
    decreases |ms|
  {
    i := 0;
    if ms != [] {
      i := DrivingOfLast(Init(ms), id);
      assert forall j :: 0 <= j < |ms| - 1 ==> ms[j] == Init(ms)[j];
      if Drives(Last(ms)) {
        PutMeaning(DrivingArgs(Init(ms)), Last(ms).id, Last(ms).drivingArgs, id);
        if Last(ms).id == id { i := |ms| - 1; }
      }
    }
  }

  /** Sorted, and the same names as often. */
  ghost predicate Arranged(names: seq<string>, sorted: seq<string>)
  {
    multiset(sorted) == multiset(names) && Sorted(Before, sorted)
  }

  /** A tool has the untrusted fields, in order of their names, and the driving arguments of the last manifest that has any. */
  lemma FieldsAndArgs(t: Texts, ms: seq<ToolManifest>, policy: Policy, inputs: Option<Dict>, c: Compiled, id: string, i: nat)
    requires Compilation(t, ms, policy, inputs) == Ok(c)
    ensures LastUntrusted(ms, id, i) ==> Lookup(c.fields, id).Some? && Arranged(ms[i].untrustedFields, Lookup(c.fields, id).value)
    ensures Lookup(c.fields, id).Some? ==> exists j: nat :: LastUntrusted(ms, id, j)
    ensures LastDriven(ms, id, i) ==> Lookup(c.driving, id) == Some(ms[i].drivingArgs)
    ensures Lookup(c.driving, id).Some? ==> exists j: nat :: LastDriven(ms, id, j)
  {
    var j := FieldsOf(ms, id);
    var k := DrivingOfLast(ms, id);
    BeforeOrders();
    if LastUntrusted(ms, id, i) {
      assert i == j;
      SortSorts(Before, ms[i].untrustedFields);
    }
    if LastDriven(ms, id, i) { assert i == k; }
  }

  // ---- overrides --------------------------------------------------------------------------------

  predicate LastOverride(t: Texts, overrides: seq<Entry<string>>, name: string, i: nat)
  {
    && i < |overrides| && t.lower(overrides[i].key) == name
    && forall j :: i < j < |overrides| ==> t.lower(overrides[j].key) != name
  }

  lemma {:induction false} LoweredIsDistinct(t: Texts, overrides: seq<Entry<string>>)
    ensures CompileProofs.DistinctKeys(Lowered(t, overrides))
    decreases |overrides|
  {
    if overrides != [] {
      LoweredIsDistinct(t, Init(overrides));
      PutKeepsDistinct(Lowered(t, Init(overrides)), t.lower(Last(overrides).key), Last(overrides).value);
    }
  }

  lemma {:induction false} LoweredOf(t: Texts, overrides: seq<Entry<string>>, name: string) returns (i: nat)
    ensures Lookup(Lowered(t, overrides), name).None? ==> forall j :: 0 <= j < |overrides| ==> t.lower(overrides[j].key) != name
    ensures Lookup(Lowered(t, overrides), name).Some? ==>
              LastOverride(t, overrides, name, i) && Lookup(Lowered(t, overrides), name).value == overrides[i].value
    decreases |overrides|
  {
    i := 0;
    if overrides != [] {
      var last, before := Last(overrides), Lowered(t, Init(overrides));
      i := LoweredOf(t, Init(overrides), name);
      assert forall j :: 0 <= j < |overrides| - 1 ==> overrides[j] == Init(overrides)[j];
      PutMeaning(before, t.lower(last.key), last.value, name);
      if t.lower(last.key) == name { i := |overrides| - 1; }
    }
  }

  /** The overrides stand under the sinks' names in lower case, the last one of a name, in order of the names. */
  lemma OverridesAreLowered(t: Texts, ms: seq<ToolManifest>, policy: Policy, inputs: Option<Dict>, c: Compiled, name: string, value: string)
    requires Compilation(t, ms, policy, inputs) == Ok(c)
    ensures Sorted<Entry<string>>(KeyBefore, c.overrides)
    ensures Entry(name, value) in c.overrides <==>
            exists i: nat :: LastOverride(t, policy.overrides, name, i) && policy.overrides[i].value == value
  {
    var d := Lowered(t, policy.overrides);
    var i := LoweredOf(t, policy.overrides, name);
    LoweredIsDistinct(t, policy.overrides);
    KeysOrder<string>();
    SortSorts<Entry<string>>(KeyBefore, d);
    SortedDictionary(d, Entry(name, value));
    if j: nat :| LastOverride(t, policy.overrides, name, j) && policy.overrides[j].value == value {
      assert j == i;
    }
  }

  // ---- allowlists -------------------------------------------------------------------------------

  /** The item refers to that input. */
  predicate Refers(item: Value, input: string)
  {
    item == Str("$inputs." + input)
  }

  lemma RefersIff(item: Value, input: string)
    ensures Refers(item, input) <==> IsReference(item) && item.s[|INPUT_REF|..] == input
  {
    if IsReference(item) {
      assert item.s == "$inputs." + item.s[|INPUT_REF|..];
    }
    assert ("$inputs." + input)[|INPUT_REF|..] == input;
  }

  /** The values an item stands for: what the input it names holds, spliced in if it is a list, or itself. */
  ghost predicate Yields(inputs: Option<Dict>, item: Value, vs: seq<Value>)
  {
    if exists input :: Refers(item, input)
    then exists input :: && Refers(item, input) && inputs.Some? && input in inputs.value
                         && vs == match inputs.value[input] case Arr(items) => items case v => [v]
    else vs == [item]
  }

  ghost predicate Unsupplied(inputs: Option<Dict>, item: Value)
  {
    exists input :: Refers(item, input) && (inputs.None? || input !in inputs.value)
  }

  lemma ItemYields(inputs: Option<Dict>, item: Value)
    ensures Unsupplied(inputs, item) <==> IsReference(item) && !Supplied(inputs, item)
    ensures !Unsupplied(inputs, item) ==> forall vs :: Yields(inputs, item, vs) <==> vs == Meaning(inputs, item)
  {
    forall input ensures Refers(item, input) <==> IsReference(item) && item.s[|INPUT_REF|..] == input {
      RefersIff(item, input);
    }
    if IsReference(item) { assert Refers(item, item.s[|INPUT_REF|..]); }
  }

  /** The lists one after the other. */
  function Joined(parts: seq<seq<Value>>): seq<Value>
  {
    if parts == [] then [] else Joined(Init(parts)) + Last(parts)
  }

  ghost predicate AllYield(inputs: Option<Dict>, items: seq<Value>, parts: seq<seq<Value>>)
  {
    |parts| == |items| && forall i :: 0 <= i < |items| ==> Yields(inputs, items[i], parts[i])
  }

  lemma YieldsMore(inputs: Option<Dict>, items: seq<Value>, parts: seq<seq<Value>>, vs: seq<Value>)
    requires items != [] && AllYield(inputs, Init(items), parts) && Yields(inputs, Last(items), vs)
    ensures AllYield(inputs, items, parts + [vs]) && Joined(parts + [vs]) == Joined(parts) + vs
  {
    assert Init(parts + [vs]) == parts;
    forall i | 0 <= i < |items| ensures Yields(inputs, items[i], (parts + [vs])[i]) {
      if i < |items| - 1 { assert items[i] == Init(items)[i] && (parts + [vs])[i] == parts[i]; }
    }
  }

  lemma {:induction false} ExpansionYields(items: seq<Value>, inputs: Option<Dict>) returns (parts: seq<seq<Value>>)
    requires Expanded(items, inputs).Ok?
    ensures AllYield(inputs, items, parts) && Expanded(items, inputs).value == Joined(parts)
    decreases |items|
  {
    parts := [];
    if items != [] {
      parts := ExpansionYields(Init(items), inputs);
      ItemYields(inputs, Last(items));
      var vs := Meaning(inputs, Last(items));
      YieldsMore(inputs, items, parts, vs);
      parts := parts + [vs];
    }
  }

  /** The first item that refers to an input nobody supplied. */
  ghost predicate FirstUnsupplied(inputs: Option<Dict>, items: seq<Value>, i: nat)
  {
    i < |items| && Unsupplied(inputs, items[i]) && forall j :: 0 <= j < i ==> !Unsupplied(inputs, items[j])
  }

  lemma {:induction false} ExpansionFails(items: seq<Value>, inputs: Option<Dict>) returns (i: nat)
    ensures Expanded(items, inputs).Err? ==> FirstUnsupplied(inputs, items, i) && items[i] == Str(Expanded(items, inputs).error)
    ensures Expanded(items, inputs).Ok? ==> forall j :: 0 <= j < |items| ==> !Unsupplied(inputs, items[j])
    decreases |items|
  {
    i := 0;
    if items != [] {
      i := ExpansionFails(Init(items), inputs);
      assert forall j :: 0 <= j < |items| - 1 ==> items[j] == Init(items)[j];
      ItemYields(inputs, Last(items));
      if Expanded(Init(items), inputs).Ok? && Unsupplied(inputs, Last(items)) { i := |items| - 1; }
    }
  }

  /**
    An allowlist expands to what its items stand for, in their order; or it is refused for the first item that
    refers to an input nobody supplied.
   */
  lemma ExpansionIs(items: seq<Value>, inputs: Option<Dict>) returns (parts: seq<seq<Value>>, i: nat)
    ensures Expanded(items, inputs).Ok? <==> forall j :: 0 <= j < |items| ==> !Unsupplied(inputs, items[j])
    ensures Expanded(items, inputs).Ok? ==> AllYield(inputs, items, parts) && Expanded(items, inputs).value == Joined(parts)
    ensures Expanded(items, inputs).Err? ==> FirstUnsupplied(inputs, items, i) && items[i] == Str(Expanded(items, inputs).error)
  {
    parts := [];
    i := ExpansionFails(items, inputs);
    if Expanded(items, inputs).Ok? { parts := ExpansionYields(items, inputs); }
  }

  // ---- destinations -----------------------------------------------------------------------------

  /** Each value as text. */
  predicate AsTexts(t: Texts, vs: seq<Value>, texts: seq<string>)
  {
    |texts| == |vs| && forall i :: 0 <= i < |vs| ==> texts[i] == match vs[i] case Str(s) => s case v => t.show(v)
  }

  /** The argument the tool is held by: the first that drives it, or the recipient. */
  ghost predicate HeldBy(ms: seq<ToolManifest>, tool: string, arg: string)
  {
    if exists i: nat :: LastDriven(ms, tool, i) then exists i: nat :: LastDriven(ms, tool, i) && arg == ms[i].drivingArgs[0]
    else arg == "recipient"
  }

  lemma CheckedArgIsHeld(ms: seq<ToolManifest>, tool: string)
    ensures HeldBy(ms, tool, CheckedArg(DrivingArgs(ms), tool))
  {
    var i := DrivingOfLast(ms, tool);
  }

  /**
    Under an allowlist every sink, and only a sink, is held to the destinations the allowlist expands to, on the
    argument that drives it; without one nothing is held.
   */
  lemma SinksAreHeld(t: Texts, ms: seq<ToolManifest>, policy: Policy, inputs: Option<Dict>, c: Compiled, sink: string)
    returns (parts: seq<seq<Value>>)
    requires Compilation(t, ms, policy, inputs) == Ok(c)
    ensures Lookup(c.policies, sink).Some? <==> policy.allowlist != [] && sink in c.egress
    ensures Lookup(c.policies, sink).Some? ==>
              && AllYield(inputs, policy.allowlist, parts)
              && AsTexts(t, Joined(parts), Lookup(c.policies, sink).value.allowed)
              && HeldBy(ms, sink, Lookup(c.policies, sink).value.arg)
  {
    EverySinkIsHeld(t, ms, policy, inputs, c, sink);
    CheckedArgIsHeld(ms, sink);
    var i;
    parts, i := ExpansionIs(policy.allowlist, inputs);
  }

  /** A compilation is refused exactly when the allowlist refers to an input nobody supplied, and for the first such reference. */
  lemma RefusedIff(t: Texts, ms: seq<ToolManifest>, policy: Policy, inputs: Option<Dict>) returns (i: nat)
    ensures Compilation(t, ms, policy, inputs).Err? <==> exists j :: 0 <= j < |policy.allowlist| && Unsupplied(inputs, policy.allowlist[j])
    ensures Compilation(t, ms, policy, inputs).Err? ==>
              && FirstUnsupplied(inputs, policy.allowlist, i) && policy.allowlist[i] == Str(Compilation(t, ms, policy, inputs).error)
  {
    var parts;
    parts, i := ExpansionIs(policy.allowlist, inputs);
  }

  // ---- the file ---------------------------------------------------------------------------------

  /** The governance file lists tools and policies in order of the tools' names. */
  lemma FileIsInOrder(c: Compiled)
    ensures var g := GovernanceOf(c);
            && (forall i, j :: 0 <= i < j < |g.driving| ==> Before(g.driving[i].tool, g.driving[j].tool))
            && (forall i, j :: 0 <= i < j < |g.policies| ==> Before(g.policies[i].tool, g.policies[j].tool))
  {
    KeysOrder<seq<string>>();
    KeysOrder<Destination>();
    SortSorts<Entry<seq<string>>>(KeyBefore, c.driving);
    SortSorts<Entry<Destination>>(KeyBefore, c.policies);
    var d, p := Sort<Entry<seq<string>>>(KeyBefore, c.driving), Sort<Entry<Destination>>(KeyBefore, c.policies);
    assert forall i, j :: 0 <= i < j < |d| ==> KeyBefore(d[i], d[j]);
    assert forall i, j :: 0 <= i < j < |p| ==> KeyBefore(p[i], p[j]);
  }
}
