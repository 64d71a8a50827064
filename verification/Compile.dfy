/** From tool manifests to governor configuration: the canonical compilation. */
module Compile {
  import opened Basics
  import opened Json
  import opened Sorting
  import opened GovernanceYaml

  /** What compilation reads of a manifest. `rules` are the classes its effect rules resolve to. */
  datatype ToolManifest = ToolManifest(
    id: string,
    defaultClass: string,
    rules: seq<string>,
    untrustedFields: seq<string>,
    sensitiveFields: seq<string>,
    drivingArgs: seq<string>)

  /** A dictionary, in insertion order. */
  datatype Entry<V> = Entry(key: string, value: V)

  datatype Destination = Destination(arg: string, allowed: seq<string>)

  /** `allowlist` as given; an absent policy is an empty one. */
  datatype Policy = Policy(allowlist: seq<Value>, overrides: seq<Entry<string>>)

  /** Python's `str` of what is not a string, and `str.lower`: left open. */
  datatype Texts = Texts(show: Value -> string, lower: string -> string)

  datatype Compiled = Compiled(
    egress: seq<string>,
    untrusted: seq<string>,
    sensitive: seq<string>,
    fields: seq<Entry<seq<string>>>,
    driving: seq<Entry<seq<string>>>,
    policies: seq<Entry<Destination>>,
    overrides: seq<Entry<string>>)

  const DEFAULT_ARG := "recipient"

  // ---- dictionaries -----------------------------------------------------------------------------

  function Lookup<V>(d: seq<Entry<V>>, key: string): Option<V>
  {
    if d == [] then None else if d[0].key == key then Some(d[0].value) else Lookup(d[1..], key)
  }

  /** `d[key] = value`: an entry keeps its place, a new one comes last. */
  function Put<V>(d: seq<Entry<V>>, key: string, value: V): seq<Entry<V>>
  {
    if d == [] then [Entry(key, value)]
    else if d[0].key == key then [Entry(key, value)] + d[1..]
    else [d[0]] + Put(d[1..], key, value)
  }

  // ---- order ------------------------------------------------------------------------------------

  /** Python compares strings by code point. */
  predicate Before(a: string, b: string)
  {
    a == [] || (b != [] && (a[0] < b[0] || (a[0] == b[0] && Before(a[1..], b[1..]))))
  }

  predicate KeyBefore<V>(a: Entry<V>, b: Entry<V>)
  {
    Before(a.key, b.key)
  }

  // ---- allowlists -------------------------------------------------------------------------------

  const INPUT_REF := "$inputs."

  predicate IsReference(item: Value)
  {
    item.Str? && INPUT_REF <= item.s
  }

  predicate Supplied(inputs: Option<Dict>, item: Value)
    requires IsReference(item)
  {
    inputs.Some? && item.s[|INPUT_REF|..] in inputs.value
  }

  /** What an item stands for: itself, or the input it names, a list being spliced in. */
  function Meaning(inputs: Option<Dict>, item: Value): seq<Value>
    requires IsReference(item) ==> Supplied(inputs, item)
  {
    if !IsReference(item) then [item]
    else
      var v := inputs.value[item.s[|INPUT_REF|..]];
      if v.Arr? then v.items else [v]
  }

  /** Err names the first reference nobody supplied. */
  function Expanded(items: seq<Value>, inputs: Option<Dict>): Result<seq<Value>, string>
    decreases |items|
  {
    if items == [] then Ok([])
    else match Expanded(Init(items), inputs)
      case Err(e) => Err(e)
      case Ok(out) =>
        var item := Last(items);
        if IsReference(item) && !Supplied(inputs, item) then Err(item.s) else Ok(out + Meaning(inputs, item))
  }

  method ExpandItems(items: seq<Value>, inputs: Option<Dict>) returns (r: Result<seq<Value>, string>)
    ensures r == Expanded(items, inputs)
  {
    var out := [];
    for i := 0 to |items|
      invariant Expanded(items[..i], inputs) == Ok(out)
    {
      assert Init(items[..i + 1]) == items[..i];
      if !IsReference(items[i]) {
        out := out + [items[i]];
      } else if !Supplied(inputs, items[i]) {
        RefusedStays(items, inputs, i + 1);
        return Err(items[i].s);
      } else {
        var v := inputs.value[items[i].s[|INPUT_REF|..]];
        out := out + if v.Arr? then v.items else [v];
      }
    }
    assert items[..|items|] == items;
    r := Ok(out);
  }

  lemma {:induction false} RefusedStays(items: seq<Value>, inputs: Option<Dict>, i: nat)
    requires i <= |items| && Expanded(items[..i], inputs).Err?
    ensures Expanded(items, inputs) == Expanded(items[..i], inputs)
    decreases |items|
  {
    if i == |items| {
      assert items[..i] == items;
    } else {
      assert Init(items)[..i] == items[..i];
      RefusedStays(Init(items), inputs, i);
    }
  }

  // ---- the compilation --------------------------------------------------------------------------

  predicate IsEgressClass(c: string)
  {
    c == "EXPORT" || c == "EXEC"
  }

  predicate IsEgress(m: ToolManifest)
  {
    IsEgressClass(m.defaultClass) || exists i :: 0 <= i < |m.rules| && IsEgressClass(m.rules[i])
  }

  predicate IsUntrusted(m: ToolManifest)
  {
    m.untrustedFields != []
  }

  predicate IsSensitive(m: ToolManifest)
  {
    m.sensitiveFields != []
  }

  predicate Drives(m: ToolManifest)
  {
    m.drivingArgs != []
  }

  function IdOf(m: ToolManifest): string
  {
    m.id
  }

  function Chosen(keep: ToolManifest -> bool, ms: seq<ToolManifest>): seq<string>
  {
    Map(IdOf, Filter(keep, ms))
  }

  function Fields(ms: seq<ToolManifest>): seq<Entry<seq<string>>>
  {
    if ms == [] then []
    else if IsUntrusted(Last(ms)) then Put(Fields(Init(ms)), Last(ms).id, Sort(Before, Last(ms).untrustedFields))
    else Fields(Init(ms))
  }

  function DrivingArgs(ms: seq<ToolManifest>): seq<Entry<seq<string>>>
  {
    if ms == [] then []
    else if Drives(Last(ms)) then Put(DrivingArgs(Init(ms)), Last(ms).id, Last(ms).drivingArgs)
    else DrivingArgs(Init(ms))
  }

  /** The argument an allowlist is checked on. */
  function CheckedArg(driving: seq<Entry<seq<string>>>, sink: string): string
  {
    match Lookup(driving, sink)
    case Some(args) => if args != [] then args[0] else DEFAULT_ARG
    case None => DEFAULT_ARG
  }

  function Destinations(egress: seq<string>, driving: seq<Entry<seq<string>>>, allowed: seq<string>): seq<Entry<Destination>>
    decreases |egress|
  {
    if egress == [] then []
    else Put(Destinations(Init(egress), driving, allowed), Last(egress), Destination(CheckedArg(driving, Last(egress)), allowed))
  }

  function Text(t: Texts, v: Value): string
  {
    if v.Str? then v.s else t.show(v)
  }

  function Shown(t: Texts, vs: seq<Value>): (r: seq<string>)
    ensures |r| == |vs| && forall i :: 0 <= i < |vs| ==> r[i] == Text(t, vs[i])
  {
    seq(|vs|, i requires 0 <= i < |vs| => Text(t, vs[i]))
  }

  function Lowered(t: Texts, overrides: seq<Entry<string>>): seq<Entry<string>>
  {
    if overrides == [] then []
    else Put(Lowered(t, Init(overrides)), t.lower(Last(overrides).key), Last(overrides).value)
  }

  function PoliciesFor(t: Texts, egress: seq<string>, driving: seq<Entry<seq<string>>>, allowlist: seq<Value>, inputs: Option<Dict>)
    : Result<seq<Entry<Destination>>, string>
  {
    if allowlist == [] then Ok([])
    else match Expanded(allowlist, inputs)
      case Err(e) => Err(e)
      case Ok(out) => Ok(Destinations(egress, driving, Shown(t, out)))
  }

  /** Err names the first unresolved reference of the allowlist. */
  function Compilation(t: Texts, ms: seq<ToolManifest>, policy: Policy, inputs: Option<Dict>): Result<Compiled, string>
  {
    var egress := Sort(Before, Chosen(IsEgress, ms));
    var driving := DrivingArgs(ms);
    match PoliciesFor(t, egress, driving, policy.allowlist, inputs)
    case Err(e) => Err(e)
    case Ok(policies) =>
      Ok(Compiled(egress, Sort(Before, Chosen(IsUntrusted, ms)), Sort(Before, Chosen(IsSensitive, ms)), Fields(ms), driving,
                  policies, Sort(KeyBefore, Lowered(t, policy.overrides))))
  }

  lemma ChosenNext(keep: ToolManifest -> bool, ms: seq<ToolManifest>, m: ToolManifest)
    ensures Chosen(keep, ms + [m]) == Chosen(keep, ms) + if keep(m) then [m.id] else []
  {
    FilterAppend(keep, ms, [m]);
    assert Filter(keep, [m]) == if keep(m) then [m] else [];
  }

  method AnyEgress(rules: seq<string>) returns (found: bool)
    ensures found <==> exists i :: 0 <= i < |rules| && IsEgressClass(rules[i])
  {
    found := false;
    for i := 0 to |rules|
      invariant found <==> exists j :: 0 <= j < i && IsEgressClass(rules[j])
    {
      found := found || IsEgressClass(rules[i]);
    }
  }

  method PutDestinations(egress: seq<string>, driving: seq<Entry<seq<string>>>, allowed: seq<string>)
    returns (policies: seq<Entry<Destination>>)
    ensures policies == Destinations(egress, driving, allowed)
  {
    policies := [];
    for i := 0 to |egress|
      invariant policies == Destinations(egress[..i], driving, allowed)
    {
      assert Init(egress[..i + 1]) == egress[..i];
      policies := Put(policies, egress[i], Destination(CheckedArg(driving, egress[i]), allowed));
    }
    assert egress[..|egress|] == egress;
  }

  /** `compile_manifests`. */
  method CompileManifests(t: Texts, ms: seq<ToolManifest>, policy: Policy, inputs: Option<Dict>) returns (r: Result<Compiled, string>)
    ensures r == Compilation(t, ms, policy, inputs)
  {
    var egress, untrusted, sensitive: seq<string> := [], [], [];
    var fields: seq<Entry<seq<string>>>, driving: seq<Entry<seq<string>>> := [], [];
    for i := 0 to |ms|
      invariant egress == Chosen(IsEgress, ms[..i])
      invariant untrusted == Chosen(IsUntrusted, ms[..i]) && sensitive == Chosen(IsSensitive, ms[..i])
      invariant fields == Fields(ms[..i]) && driving == DrivingArgs(ms[..i])
    {
      var m := ms[i];
      assert ms[..i + 1] == ms[..i] + [m] && Init(ms[..i + 1]) == ms[..i];
      ChosenNext(IsEgress, ms[..i], m);
      ChosenNext(IsUntrusted, ms[..i], m);
      ChosenNext(IsSensitive, ms[..i], m);
      var resolves := AnyEgress(m.rules);
      if IsEgressClass(m.defaultClass) || resolves {
        egress := egress + [m.id];
      }
      if m.untrustedFields != [] {
        untrusted := untrusted + [m.id];
        fields := Put(fields, m.id, Sort(Before, m.untrustedFields));
      }
      if m.sensitiveFields != [] {
        sensitive := sensitive + [m.id];
      }
      if m.drivingArgs != [] {
        driving := Put(driving, m.id, m.drivingArgs);
      }
    }
    assert ms[..|ms|] == ms;
    egress, untrusted, sensitive := Sort(Before, egress), Sort(Before, untrusted), Sort(Before, sensitive);
    var policies: seq<Entry<Destination>> := [];
    if policy.allowlist != [] {
      var resolved := ExpandItems(policy.allowlist, inputs);
      if resolved.Err? {
        return Err(resolved.error);
      }
      policies := PutDestinations(egress, driving, Shown(t, resolved.value));
    }
    r := Ok(Compiled(egress, untrusted, sensitive, fields, driving, policies, Sort(KeyBefore, Lowered(t, policy.overrides))));
  }

  // ---- the governance file ----------------------------------------------------------------------

  function ToolArgsOf(d: seq<Entry<seq<string>>>): (r: seq<ToolArgs>)
    ensures |r| == |d| && forall i :: 0 <= i < |d| ==> r[i] == ToolArgs(d[i].key, d[i].value)
  {
    seq(|d|, i requires 0 <= i < |d| => ToolArgs(d[i].key, d[i].value))
  }

  function EnumPoliciesOf(d: seq<Entry<Destination>>): (r: seq<EnumPolicy>)
    ensures |r| == |d| && forall i :: 0 <= i < |d| ==> r[i] == EnumPolicy(d[i].key, d[i].value.arg, d[i].value.allowed)
  {
    seq(|d|, i requires 0 <= i < |d| => EnumPolicy(d[i].key, d[i].value.arg, d[i].value.allowed))
  }

  /** What the governance file prints of a compilation: tools and policies sorted by tool. */
  function GovernanceOf(c: Compiled): Governance
  {
    Governance(c.untrusted, c.sensitive, c.egress, ToolArgsOf(Sort(KeyBefore, c.driving)), EnumPoliciesOf(Sort(KeyBefore, c.policies)))
  }

  /** `governance_yaml`: compiled without inputs, so an allowlist with references is refused. */
  method WriteGovernance(t: Texts, comments: seq<Line>, ms: seq<ToolManifest>, policy: Policy) returns (r: Result<string, string>)
    ensures var c := Compilation(t, ms, policy, None);
            r == if c.Err? then Err(c.error) else Ok(Yaml(comments, GovernanceOf(c.value)))
  {
    var c := CompileManifests(t, ms, policy, None);
    if c.Err? {
      return Err(c.error);
    }
    var text := PrintYaml(comments, GovernanceOf(c.value));
    r := Ok(text);
  }
}
