/** A `trace/v1` document: the wrapper's values joined to the kernel's verdicts. */
module Trace {
  import opened Basics
  import opened Json
  import opened Decimals
  import opened KernelEvents
  import opened Toolset
  import opened Fields
  import opened Pairing
  import opened ValueLedger

  datatype Manifest = Manifest(id: string, untrustedFields: seq<string>, sensitiveFields: seq<string>)

  datatype Unresolved = NoDrivingArgs | UnresolvedArgument(arg: string)

  datatype GateDecision = GateDecision(
    denied: bool,
    gate: string,
    driving: Option<string>,
    enforced: bool,
    reason: string,
    projected: bool,
    unresolved: Option<Unresolved>)

  datatype Item =
    | Intent(seqNo: nat, tool: string, callId: string, bindings: map<string, string>)
    | Gate(seqNo: nat, callId: string, decision: GateDecision)
    | ResultOf(seqNo: nat, tool: string, produced: seq<string>)

  const GATE_ON_ALLOW := "taint_floor"

  /** A field found in a result at a concrete path. */
  datatype Read = Read(path: string, value: Value, sensitive: bool)

  /**
    What the builder is given beside the pairs: `gateOf` is the kernel's gate table, and `offers` says which
    fields of a tool's result are untrusted; the manifests declare it (see `Declared`).
   */
  datatype Setting = Setting(views: Views, gateOf: string -> string, offers: (string, Value) -> seq<Read>, enforced: bool)

  datatype BuildError = NotPaired(why: PairingError) | MissingCategory

  datatype Built = Built(ledger: Ledger, items: seq<Item>)

  function CallId(c: nat): string
  {
    "call_root_" + Decimal(c)
  }

  /** `{m.id: m}[tool]`; a repeated id keeps its last manifest, an unknown one has no fields. */
  function ManifestOf(ms: seq<Manifest>, tool: string): Manifest
  {
    if ms == [] then Manifest(tool, [], [])
    else if Last(ms).id == tool then Last(ms)
    else ManifestOf(Init(ms), tool)
  }

  function ProvenanceOf(p: Payload, name: string): ArgProvenance
  {
    if name in p.provenance then p.provenance[name] else ArgProvenance([], false)
  }

  function ArgumentAt(tool: string, arg: Field, p: Payload): Wanted
  {
    Argument(tool, arg.key, arg.value, ProvenanceOf(p, arg.key))
  }

  /** The arguments to mint for a call the wrapper saw. */
  function Arguments(tool: string, args: seq<Field>, p: Payload): (ws: seq<Wanted>)
    ensures |ws| == |args|
    ensures forall i {:trigger ws[i]} :: 0 <= i < |args| ==> ws[i] == ArgumentAt(tool, args[i], p)
  {
    seq(|args|, i requires 0 <= i < |args| => ArgumentAt(tool, args[i], p))
  }

  /** The ids of the arguments by name. */
  function Bindings(args: seq<Field>, ids: seq<string>): map<string, string>
    requires |ids| == |args|
  {
    if args == [] then map[] else Bindings(Init(args), Init(ids))[Last(args).key := Last(ids)]
  }

  predicate IsSensitive(m: Manifest, pattern: string)
  {
    exists i :: 0 <= i < |m.sensitiveFields| && Normalize(m.sensitiveFields[i]) == Normalize(pattern)
  }

  function FieldReads(ms: seq<Match>, sensitive: bool): (rs: seq<Read>)
    ensures |rs| == |ms|
    ensures forall i {:trigger rs[i]} :: 0 <= i < |ms| ==> rs[i] == Read(Render(ms[i].steps), ms[i].value, sensitive)
  {
    seq(|ms|, i requires 0 <= i < |ms| => Read(Render(ms[i].steps), ms[i].value, sensitive))
  }

  function PatternReads(m: Manifest, pattern: string, result: Value): seq<Read>
  {
    FieldReads(Expand(result, StripResult(pattern)), IsSensitive(m, pattern))
  }

  /** The fields a manifest declares untrusted, as they are present in a result. */
  function UntrustedReads(m: Manifest, patterns: seq<string>, result: Value): seq<Read>
    decreases |patterns|
  {
    if patterns == [] then [] else UntrustedReads(m, Init(patterns), result) + PatternReads(m, Last(patterns), result)
  }

  function Declared(manifests: seq<Manifest>): (string, Value) -> seq<Read>
  {
    (tool, result) => UntrustedReads(ManifestOf(manifests, tool), ManifestOf(manifests, tool).untrustedFields, result)
  }

  function Wants(tool: string, rs: seq<Read>): (ws: seq<Wanted>)
    ensures |ws| == |rs|
    ensures forall i {:trigger ws[i]} :: 0 <= i < |rs| ==> ws[i] == FromResult(tool, rs[i].path, rs[i].value, rs[i].sensitive)
  {
    seq(|rs|, i requires 0 <= i < |rs| => FromResult(tool, rs[i].path, rs[i].value, rs[i].sensitive))
  }

  /** None when a denial carries no category: looking it up raises. */
  function DecisionOf(s: Setting, e: TraceEvent, bindings: map<string, string>): Option<GateDecision>
  {
    var denied := IsDenial(e);
    var driving := e.payload.drivingArgs;
    var value := if driving != [] && driving[0] in bindings then Some(bindings[driving[0]]) else None;
    if denied && e.payload.category.None? then None
    else Some(GateDecision(denied, if denied then s.gateOf(e.payload.category.value) else GATE_ON_ALLOW,
                           value, s.enforced, e.reason, denied,
                           if value.Some? then None
                           else if driving == [] then Some(NoDrivingArgs) else Some(UnresolvedArgument(driving[0]))))
  }

  predicate Executed(p: Pair)
  {
    p.call.Some? && p.call.value.executed
  }

  function ToolOf(p: Pair): string
  {
    if p.call.Some? then p.call.value.tool else p.event.payload.tool
  }

  function ArgsOf(p: Pair): seq<Field>
  {
    if p.call.Some? then p.call.value.args else []
  }

  function ArgumentsOf(p: Pair): seq<Wanted>
  {
    Arguments(ToolOf(p), ArgsOf(p), p.event.payload)
  }

  /** What a call's result has to offer: nothing unless the tool ran. */
  function ReadsOf(s: Setting, p: Pair): seq<Wanted>
  {
    if Executed(p) then Wants(ToolOf(p), s.offers(ToolOf(p), p.call.value.result)) else []
  }

  /** The items of one call, numbered from `n`. */
  function ItemsOf(p: Pair, c: nat, n: nat, bindings: map<string, string>, d: GateDecision, produced: seq<string>): seq<Item>
  {
    [Intent(n, ToolOf(p), CallId(c), bindings), Gate(n + 1, CallId(c), d)]
    + if Executed(p) then [ResultOf(n + 2, ToolOf(p), produced)] else []
  }

  /** The ids minted since the ledger held `n` values. */
  function Since(l: Ledger, n: nat): (ids: seq<string>)
    requires n <= |l.values|
    ensures |ids| == |l.values| - n && forall i {:trigger ids[i]} :: 0 <= i < |ids| ==> ids[i] == l.values[n + i].id
  {
    seq(|l.values| - n, i requires 0 <= i < |l.values| - n => l.values[n + i].id)
  }

  function BindingsOf(x: Views, l: Ledger, p: Pair): map<string, string>
  {
    Bindings(ArgsOf(p), Since(MintAll(x, l, ArgumentsOf(p)), |l.values|))
  }

  function WithArguments(s: Setting, b: Built, p: Pair): (l: Ledger)
    ensures |l.values| == |b.ledger.values| + |ArgsOf(p)| && b.ledger.values <= l.values
  {
    MintAll(s.views, b.ledger, ArgumentsOf(p))
  }

  function BuildCall(s: Setting, b: Built, c: nat, p: Pair): Option<Built>
  {
    var l1 := WithArguments(s, b, p);
    var l2 := MintAll(s.views, l1, ReadsOf(s, p));
    var bindings := BindingsOf(s.views, b.ledger, p);
    match DecisionOf(s, p.event, bindings)
    case None => None
    case Some(d) => Some(Built(l2, b.items + ItemsOf(p, c, |b.items|, bindings, d, Since(l2, |l1.values|))))
  }

  function Build(s: Setting, pairs: seq<Pair>): Option<Built>
    decreases |pairs|
  {
    if pairs == [] then Some(Built(EMPTY, []))
    else match Build(s, Init(pairs))
      case None => None
      case Some(b) => BuildCall(s, b, |pairs| - 1, Last(pairs))
  }

  function BuildTrace(s: Setting, calls: seq<RecordedCall>, events: seq<TraceEvent>, observes: Observes): Result<Built, BuildError>
  {
    match Paired(calls, VerdictEvents(events), observes)
    case Err(why) => Err(NotPaired(why))
    case Ok(pairs) => if Build(s, pairs).None? then Err(MissingCategory) else Ok(Build(s, pairs).value)
  }
}
