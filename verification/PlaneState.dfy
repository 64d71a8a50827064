/** The adapter-local plane state of one node, and what each session operation does to it. */
module PlaneState {
  import opened Basics
  import opened Json
  import Sorting

  type Bytes = seq<bv8>

  /** What an operator signs: the command is bound to its node, its version and its time. */
  datatype Message = Message(nodeId: string, version: int, body: Dict, timestamp: Value)

  datatype SigCheck = Good | Bad | Unreadable

  datatype Injection = Injection(id: string, text: string, reason: string, operator: string, sig: string)
  datatype Excision = Excision(id: string, refs: seq<string>, reason: string, operator: string, sig: string)
  datatype Replan = Replan(id: string, reason: string, operator: string)

  /** The node's local configuration. */
  datatype Config = Config(
    nodeId: string,
    operatorKeys: map<string, string>,
    testBench: bool,
    localCap: Option<int>)

  /** `int(v)`: a number, or an exception; of an infinite float it is an OverflowError, unlike all others. */
  datatype Integer = Whole(n: int) | NoInteger | Overflow

  /** Code the session calls but does not own. Every theorem holds for every choice of these. */
  datatype Platform = Platform(
    otherInt: Value -> Option<int>,               // int(v) of other values; None when it raises
    otherDict: Value -> Option<Dict>,             // dict(v) where v is no object; None when it raises
    repr: Value -> string,                        // str(v) where v is no string
    otherRefs: Value -> Option<seq<string>>,      // tuple(v); None when it raises
    canonical: Message -> Option<Bytes>,          // canonical bytes; None when a value has none
    check: (string, Bytes, Value) -> SigCheck,    // public key, message, signature
    refusedRefs: (Excision, map<string, string>) -> seq<string>)  // the kernel's provenance guard

  datatype Host = Host(config: Config, py: Platform)

  function IntOf(h: Host, v: Value): Integer
  {
    match v
    case Int(n) => Whole(n)
    case Bool(b) => Whole(if b then 1 else 0)
    case Infinity(_) => Overflow
    case _ => if h.py.otherInt(v).Some? then Whole(h.py.otherInt(v).value) else NoInteger
  }

  /** None when `int(v)` raises. */
  function ToInt(h: Host, v: Value): Option<int>
  {
    match IntOf(h, v)
    case Whole(n) => Some(n)
    case _ => None
  }

  function DictOf(h: Host, v: Value): Option<Dict>
  {
    if v.Obj? then Some(ToDict(v.fields)) else h.py.otherDict(v)
  }

  function Text(h: Host, v: Value): string
  {
    if v.Str? then v.s else h.py.repr(v)
  }

  /** The part of the state that commands steer. */
  datatype Control = Control(
    paused: bool,
    stopped: bool,
    cap: Option<int>,
    injection: Option<Injection>,
    excision: Option<Excision>,
    replan: Option<Replan>)

  datatype Refusal =
    | Malformed
    | BadOperator(operator: Value)
    | UnsignedKey(key: string)
    | NotWhatWasSigned(key: string)

  /** What applying one downstream message did. `Raised` is an exception leaving the session. */
  datatype AppliedEffect =
    | Applied
    | NoopAbsorbed
    | NoopStale(version: int)
    | RejectedWidening(requested: int, current: int)
    | SigInvalid(why: Refusal)
    | Raised

  /** One entry of the outbox. */
  datatype Ack =
    | StateApplied(version: int, effect: AppliedEffect)
    | InjectionRefused(id: string, because: string)
    | InjectionConsumed(id: string)
    | ExcisionRefused(id: string, refs: seq<string>)
    | ContextExcision(id: string, refs: seq<string>, provenance: map<string, string>, operator: string, reason: string)
    | ReplanRefused(id: string)
    | ReplanApplied(id: string)

  datatype Node = Node(version: int, ctl: Control, consumed: set<string>, outbox: seq<Ack>)

  function Fresh(h: Host): Node
  {
    Node(0, Control(false, false, h.config.localCap, None, None, None), {}, [])
  }

  // ---- the effects of one accepted command ----------------------------------------------------

  function Flags(c: Control, d: Dict): Control
  {
    c.(stopped := if "stopped" in d then Truthy(d["stopped"]) else c.stopped,
       paused := if "paused" in d then Truthy(d["paused"]) else c.paused)
  }

  predicate AsksForCap(d: Dict)
  {
    "budget_cap_calls" in d && d["budget_cap_calls"] != Null
  }

  function FieldText(h: Host, fields: seq<Field>, key: string): string
  {
    match Get(fields, key)
    case None => ""
    case Some(v) => Text(h, v)
  }

  /** `str(x.get("id", x.get(other, "")))` */
  function IdText(h: Host, fields: seq<Field>, other: string): string
  {
    if Get(fields, "id").Some? then FieldText(h, fields, "id") else FieldText(h, fields, other)
  }

  function ReadReplan(h: Host, v: Value): Replan
  {
    if v.Obj?
    then Replan(FieldText(h, v.fields, "id"), FieldText(h, v.fields, "reason"), FieldText(h, v.fields, "operator"))
    else Replan("", "", "")
  }

  /** None when the value is no object: asking it for a key raises. */
  function ReadInjection(h: Host, v: Value): Option<Injection>
  {
    if !v.Obj? then None
    else Some(Injection(IdText(h, v.fields, "injection_id"), FieldText(h, v.fields, "text"),
                        FieldText(h, v.fields, "reason"), FieldText(h, v.fields, "operator"),
                        FieldText(h, v.fields, "sig")))
  }

  function ReadRefs(h: Host, fields: seq<Field>): Option<seq<string>>
  {
    match Get(fields, "target_refs")
    case None => Some([])
    case Some(v) => h.py.otherRefs(v)
  }

  /** None when the value is no object, or its targets are nothing to iterate over. */
  function ReadExcision(h: Host, v: Value): Option<Excision>
  {
    if !v.Obj? || ReadRefs(h, v.fields).None? then None
    else Some(Excision(IdText(h, v.fields, "excision_id"), ReadRefs(h, v.fields).value,
                       FieldText(h, v.fields, "reason"), FieldText(h, v.fields, "operator"),
                       FieldText(h, v.fields, "sig")))
  }

  /** The one-shots touch neither the flags nor the cap. */
  function OneShots(h: Host, c: Control, d: Dict): (r: (Control, AppliedEffect))
    ensures r.0.stopped == c.stopped && r.0.paused == c.paused && r.0.cap == c.cap
    ensures r.1 == Applied || r.1 == Raised
  {
    var c1 := if TruthyAt(d, "replan") then c.(replan := Some(ReadReplan(h, d["replan"]))) else c;
    if TruthyAt(d, "pending_injection") && ReadInjection(h, d["pending_injection"]).None? then (c1, Raised) else
    var c2 := if TruthyAt(d, "pending_injection") then c1.(injection := ReadInjection(h, d["pending_injection"])) else c1;
    if TruthyAt(d, "pending_excision") && ReadExcision(h, d["pending_excision"]).None? then (c2, Raised) else
    var c3 := if TruthyAt(d, "pending_excision") then c2.(excision := ReadExcision(h, d["pending_excision"])) else c2;
    (c3, Applied)
  }

  /** A command's writes, in the order the adapter makes them: a refusal or an exception keeps the earlier ones. */
  function Effects(h: Host, c: Control, d: Dict): (Control, AppliedEffect)
  {
    var c1 := Flags(c, d);
    if !AsksForCap(d) then OneShots(h, c1, d)
    else match ToInt(h, d["budget_cap_calls"])
      case None => (c1, Raised)
      case Some(requested) =>
        if c.cap.Some? && requested > c.cap.value then (c1, RejectedWidening(requested, c.cap.value))
        else OneShots(h, c1.(cap := Some(requested)), d)
  }

  function Reported(n: Node, effect: AppliedEffect, version: int): Node
  {
    if effect == Applied then n else n.(outbox := n.outbox + [StateApplied(version, effect)])
  }

  function Apply(h: Host, n: Node, version: int, d: Dict): (Node, AppliedEffect)
  {
    if version <= n.version then (n, NoopStale(version))
    else if n.ctl.stopped then (Reported(n.(version := version), NoopAbsorbed, version), NoopAbsorbed)
    else
      var (c, effect) := Effects(h, n.ctl, d);
      var n1 := n.(version := version, ctl := c);
      (if effect == Raised then n1 else Reported(n1, effect, version), effect)
  }

  // ---- signatures -----------------------------------------------------------------------------

  datatype Verdict = Trusted | Refused(why: Refusal) | Fails

  function Verify(h: Host, version: int, d: Dict, operator: Value, timestamp: Value, sig: Value): Verdict
  {
    if h.config.operatorKeys == map[] then Trusted
    else if operator.Arr? || operator.Obj? then Fails
    else
      match h.py.canonical(Message(h.config.nodeId, version, d, timestamp))
      case None => Fails
      case Some(bytes) =>
        if !operator.Str? || operator.s !in h.config.operatorKeys then Refused(BadOperator(operator))
        else match h.py.check(h.config.operatorKeys[operator.s], bytes, sig)
          case Good => Trusted
          case Bad => Refused(BadOperator(operator))
          case Unreadable => Fails
  }

  /** A delta, once its signature has been judged. */
  function DeltaBy(h: Host, n: Node, version: int, d: Dict, verdict: Verdict): (Node, AppliedEffect)
  {
    match verdict
    case Trusted => Apply(h, n, version, d)
    case Refused(why) => (Reported(n, SigInvalid(why), version), SigInvalid(why))
    case Fails => (n, Raised)
  }

  function DeltaStep(h: Host, n: Node, version: int, d: Dict, operator: Value, timestamp: Value, sig: Value):
    (Node, AppliedEffect)
  {
    DeltaBy(h, n, version, d, Verify(h, version, d, operator, timestamp, sig))
  }

  // ---- snapshots ------------------------------------------------------------------------------

  /** A snapshot's signed command, once its shape has been checked. */
  datatype Command = Command(version: int, delta: Dict, operator: string, timestamp: string, sig: string)

  function ParseCommand(h: Host, raw: Value): Option<Command>
  {
    if !raw.Obj? then None
    else
      match (Get(raw.fields, "version"), Get(raw.fields, "delta"), Get(raw.fields, "operator"),
             Get(raw.fields, "timestamp"), Get(raw.fields, "sig"))
      case (Some(version), Some(delta), Some(Str(operator)), Some(Str(timestamp)), Some(Str(sig))) =>
        if ToInt(h, version).None? || DictOf(h, delta).None? then None
        else Some(Command(ToInt(h, version).value, DictOf(h, delta).value, operator, timestamp, sig))
      case _ => None
  }

  function VerifyCommand(h: Host, c: Command): Verdict
  {
    Verify(h, c.version, c.delta, Str(c.operator), Str(c.timestamp), Str(c.sig))
  }

  function DeltaOf(h: Host, n: Node, c: Command): (Node, AppliedEffect)
  {
    DeltaStep(h, n, c.version, c.delta, Str(c.operator), Str(c.timestamp), Str(c.sig))
  }

  /** The version is an infinite float: the exception is none of those that count as malformed. */
  predicate Overflows(h: Host, raw: Value)
  {
    raw.Obj? && Get(raw.fields, "version").Some? && IntOf(h, Get(raw.fields, "version").value) == Overflow
  }

  function VerifyRaw(h: Host, raw: Value): Verdict
  {
    match ParseCommand(h, raw)
    case None => if Overflows(h, raw) then Fails else Refused(Malformed)
    case Some(c) => VerifyCommand(h, c)
  }

  /** The first entry that is not a verified command decides. */
  function VerifyAll(h: Host, raws: seq<Value>): Verdict
  {
    if raws == [] then Trusted
    else if VerifyRaw(h, raws[0]) != Trusted then VerifyRaw(h, raws[0])
    else VerifyAll(h, raws[1..])
  }

  function ParsedCommand(h: Host): Value -> Command
  {
    raw => if ParseCommand(h, raw).Some? then ParseCommand(h, raw).value else Command(0, map[], "", "", "")
  }

  function Commands(h: Host, raws: seq<Value>): seq<Command>
  {
    Map(ParsedCommand(h), raws)
  }

  predicate ByVersion(a: Command, b: Command)
  {
    a.version <= b.version
  }

  function InOrder(cs: seq<Command>): seq<Command>
  {
    Sorting.Sort(ByVersion, cs)
  }

  /** The last value signed for each key. */
  function SignedValues(cs: seq<Command>): Dict
  {
    if cs == [] then map[] else SignedValues(Init(cs)) + Last(cs).delta
  }

  /** The first key of the state that no command accounts for. */
  function Unaccounted(state: seq<Field>, signed: Dict): Option<Refusal>
  {
    if state == [] then None
    else if state[0].key !in signed then Some(UnsignedKey(state[0].key))
    else if !PyEq(signed[state[0].key], state[0].value) then Some(NotWhatWasSigned(state[0].key))
    else Unaccounted(state[1..], signed)
  }

  /** Commands applied one after the other, until one of them raises; `last` is the result so far. */
  function Replay(h: Host, n: Node, cs: seq<Command>, last: AppliedEffect): (Node, AppliedEffect)
    decreases |cs|
  {
    if cs == [] then (n, last)
    else if cs[0].version <= n.version then Replay(h, n, cs[1..], last)
    else
      var (n1, effect) := Apply(h, n, cs[0].version, cs[0].delta);
      if effect == Raised then (n1, Raised) else Replay(h, n1, cs[1..], effect)
  }

  function Max(a: int, b: int): int { if a < b then b else a }

  function RaisedTo(n: Node, version: int): Node
  {
    n.(version := Max(n.version, version))
  }

  function SnapshotStep(h: Host, n: Node, version: int, state: seq<Field>, raws: seq<Value>): (Node, AppliedEffect)
  {
    if h.config.operatorKeys == map[] then Apply(h, n, version, ToDict(state))
    else match VerifyAll(h, raws)
      case Fails => (n, Raised)
      case Refused(why) => (Reported(n, SigInvalid(why), version), SigInvalid(why))
      case Trusted =>
        var cs := InOrder(Commands(h, raws));
        match Unaccounted(state, SignedValues(cs))
        case Some(why) => (Reported(n, SigInvalid(why), version), SigInvalid(why))
        case None =>
          var (n1, effect) := Replay(h, n, cs, Applied);
          (if effect == Raised then n1 else RaisedTo(n1, version), effect)
  }

  // ---- the intent boundary --------------------------------------------------------------------

  predicate AdmitIntent(n: Node)
  {
    !(n.ctl.paused || n.ctl.stopped)
  }

  function TakeInjection(h: Host, n: Node): (Node, Option<Injection>)
  {
    match n.ctl.injection
    case None => (n, None)
    case Some(inj) =>
      var n1 := n.(ctl := n.ctl.(injection := None));
      if inj.id in n.consumed then (n1, None)
      else if n.ctl.stopped then (n1.(outbox := n.outbox + [InjectionRefused(inj.id, "stopped")]), None)
      else if !h.config.testBench then (n1.(outbox := n.outbox + [InjectionRefused(inj.id, "not test-bench")]), None)
      else (n1.(consumed := n.consumed + {inj.id}, outbox := n.outbox + [InjectionConsumed(inj.id)]), Some(inj))
  }

  /** `{r: provenance.get(r, "runtime") for r in refs}` */
  function ProvenanceOf(refs: seq<string>, provenance: map<string, string>): map<string, string>
  {
    if refs == [] then map[]
    else
      var r := Last(refs);
      ProvenanceOf(Init(refs), provenance)[r := if r in provenance then provenance[r] else "runtime"]
  }

  function TakeExcision(h: Host, n: Node, provenance: map<string, string>): (Node, Option<Excision>)
  {
    match n.ctl.excision
    case None => (n, None)
    case Some(exc) =>
      var n1 := n.(ctl := n.ctl.(excision := None));
      var refused := h.py.refusedRefs(exc, provenance);
      if exc.id in n.consumed then (n1, None)
      else if refused != [] then (n1.(outbox := n.outbox + [ExcisionRefused(exc.id, refused)]), None)
      else
        var ack := ContextExcision(exc.id, exc.refs, ProvenanceOf(exc.refs, provenance), exc.operator, exc.reason);
        (n1.(consumed := n.consumed + {exc.id}, outbox := n.outbox + [ack]), Some(exc))
  }

  function TakeReplan(n: Node): (Node, Option<Replan>)
  {
    match n.ctl.replan
    case None => (n, None)
    case Some(rp) =>
      var n1 := n.(ctl := n.ctl.(replan := None));
      if rp.id != "" && rp.id in n.consumed then (n1, None)
      else if n.ctl.stopped then (n1.(outbox := n.outbox + [ReplanRefused(rp.id)]), None)
      else
        (n1.(consumed := if rp.id != "" then n.consumed + {rp.id} else n.consumed,
             outbox := n.outbox + [ReplanApplied(rp.id)]), Some(rp))
  }
}
