/** The plane's reading of the kernel's trace, and its agreement with the trace document. */
module Bridge {
  import opened Basics
  import opened Json
  import opened Decimals
  import opened KernelEvents
  import opened Toolset
  import opened Pairing
  import opened ValueLedger
  import opened Trace
  import TraceProofs

  datatype KernelKind =
    | ToolCall | Refusal | Fact | ToolResult | GateEval | NodeSpawned | MessageReceived | OperatorIntervention

  datatype KernelVerdict = Pass | Deny

  datatype FactKind = DegradationFact | QuarantineFact | StaleFact

  datatype Cargo =
    | Whole(payload: Payload)
    | WithReason(payload: Payload, reason: string)
    | WithIntent(payload: Payload, reason: string, category: string, intentKind: string)
    | FactOf(id: string, what: FactKind, severity: nat, because: Value, levels: Option<(string, string)>, child: Value)
    | Anomaly(tool: string, score: Value, reasons: seq<string>)
    | Spawn(child: Value, parent: string, depth: Value)
    | Message(from: Value, id: string, valueRef: Value, carried: Value)
    | Intervention(reason: string, detail: string)

  /** `causalRoot` is Null when there is none; the stamp `ts` tells the sequence number once more. */
  datatype KernelEvent = KernelEvent(
    seqNo: nat,
    ts: string,
    nodeId: string,
    kind: KernelKind,
    causalRoot: Value,
    gate: Option<string>,
    verdict: Option<KernelVerdict>,
    cargo: Cargo)

  /** The kernel's gate table, and the guess at a category for a denial that carries none. */
  datatype Names = Names(gates: map<string, string>, guess: string -> string)

  const TOOL_CALL := "tool_call"

  // ---- categories -------------------------------------------------------------------------------

  function Lower(s: string): (r: string)
    ensures |r| == |s|
  {
    seq(|s|, i requires 0 <= i < |s| => if 'A' <= s[i] <= 'Z' then s[i] + 32 as char else s[i])
  }

  predicate Contains(s: string, needle: string)
  {
    needle <= s || (s != [] && Contains(s[1..], needle))
  }

  /** The category of the first needle found. */
  function FirstNeedle(table: seq<(string, string)>, lowered: string): string
  {
    if table == [] then "denial"
    else if Contains(lowered, table[0].0) then table[0].1
    else FirstNeedle(table[1..], lowered)
  }

  function CategoryOf(reason: string): string
  {
    FirstNeedle(
      [("taint", "taint_enforcement"), ("carrier", "carrier_gate"), ("consequence", "consequence_gate"),
       ("ssrf", "ssrf_gate"), ("value policy", "value_policy"), ("capability", "capability"), ("budget", "budget"),
       ("degradation", "degradation"), ("unclassified", "unclassified_tool"), ("positional", "positional_gate")],
      Lower(reason))
  }

  function KernelNames(gates: map<string, string>): Names
  {
    Names(gates, CategoryOf)
  }

  function CategoryFor(n: Names, e: TraceEvent): string
  {
    if e.payload.category.Some? && e.payload.category.value != "" then e.payload.category.value else n.guess(e.reason)
  }

  /** A category without a gate of its own is passed through; nothing is dropped for an unknown label. */
  function GateOf(n: Names, category: string): string
  {
    if category in n.gates then n.gates[category] else if category != "" then category else "denial"
  }

  // ---- translation ------------------------------------------------------------------------------

  predicate FromControlPlane(detail: string)
  {
    Contains(detail, "control plane")
  }

  /** `payload.get(key, default)` */
  function Entry(p: Payload, key: string, default: Value): Value
  {
    match Get(p.other, key)
    case None => default
    case Some(v) => v
  }

  function Severity(level: string): nat
  {
    if level == "CAUTIOUS" then 1
    else if level == "RESTRICTED" then 2
    else if level == "LOCKED" then 3
    else if level == "TERMINAL" then 4
    else 0
  }

  function FactPrefix(k: FactKind): string
  {
    match k
    case DegradationFact => "deg_"
    case QuarantineFact => "quar_"
    case StaleFact => "stale_"
  }

  function FactId(k: FactKind, n: nat): string
  {
    FactPrefix(k) + Decimal(n)
  }

  function Stamp(n: nat): string
  {
    "seq:" + Decimal(n)
  }

  /** The child an event is about: its own field, or the payload's. */
  function ChildOf(e: TraceEvent): Value
  {
    if e.details.childId.Some? && e.details.childId.value != "" then Str(e.details.childId.value)
    else Entry(e.payload, "child_node_id", Str(""))
  }

  function DepthOf(e: TraceEvent): Value
  {
    if e.details.childDepth.Some? then Int(e.details.childDepth.value) else Entry(e.payload, "child_depth", Int(0))
  }

  function RootOf(source: Option<string>): Value
  {
    if source.Some? then Str(source.value) else Null
  }

  /** None for what means nothing to the plane. The class of an event is looked at before its kind. */
  function Translate(n: Names, node: Option<string>, e: TraceEvent): Option<KernelEvent>
  {
    var nid := if node.Some? && node.value != "" then node.value else e.nodeId;
    var event := (kind: KernelKind, root: Value, gate: Option<string>, verdict: Option<KernelVerdict>, cargo: Cargo) =>
      Some(KernelEvent(e.sequence, Stamp(e.sequence), nid, kind, root, gate, verdict, cargo));
    if e.cls.IntentDeniedEvent? then
      var category := CategoryFor(n, e);
      var gate := Some(GateOf(n, category));
      if e.intentKind == TOOL_CALL then event(ToolCall, Null, gate, Some(Deny), WithReason(e.payload, e.reason))
      else event(Refusal, Null, gate, Some(Deny), WithIntent(e.payload, e.reason, category, e.intentKind))
    else if e.cls.DegradationTransitionEvent? then
      event(Fact, RootOf(e.details.sourceId), None, None,
            FactOf(FactId(DegradationFact, e.sequence), DegradationFact, Severity(e.details.newLevel), Str(e.reason),
                   Some((e.details.newLevel, e.details.previousLevel)), Null))
    else if e.cls.SourceQuarantinedEvent? then
      event(Fact, RootOf(e.details.sourceId), None, None,
            FactOf(FactId(QuarantineFact, e.sequence), QuarantineFact, Severity("RESTRICTED"), Str(e.reason), None, Null))
    else if e.cls.TaintPropagatedEvent? then
      event(ToolResult, Entry(e.payload, "value_ref", Null), None, None, Whole(e.payload))
    else if e.cls.SuspiciousIntentEvent? then
      var denied := e.policyAction == "denied";
      event(if denied then Refusal else GateEval, Null, Some("anomaly"), Some(if denied then Deny else Pass),
            Anomaly(e.details.tool, e.details.score, e.details.reasons))
    else if e.cls.ChildSpawnedEvent? || e.kind.ChildSpawned? then
      event(NodeSpawned, Null, None, None, Spawn(ChildOf(e), nid, DepthOf(e)))
    else if e.cls.ChildStaleEvent? || e.kind.ChildStale? then
      event(Fact, Null, None, None,
            FactOf(FactId(StaleFact, e.sequence), StaleFact, Severity("CAUTIOUS"), Entry(e.payload, "error", Str("child died without returning")), None, ChildOf(e)))
    else if e.kind.ChildCompleted? then
      event(MessageReceived, Entry(e.payload, "value_ref", Null), None, None,
            Message(Entry(e.payload, "child_node_id", Str("")), "ret_" + Decimal(e.sequence),
                    Entry(e.payload, "value_ref", Null), Entry(e.payload, "carried", Obj([]))))
    else if e.cls.CancelledEvent? then
      if FromControlPlane(e.detail) then event(OperatorIntervention, Null, None, None, Intervention(e.reason, e.detail))
      else None
    else if e.kind.IntentApproved? || e.kind.IntentTransformed? then
      event(ToolCall, Null, None, Some(Pass), Whole(e.payload))
    else None
  }

  function TranslateAll(n: Names, node: Option<string>, events: seq<TraceEvent>): seq<KernelEvent>
  {
    if events == [] then []
    else
      var k := Translate(n, node, events[0]);
      (if k.Some? then [k.value] else []) + TranslateAll(n, node, events[1..])
  }

  lemma {:induction false} TranslateAllAppend(n: Names, node: Option<string>, s: seq<TraceEvent>, t: seq<TraceEvent>)
    ensures TranslateAll(n, node, s + t) == TranslateAll(n, node, s) + TranslateAll(n, node, t)
  {
    if s == [] {
      assert s + t == t;
    } else {
      TranslateAllAppend(n, node, s[1..], t);
      assert (s + t)[0] == s[0] && (s + t)[1..] == s[1..] + t;
      var k := Translate(n, node, s[0]);
      Associate(if k.Some? then [k.value] else [], TranslateAll(n, node, s[1..]), TranslateAll(n, node, t));
    }
  }

  /** `trace_to_kernel`. */
  method TraceToKernel(n: Names, node: Option<string>, events: seq<TraceEvent>) returns (out: seq<KernelEvent>)
    ensures out == TranslateAll(n, node, events)
  {
    out := [];
    for i := 0 to |events|
      invariant out == TranslateAll(n, node, events[..i])
    {
      var k := Translate(n, node, events[i]);
      TranslateAllAppend(n, node, events[..i], [events[i]]);
      assert events[..i + 1] == events[..i] + [events[i]];
      assert TranslateAll(n, node, [events[i]]) == if k.Some? then [k.value] else [];
      if k.Some? {
        out := out + [k.value];
      }
    }
    assert events[..|events|] == events;
  }

  // ---- what the bridge carries ------------------------------------------------------------------

  /** Events as the kernel records them: a denied intent has a class of its own, an executed one has none. */
  predicate AsRecorded(e: TraceEvent)
  {
    && (e.cls.IntentDeniedEvent? <==> e.kind.IntentDenied?)
    && (e.kind.IntentApproved? || e.kind.IntentTransformed? ==> e.cls.PlainEvent?)
  }

  predicate IsToolCall(k: KernelEvent)
  {
    k.kind.ToolCall?
  }

  predicate JudgesToolCall(e: TraceEvent)
  {
    IsVerdict(e) && (IsDenial(e) ==> e.intentKind == "tool_call")
  }

  /** The TOOL_CALL that stands for a verdict: same node, sequence, verdict and payload, and the gate that refused. */
  predicate Carries(n: Names, node: Option<string>, k: KernelEvent, e: TraceEvent)
  {
    && k.kind.ToolCall? && k.seqNo == e.sequence && k.causalRoot == Null
    && k.nodeId == (if node.None? || node.value == "" then e.nodeId else node.value)
    && k.verdict == Some(if IsDenial(e) then Deny else Pass)
    && k.cargo == (if IsDenial(e) then WithReason(e.payload, e.reason) else Whole(e.payload))
    && k.gate == (if IsDenial(e) then Some(GateOf(n, CategoryFor(n, e))) else None)
  }

  lemma ToolCallsAreVerdicts(n: Names, node: Option<string>, e: TraceEvent)
    requires AsRecorded(e)
    ensures var k := Translate(n, node, e);
            && (JudgesToolCall(e) ==> k.Some? && Carries(n, node, k.value, e))
            && (!JudgesToolCall(e) && k.Some? ==> !IsToolCall(k.value))
            && (IsDenial(e) ==> k.Some? && k.value.verdict == Some(Deny))
  {}

  ghost predicate AllCarried(n: Names, node: Option<string>, ks: seq<KernelEvent>, es: seq<TraceEvent>)
  {
    |ks| == |es| && forall i :: 0 <= i < |ks| ==> Carries(n, node, ks[i], es[i])
  }

  /** The TOOL_CALLs of a bridged trace are its judged tool calls, one for one and in order. */
  lemma {:induction false} ToolCallsAreCarried(n: Names, node: Option<string>, events: seq<TraceEvent>)
    requires forall i :: 0 <= i < |events| ==> AsRecorded(events[i])
    ensures AllCarried(n, node, Filter(IsToolCall, TranslateAll(n, node, events)), Filter(JudgesToolCall, events))
  {
    if events != [] {
      var k, rest := Translate(n, node, events[0]), TranslateAll(n, node, events[1..]);
      ToolCallsAreCarried(n, node, events[1..]);
      ToolCallsAreVerdicts(n, node, events[0]);
      FilterAppend(IsToolCall, if k.Some? then [k.value] else [], rest);
      if k.Some? {
        assert Filter(IsToolCall, [k.value]) == if IsToolCall(k.value) then [k.value] else [];
      }
    }
  }

  lemma {:induction false} FewerJudged(events: seq<TraceEvent>)
    ensures |Filter(JudgesToolCall, events)| <= |VerdictEvents(events)|
    ensures |Filter(JudgesToolCall, events)| == |VerdictEvents(events)| <==>
            forall i :: 0 <= i < |events| && IsDenial(events[i]) ==> events[i].intentKind == "tool_call"
    ensures |Filter(JudgesToolCall, events)| == |VerdictEvents(events)| ==> Filter(JudgesToolCall, events) == VerdictEvents(events)
  {
    if events != [] {
      FewerJudged(events[1..]);
      assert forall i :: 0 < i < |events| ==> events[i] == events[1..][i - 1];
      assert forall i :: 0 <= i < |events[1..]| ==> events[1..][i] == events[i + 1];
    }
  }

  // ---- the trace document's decisions -----------------------------------------------------------

  function Decisions(items: seq<Item>): seq<GateDecision>
  {
    if items == [] then []
    else (if items[0].Gate? then [items[0].decision] else []) + Decisions(items[1..])
  }

  lemma {:induction false} DecisionsAppend(s: seq<Item>, t: seq<Item>)
    ensures Decisions(s + t) == Decisions(s) + Decisions(t)
  {
    if s == [] {
      assert s + t == t;
    } else {
      DecisionsAppend(s[1..], t);
      assert (s + t)[0] == s[0] && (s + t)[1..] == s[1..] + t;
      Associate(if s[0].Gate? then [s[0].decision] else [], Decisions(s[1..]), Decisions(t));
    }
  }

  lemma CallDecides(p: Pair, c: nat, n: nat, bindings: map<string, string>, d: GateDecision, produced: seq<string>)
    ensures Decisions(ItemsOf(p, c, n, bindings, d, produced)) == [d]
  {
    var items := ItemsOf(p, c, n, bindings, d, produced);
    assert items[1..][1..] == if Executed(p) then [ResultOf(n + 2, ToolOf(p), produced)] else [];
    assert Decisions(items[1..][1..]) == [];
  }

  /** What a document says about one verdict. */
  predicate Decides(s: Setting, d: GateDecision, e: TraceEvent)
  {
    && (d.denied <==> IsDenial(e))
    && d.gate == (if d.denied && e.payload.category.Some? then s.gateOf(e.payload.category.value) else GATE_ON_ALLOW)
    && (d.denied ==> e.payload.category.Some?)
  }

  ghost predicate AllDecided(s: Setting, ds: seq<GateDecision>, es: seq<TraceEvent>)
  {
    |ds| == |es| && forall i :: 0 <= i < |ds| ==> Decides(s, ds[i], es[i])
  }

  lemma NextDecision(s: Setting, b: Built, c: nat, p: Pair) returns (d: GateDecision)
    requires BuildCall(s, b, c, p).Some?
    ensures Decisions(BuildCall(s, b, c, p).value.items) == Decisions(b.items) + [d] && Decides(s, d, p.event)
  {
    var bindings := BindingsOf(s.views, b.ledger, p);
    d := DecisionOf(s, p.event, bindings).value;
    var l1 := WithArguments(s, b, p);
    var items := ItemsOf(p, c, |b.items|, bindings, d, Since(BuildCall(s, b, c, p).value.ledger, |l1.values|));
    CallDecides(p, c, |b.items|, bindings, d, Since(BuildCall(s, b, c, p).value.ledger, |l1.values|));
    DecisionsAppend(b.items, items);
  }

  lemma {:induction false} DecisionsFollowVerdicts(s: Setting, pairs: seq<Pair>, b: Built)
    requires Build(s, pairs) == Some(b)
    ensures AllDecided(s, Decisions(b.items), EventsOf(pairs))
    decreases |pairs|
  {
    if pairs != [] {
      var b0 := Build(s, Init(pairs)).value;
      DecisionsFollowVerdicts(s, Init(pairs), b0);
      var d := NextDecision(s, b0, |pairs| - 1, Last(pairs));
      LastEvent(pairs);
    }
  }

  lemma {:induction false} LastEvent(pairs: seq<Pair>)
    requires pairs != []
    ensures EventsOf(pairs) == EventsOf(Init(pairs)) + [Last(pairs).event]
  {
    if |pairs| > 1 {
      LastEvent(pairs[1..]);
      assert Init(pairs)[1..] == Init(pairs[1..]);
    }
  }

  // ---- one trace, two consumers -----------------------------------------------------------------

  ghost predicate SameVerdicts(ks: seq<KernelEvent>, ds: seq<GateDecision>)
  {
    |ks| == |ds| && forall i :: 0 <= i < |ks| ==> ks[i].verdict == Some(if ds[i].denied then Deny else Pass)
  }

  /**
    The plane's TOOL_CALLs and the document's gate decisions tell the same verdicts, one for one and in
    order, exactly when every denied intent is a tool call: a refused spawn or message is a decision of the
    document, but no TOOL_CALL.
   */
  lemma ConsumersAgreeIff(n: Names, node: Option<string>, s: Setting, calls: seq<RecordedCall>, events: seq<TraceEvent>,
                          observes: Observes, b: Built)
    requires forall i :: 0 <= i < |events| ==> AsRecorded(events[i])
    requires BuildTrace(s, calls, events, observes) == Ok(b)
    ensures SameVerdicts(Filter(IsToolCall, TranslateAll(n, node, events)), Decisions(b.items)) <==>
            forall i :: 0 <= i < |events| && IsDenial(events[i]) ==> events[i].intentKind == "tool_call"
  {
    var pairs := Paired(calls, VerdictEvents(events), observes).value;
    PairedIff(pairs, calls, VerdictEvents(events), observes);
    DecisionsFollowVerdicts(s, pairs, b);
    ToolCallsAreCarried(n, node, events);
    FewerJudged(events);
  }

  /** Then the refusing gates agree too, as far as the two look a category up in the same table. */
  lemma ConsumersAgreeOnGates(n: Names, node: Option<string>, s: Setting, calls: seq<RecordedCall>, events: seq<TraceEvent>,
                              observes: Observes, b: Built, i: nat)
    requires forall j :: 0 <= j < |events| ==> AsRecorded(events[j])
    requires BuildTrace(s, calls, events, observes) == Ok(b)
    requires forall j :: 0 <= j < |events| && IsDenial(events[j]) ==> events[j].intentKind == "tool_call"
    requires i < |Decisions(b.items)| && Decisions(b.items)[i].denied
    ensures var e, ks := VerdictEvents(events), Filter(IsToolCall, TranslateAll(n, node, events));
            && i < |ks| && i < |e| && e[i].payload.category.Some?
            && var category := e[i].payload.category.value;
               (category != "" && s.gateOf(category) == GateOf(n, category) ==> ks[i].gate == Some(Decisions(b.items)[i].gate))
  {
    var pairs := Paired(calls, VerdictEvents(events), observes).value;
    PairedIff(pairs, calls, VerdictEvents(events), observes);
    DecisionsFollowVerdicts(s, pairs, b);
    ToolCallsAreCarried(n, node, events);
    FewerJudged(events);
  }

  // ---- denials without a category ---------------------------------------------------------------

  /** The guess is the category of the first needle that the reason contains, in whatever case, or plain denial. */
  lemma {:induction false} FirstNeedleMeaning(table: seq<(string, string)>, lowered: string) returns (i: nat)
    ensures i <= |table| && forall j :: 0 <= j < i ==> !Contains(lowered, table[j].0)
    ensures if i == |table| then FirstNeedle(table, lowered) == "denial"
            else Contains(lowered, table[i].0) && FirstNeedle(table, lowered) == table[i].1
  {
    if table == [] || Contains(lowered, table[0].0) {
      i := 0;
    } else {
      var k := FirstNeedleMeaning(table[1..], lowered);
      i := k + 1;
      assert forall j :: 0 < j < i ==> table[j] == table[1..][j - 1];
    }
  }

  /**
    A denial that carries no category: no document can be built of its trace, while the bridge still tells it,
    under a gate it guesses from the reason.
   */
  lemma UncategorisedDenials(gates: map<string, string>, node: Option<string>, s: Setting, calls: seq<RecordedCall>,
                             events: seq<TraceEvent>, observes: Observes, i: nat)
    requires i < |events| && AsRecorded(events[i]) && IsDenial(events[i]) && events[i].payload.category.None?
    requires Paired(calls, VerdictEvents(events), observes).Ok?
    ensures BuildTrace(s, calls, events, observes) == Err(MissingCategory)
    ensures var k := Translate(KernelNames(gates), node, events[i]);
            k.Some? && k.value.verdict == Some(Deny) && k.value.gate == Some(GateOf(KernelNames(gates), CategoryOf(events[i].reason)))
  {
    NeverBuilt(s, calls, events, observes, i);
  }

  lemma NeverBuilt(s: Setting, calls: seq<RecordedCall>, events: seq<TraceEvent>, observes: Observes, i: nat)
    requires i < |events| && IsDenial(events[i]) && events[i].payload.category.None?
    requires Paired(calls, VerdictEvents(events), observes).Ok?
    ensures BuildTrace(s, calls, events, observes) == Err(MissingCategory)
  {
    var pairs := Paired(calls, VerdictEvents(events), observes).value;
    PairedIff(pairs, calls, VerdictEvents(events), observes);
    VerdictIsKept(events, i);
    var j :| 0 <= j < |VerdictEvents(events)| && VerdictEvents(events)[j] == events[i];
    EventsAt(pairs, j);
    TraceProofs.BuildSucceedsIff(s, pairs);
    assert !TraceProofs.HasCategory(pairs[j]);
  }

  lemma {:induction false} VerdictIsKept(events: seq<TraceEvent>, i: nat)
    requires i < |events| && IsVerdict(events[i])
    ensures events[i] in VerdictEvents(events)
  {
    if i > 0 { VerdictIsKept(events[1..], i - 1); }
  }

  lemma {:induction false} EventsAt(pairs: seq<Pair>, j: nat)
    requires j < |EventsOf(pairs)|
    ensures j < |pairs| && pairs[j].event == EventsOf(pairs)[j]
  {
    if j > 0 { EventsAt(pairs[1..], j - 1); }
  }

  // ---- facts ------------------------------------------------------------------------------------

  lemma FactIdIsInjective(k: FactKind, n: nat, l: FactKind, m: nat)
    requires FactId(k, n) == FactId(l, m)
    ensures k == l && n == m
  {
    assert FactId(k, n)[0] == FactPrefix(k)[0] && FactId(l, m)[0] == FactPrefix(l)[0];
    assert k == l;
    var prefix := FactPrefix(k);
    assert FactId(k, n)[|prefix|..] == Decimal(n) && FactId(l, m)[|prefix|..] == Decimal(m);
    DecimalReadsBack(n);
    DecimalReadsBack(m);
  }

  /** On one node, whose events are numbered, a fact id tells the event and the kind of fact. */
  lemma FactsAreToldApart(n: Names, node: Option<string>, e: TraceEvent, f: TraceEvent)
    requires var k, l := Translate(n, node, e), Translate(n, node, f);
             k.Some? && l.Some? && k.value.cargo.FactOf? && l.value.cargo.FactOf? && k.value.cargo.id == l.value.cargo.id
    ensures e.sequence == f.sequence && Translate(n, node, e).value.cargo.what == Translate(n, node, f).value.cargo.what
  {
    var k, l := Translate(n, node, e).value.cargo, Translate(n, node, f).value.cargo;
    assert k.id == FactId(k.what, e.sequence) && l.id == FactId(l.what, f.sequence);
    FactIdIsInjective(k.what, e.sequence, l.what, f.sequence);
  }
}
