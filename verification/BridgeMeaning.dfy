/** What each kind of event tells the plane. */
module BridgeMeaning {
  import opened Basics
  import opened Json
  import opened Decimals
  import opened KernelEvents
  import opened Trace
  import opened Bridge

  // ---- severities -------------------------------------------------------------------------------

  /** From no degradation to the worst. */
  const LEVELS := ["NORMAL", "CAUTIOUS", "RESTRICTED", "LOCKED", "TERMINAL"]

  /** Severity climbs with the level, strictly and from 0; a name that is none of the five has none. */
  lemma SeverityClimbs(level: string, i: nat, j: nat)
    requires i < j < |LEVELS|
    ensures Severity(LEVELS[i]) < Severity(LEVELS[j]) == j
    ensures Severity(level) > 0 ==> level in LEVELS
  {
    assert level in LEVELS <==> level == LEVELS[0] || level == LEVELS[1] || level == LEVELS[2] || level == LEVELS[3] || level == LEVELS[4];
    assert Severity(LEVELS[0]) == 0;
  }

  // ---- the envelope -----------------------------------------------------------------------------

  /** Whatever is told keeps its number and names the node: the one given, or else its own. */
  predicate Enveloped(node: Option<string>, e: TraceEvent, k: KernelEvent)
  {
    && k.seqNo == e.sequence && k.ts == "seq:" + Decimal(e.sequence)
    && k.nodeId == (if node.None? || node.value == "" then e.nodeId else node.value)
  }

  lemma EverythingIsEnveloped(n: Names, node: Option<string>, e: TraceEvent)
    ensures var k := Translate(n, node, e);
            k.Some? ==> Enveloped(node, e, k.value)
  {}

  predicate IsChildEvent(e: TraceEvent)
  {
    e.kind.ChildSpawned? || e.kind.ChildStale? || e.kind.ChildCompleted?
  }

  predicate HasClassOfItsOwn(e: TraceEvent)
  {
    !e.cls.PlainEvent? && !e.cls.CancelledEvent?
  }

  /** Dropped are a cancellation that is not the control plane's, and a plain event that is neither about a child nor an approval. */
  lemma DroppedIff(n: Names, node: Option<string>, e: TraceEvent)
    ensures Translate(n, node, e).None? <==>
            && !HasClassOfItsOwn(e) && !IsChildEvent(e)
            && (if e.cls.CancelledEvent? then forall i :: 0 <= i <= |e.detail| ==> !("control plane" <= e.detail[i..])
                else !e.kind.IntentApproved? && !e.kind.IntentTransformed?)
  {
    ContainsIff(e.detail, "control plane");
  }

  lemma {:induction false} ContainsIff(s: string, needle: string)
    ensures Contains(s, needle) <==> exists i :: 0 <= i <= |s| && needle <= s[i..]
  {
    assert s[0..] == s;
    if s != [] {
      ContainsIff(s[1..], needle);
      assert forall i :: 0 < i <= |s| ==> s[i..] == s[1..][i - 1..];
    }
  }

  // ---- denials ----------------------------------------------------------------------------------

  /** A refusal is told under the gate of the kernel's own category, or under the category where no gate is known for it. */
  lemma RefusalsAreTold(n: Names, node: Option<string>, e: TraceEvent)
    requires e.cls.IntentDeniedEvent? && e.payload.category.Some? && e.payload.category.value != ""
    ensures var k, category := Translate(n, node, e), e.payload.category.value;
            && k.Some? && k.value.verdict == Some(Deny) && k.value.causalRoot == Null
            && k.value.gate == Some(if category in n.gates then n.gates[category] else category)
            && (e.intentKind == "tool_call" ==> k.value.kind.ToolCall? && k.value.cargo == WithReason(e.payload, e.reason))
            && (e.intentKind != "tool_call" ==>
                  k.value.kind.Refusal? && k.value.cargo == WithIntent(e.payload, e.reason, category, e.intentKind))
  {}

  /** The needle stands somewhere in the text, in whatever case. */
  ghost predicate Mentions(text: string, needle: string)
  {
    exists i :: 0 <= i <= |text| - |needle| && MentionedAt(text, needle, i)
  }

  predicate MentionedAt(text: string, needle: string, i: nat)
    requires i + |needle| <= |text|
  {
    forall k :: 0 <= k < |needle| ==> text[i + k] == needle[k] || ('A' <= text[i + k] <= 'Z' && text[i + k] as int + 32 == needle[k] as int)
  }

  predicate NoCapitals(s: string)
  {
    forall i :: 0 <= i < |s| ==> !('A' <= s[i] <= 'Z')
  }

  lemma MentionsIff(text: string, needle: string)
    requires NoCapitals(needle)
    ensures Contains(Lower(text), needle) <==> Mentions(text, needle)
  {
    var lowered := Lower(text);
    ContainsIff(lowered, needle);
    forall i | 0 <= i <= |text| ensures needle <= lowered[i..] <==> i + |needle| <= |text| && MentionedAt(text, needle, i) {
      MentionedIff(text, needle, i);
    }
  }

  lemma MentionedIff(text: string, needle: string, i: nat)
    requires NoCapitals(needle) && i <= |text|
    ensures needle <= Lower(text)[i..] <==> i + |needle| <= |text| && MentionedAt(text, needle, i)
  {
    var lowered := Lower(text);
    if i + |needle| <= |text| {
      assert forall k :: 0 <= k < |needle| ==> lowered[i..][k] == lowered[i + k];
      if MentionedAt(text, needle, i) {
        assert forall k :: 0 <= k < |needle| ==> lowered[i..][k] == needle[k];
        assert needle == lowered[i..][..|needle|];
      }
    }
  }

  /** The words a reason is searched for, first to last, and what each stands for. */
  const WORDS := ["taint", "carrier", "consequence", "ssrf", "value policy", "capability", "budget", "degradation",
                  "unclassified", "positional"]
  const MEANINGS := ["taint_enforcement", "carrier_gate", "consequence_gate", "ssrf_gate", "value_policy", "capability",
                     "budget", "degradation", "unclassified_tool", "positional_gate"]

  /** A denial without a category is given that of the first word its reason mentions, or none but "denial". */
  lemma GuessesAreFirstWords(reason: string)
    ensures forall i :: 0 <= i < |WORDS| && Mentions(reason, WORDS[i]) && (forall j :: 0 <= j < i ==> !Mentions(reason, WORDS[j]))
              ==> CategoryOf(reason) == MEANINGS[i]
    ensures (forall j :: 0 <= j < |WORDS| ==> !Mentions(reason, WORDS[j])) ==> CategoryOf(reason) == "denial"
  {
    var table := [("taint", "taint_enforcement"), ("carrier", "carrier_gate"), ("consequence", "consequence_gate"),
      ("ssrf", "ssrf_gate"), ("value policy", "value_policy"), ("capability", "capability"), ("budget", "budget"),
      ("degradation", "degradation"), ("unclassified", "unclassified_tool"), ("positional", "positional_gate")];
    assert CategoryOf(reason) == FirstNeedle(table, Lower(reason));
    GuessIn(table, reason, WORDS, MEANINGS);
  }

  lemma GuessIn(table: seq<(string, string)>, reason: string, words: seq<string>, meanings: seq<string>)
    requires |table| == |words| == |meanings|
    requires forall i :: 0 <= i < |table| ==> table[i] == (words[i], meanings[i]) && NoCapitals(words[i])
    ensures forall i :: 0 <= i < |words| && Mentions(reason, words[i]) && (forall j :: 0 <= j < i ==> !Mentions(reason, words[j]))
              ==> FirstNeedle(table, Lower(reason)) == meanings[i]
    ensures (forall j :: 0 <= j < |words| ==> !Mentions(reason, words[j])) ==> FirstNeedle(table, Lower(reason)) == "denial"
  {
    var at := FirstNeedleMeaning(table, Lower(reason));
    forall j | 0 <= j < |words| ensures Contains(Lower(reason), table[j].0) <==> Mentions(reason, words[j]) {
      MentionsIff(reason, words[j]);
    }
  }

  // ---- facts ------------------------------------------------------------------------------------

  /** The source an event is put down to. */
  predicate RootedIn(k: KernelEvent, source: Option<string>)
  {
    k.causalRoot == match source case None => Null case Some(s) => Str(s)
  }

  /** A step between levels: as severe as the level it leads to, put down to the source that caused it. */
  lemma TransitionsAreTold(n: Names, node: Option<string>, e: TraceEvent)
    requires e.cls.DegradationTransitionEvent?
    ensures var k := Translate(n, node, e);
            && k.Some? && k.value.kind.Fact? && k.value.gate.None? && k.value.verdict.None? && RootedIn(k.value, e.details.sourceId)
            && k.value.cargo.FactOf? && k.value.cargo.id == "deg_" + Decimal(e.sequence) && k.value.cargo.what.DegradationFact?
            && (forall i :: 0 <= i < |LEVELS| && e.details.newLevel == LEVELS[i] ==> k.value.cargo.severity == i)
            && (e.details.newLevel !in LEVELS ==> k.value.cargo.severity == 0)
            && k.value.cargo.because == Str(e.reason) && k.value.cargo.child == Null
            && k.value.cargo.levels == Some((e.details.newLevel, e.details.previousLevel))
  {
    SeverityClimbs(e.details.newLevel, 0, 4);
    forall i | 0 <= i < |LEVELS| && e.details.newLevel == LEVELS[i] ensures Severity(LEVELS[i]) == i {
      if i > 0 { SeverityClimbs(LEVELS[i], 0, i); }
    }
  }

  /** A quarantined source is a fact as severe as RESTRICTED; a child found dead, one as severe as CAUTIOUS. */
  lemma QuarantinesAreTold(n: Names, node: Option<string>, e: TraceEvent)
    requires e.cls.SourceQuarantinedEvent?
    ensures var k := Translate(n, node, e);
            && k.Some? && k.value.kind.Fact? && k.value.gate.None? && k.value.verdict.None? && RootedIn(k.value, e.details.sourceId)
            && k.value.cargo.FactOf? && k.value.cargo.id == "quar_" + Decimal(e.sequence) && k.value.cargo.what.QuarantineFact?
            && LEVELS[k.value.cargo.severity] == "RESTRICTED"
            && k.value.cargo.because == Str(e.reason) && k.value.cargo.child == Null && k.value.cargo.levels.None?
  {}

  /** What the payload holds under a name, or what is said in its place. */
  ghost predicate HoldsOr(p: Payload, name: string, default: Value, v: Value)
  {
    if exists i :: 0 <= i < |p.other| && p.other[i].key == name
    then exists i :: 0 <= i < |p.other| && p.other[i] == Field(name, v) && forall j :: 0 <= j < i ==> p.other[j].key != name
    else v == default
  }

  lemma {:induction false} GetIsFirst(fields: seq<Field>, name: string) returns (i: nat)
    ensures i <= |fields| && forall j :: 0 <= j < i ==> fields[j].key != name
    ensures Get(fields, name).None? <==> i == |fields|
    ensures i < |fields| ==> fields[i].key == name && Get(fields, name) == Some(fields[i].value)
  {
    i := 0;
    if fields != [] && fields[0].key != name {
      var k := GetIsFirst(fields[1..], name);
      i := k + 1;
      assert forall j :: 0 < j < i ==> fields[j] == fields[1..][j - 1];
    }
  }

  lemma EntryHolds(p: Payload, name: string, default: Value)
    ensures HoldsOr(p, name, default, Entry(p, name, default))
  {
    var i := GetIsFirst(p.other, name);
    if i < |p.other| { assert p.other[i] == Field(name, Entry(p, name, default)); }
  }

  /** The child by its own field, if it is named there, or by the payload's entry. */
  ghost predicate NamesChild(e: TraceEvent, v: Value)
  {
    if e.details.childId.Some? && e.details.childId.value != "" then v == Str(e.details.childId.value)
    else HoldsOr(e.payload, "child_node_id", Str(""), v)
  }

  predicate IsStale(e: TraceEvent)
  {
    e.cls.ChildStaleEvent? || (e.kind.ChildStale? && !HasClassOfItsOwn(e))
  }

  lemma StaleChildrenAreTold(n: Names, node: Option<string>, e: TraceEvent)
    requires IsStale(e) && !e.kind.ChildSpawned?
    ensures var k := Translate(n, node, e);
            && k.Some? && k.value.kind.Fact? && k.value.gate.None? && k.value.verdict.None? && k.value.causalRoot == Null
            && k.value.cargo.FactOf? && k.value.cargo.id == "stale_" + Decimal(e.sequence) && k.value.cargo.what.StaleFact?
            && LEVELS[k.value.cargo.severity] == "CAUTIOUS" && k.value.cargo.levels.None?
            && HoldsOr(e.payload, "error", Str("child died without returning"), k.value.cargo.because)
            && NamesChild(e, k.value.cargo.child)
  {
    EntryHolds(e.payload, "error", Str("child died without returning"));
    EntryHolds(e.payload, "child_node_id", Str(""));
  }

  // ---- taint, suspicion, children, the operator -------------------------------------------------

  /** The origin of taint: a result, with the whole payload, put down to the value it is about. */
  lemma OriginsAreTold(n: Names, node: Option<string>, e: TraceEvent)
    requires e.cls.TaintPropagatedEvent?
    ensures var k := Translate(n, node, e);
            && k.Some? && k.value.kind.ToolResult? && k.value.gate.None? && k.value.verdict.None?
            && HoldsOr(e.payload, "value_ref", Null, k.value.causalRoot) && k.value.cargo == Whole(e.payload)
  {
    EntryHolds(e.payload, "value_ref", Null);
  }

  /** A suspicious intent is a denial by the anomaly gate exactly when the policy denied it, and else passed it. */
  lemma SuspicionsAreTold(n: Names, node: Option<string>, e: TraceEvent)
    requires e.cls.SuspiciousIntentEvent?
    ensures var k := Translate(n, node, e);
            && k.Some? && k.value.gate == Some("anomaly") && k.value.causalRoot == Null
            && (k.value.kind.Refusal? <==> e.policyAction == "denied") && (k.value.kind.GateEval? <==> e.policyAction != "denied")
            && (k.value.verdict == Some(Deny) <==> k.value.kind.Refusal?) && k.value.verdict.Some?
            && k.value.cargo == Anomaly(e.details.tool, e.details.score, e.details.reasons)
  {}

  predicate IsSpawn(e: TraceEvent)
  {
    e.cls.ChildSpawnedEvent? || (e.kind.ChildSpawned? && (e.cls.ChildStaleEvent? || !HasClassOfItsOwn(e)))
  }

  /** A spawn hangs the child under the node that tells of it. */
  lemma SpawnsAreTold(n: Names, node: Option<string>, e: TraceEvent)
    requires IsSpawn(e)
    ensures var k := Translate(n, node, e);
            && k.Some? && k.value.kind.NodeSpawned? && k.value.gate.None? && k.value.verdict.None? && k.value.causalRoot == Null
            && k.value.cargo.Spawn? && NamesChild(e, k.value.cargo.child) && k.value.cargo.parent == k.value.nodeId
            && (match e.details.childDepth
                case Some(d) => k.value.cargo.depth == Int(d)
                case None => HoldsOr(e.payload, "child_depth", Int(0), k.value.cargo.depth))
  {
    EntryHolds(e.payload, "child_node_id", Str(""));
    EntryHolds(e.payload, "child_depth", Int(0));
  }

  /** A child that returns sends a message up, carrying what its payload carries. */
  lemma ReturnsAreTold(n: Names, node: Option<string>, e: TraceEvent)
    requires e.kind.ChildCompleted? && !HasClassOfItsOwn(e)
    ensures var k := Translate(n, node, e);
            && k.Some? && k.value.kind.MessageReceived? && k.value.gate.None? && k.value.verdict.None? && k.value.cargo.Message?
            && k.value.cargo.id == "ret_" + Decimal(e.sequence) && k.value.cargo.valueRef == k.value.causalRoot
            && HoldsOr(e.payload, "child_node_id", Str(""), k.value.cargo.from)
            && HoldsOr(e.payload, "value_ref", Null, k.value.causalRoot)
            && HoldsOr(e.payload, "carried", Obj([]), k.value.cargo.carried)
  {
    EntryHolds(e.payload, "child_node_id", Str(""));
    EntryHolds(e.payload, "value_ref", Null);
    EntryHolds(e.payload, "carried", Obj([]));
  }

  /** A cancellation is the operator's exactly when its detail names the control plane. */
  lemma CancellationsAreTold(n: Names, node: Option<string>, e: TraceEvent)
    requires e.cls.CancelledEvent? && !IsChildEvent(e)
    ensures var k := Translate(n, node, e);
            && (k.Some? <==> exists i :: 0 <= i <= |e.detail| && "control plane" <= e.detail[i..])
            && (k.Some? ==> && k.value.kind.OperatorIntervention? && k.value.cargo == Intervention(e.reason, e.detail)
                            && k.value.gate.None? && k.value.verdict.None? && k.value.causalRoot == Null)
  {
    ContainsIff(e.detail, "control plane");
  }

  /** An approved call, or one the kernel rewrote, passes with its payload. */
  lemma ApprovalsAreTold(n: Names, node: Option<string>, e: TraceEvent)
    requires e.cls.PlainEvent? && (e.kind.IntentApproved? || e.kind.IntentTransformed?)
    ensures var k := Translate(n, node, e);
            && k.Some? && k.value.kind.ToolCall? && k.value.verdict == Some(Pass) && k.value.gate.None?
            && k.value.causalRoot == Null && k.value.cargo == Whole(e.payload)
  {}
}
