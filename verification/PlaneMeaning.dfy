/**
  What the commands of a run mean, told from their entries alone: who stopped the node, who paused it, which
  cap it keeps, and what each pending one-shot says.
 */
module PlaneMeaning {
  import opened Basics
  import opened Json
  import opened PlaneState
  import opened PlaneRuns
  import opened PlaneSnapshots
  import PlaneRaising
  import Sorting

  // ---- entries ----------------------------------------------------------------------------------

  /** The number a delta asks for as its cap; None when it asks for none, or for one that is no number. */
  function AskedCap(h: Host, d: Dict): Option<int>
  {
    if "budget_cap_calls" in d && d["budget_cap_calls"] != Null then ToInt(h, d["budget_cap_calls"]) else None
  }

  predicate CapIsNoNumber(h: Host, d: Dict)
  {
    "budget_cap_calls" in d && d["budget_cap_calls"] != Null && ToInt(h, d["budget_cap_calls"]).None?
  }

  predicate Widens(h: Host, cap: Option<int>, d: Dict)
  {
    cap.Some? && AskedCap(h, d).Some? && cap.value < AskedCap(h, d).value
  }

  /** Neither refused as widening nor broken off at the cap: the one-shots of the delta get their turn. */
  predicate GetsToOneShots(h: Host, cap: Option<int>, d: Dict)
  {
    !CapIsNoNumber(h, d) && !Widens(h, cap, d)
  }

  /** An injection that is no object breaks the command off. */
  predicate InjectionBreaks(d: Dict)
  {
    TruthyAt(d, "pending_injection") && !d["pending_injection"].Obj?
  }

  /** So does an excision, or one whose targets cannot be gone through. */
  predicate ExcisionBreaks(h: Host, d: Dict)
  {
    TruthyAt(d, "pending_excision") &&
    (!d["pending_excision"].Obj? ||
     (Get(d["pending_excision"].fields, "target_refs").Some?
      && h.py.otherRefs(Get(d["pending_excision"].fields, "target_refs").value).None?))
  }

  predicate Breaks(h: Host, cap: Option<int>, d: Dict)
  {
    CapIsNoNumber(h, d) || (!Widens(h, cap, d) && (InjectionBreaks(d) || ExcisionBreaks(h, d)))
  }

  /** `t` is the text of an entry: empty when there is none. */
  predicate IsText(h: Host, entry: Option<Value>, t: string)
  {
    match entry
    case None => t == ""
    case Some(Str(s)) => t == s
    case Some(v) => t == h.py.repr(v)
  }

  /** The id stands under `id`, or else under the older key. */
  predicate IsId(h: Host, fields: seq<Field>, older: string, t: string)
  {
    if Get(fields, "id").Some? then IsText(h, Get(fields, "id"), t) else IsText(h, Get(fields, older), t)
  }

  predicate IsInjection(h: Host, v: Value, i: Injection)
  {
    && v.Obj? && IsId(h, v.fields, "injection_id", i.id) && IsText(h, Get(v.fields, "text"), i.text)
    && IsText(h, Get(v.fields, "reason"), i.reason) && IsText(h, Get(v.fields, "operator"), i.operator)
    && IsText(h, Get(v.fields, "sig"), i.sig)
  }

  predicate IsExcision(h: Host, v: Value, x: Excision)
  {
    && v.Obj? && IsId(h, v.fields, "excision_id", x.id)
    && (match Get(v.fields, "target_refs") case None => x.refs == [] case Some(refs) => h.py.otherRefs(refs) == Some(x.refs))
    && IsText(h, Get(v.fields, "reason"), x.reason) && IsText(h, Get(v.fields, "operator"), x.operator)
    && IsText(h, Get(v.fields, "sig"), x.sig)
  }

  /** A replan that is no object says nothing. */
  predicate IsReplan(h: Host, v: Value, r: Replan)
  {
    var fields := if v.Obj? then v.fields else [];
    IsText(h, Get(fields, "id"), r.id) && IsText(h, Get(fields, "reason"), r.reason) && IsText(h, Get(fields, "operator"), r.operator)
  }

  // ---- what a history leaves behind -------------------------------------------------------------

  predicate OrdersStop(e: Event)
  {
    e.Accepted? && TruthyAt(e.delta, "stopped")
  }

  /** Some accepted command orders the stop, or the node was stopped before. */
  predicate Stopped(before: bool, es: seq<Event>)
  {
    before || exists i :: 0 <= i < |es| && OrdersStop(es[i])
  }

  /** The command got through to a node that was not yet stopped. */
  predicate Heeded(before: bool, es: seq<Event>)
    requires es != []
  {
    Last(es).Accepted? && !Stopped(before, Init(es))
  }

  /** The last word on pausing: a command that names it, or a hold. */
  function Paused(c: Control, es: seq<Event>): bool
  {
    if es == [] then c.paused
    else if Last(es).Held? then true
    else if Heeded(c.stopped, es) && "paused" in Last(es).delta then Truthy(Last(es).delta["paused"])
    else Paused(c, Init(es))
  }

  /** The last cap asked for that did not widen the one before it. */
  function Cap(h: Host, c: Control, es: seq<Event>): Option<int>
  {
    if es == [] then c.cap
    else if Heeded(c.stopped, es) && AskedCap(h, Last(es).delta).Some? && !Widens(h, Cap(h, c, Init(es)), Last(es).delta)
    then AskedCap(h, Last(es).delta)
    else Cap(h, c, Init(es))
  }

  predicate HeededToTheEnd(h: Host, c: Control, es: seq<Event>)
    requires es != []
  {
    Heeded(c.stopped, es) && GetsToOneShots(h, Cap(h, c, Init(es)), Last(es).delta)
  }

  /** `o` is the injection of the last command that named one and got to it, unless it was drained since. */
  predicate PendingInjection(h: Host, c: Control, es: seq<Event>, o: Option<Injection>)
  {
    if es == [] then o == c.injection
    else if Last(es) == Drained(Injections) then o == None
    else if HeededToTheEnd(h, c, es) && TruthyAt(Last(es).delta, "pending_injection") && !InjectionBreaks(Last(es).delta)
    then o.Some? && IsInjection(h, Last(es).delta["pending_injection"], o.value)
    else PendingInjection(h, c, Init(es), o)
  }

  predicate PendingExcision(h: Host, c: Control, es: seq<Event>, o: Option<Excision>)
  {
    if es == [] then o == c.excision
    else if Last(es) == Drained(Excisions) then o == None
    else if HeededToTheEnd(h, c, es) && TruthyAt(Last(es).delta, "pending_excision")
            && !InjectionBreaks(Last(es).delta) && !ExcisionBreaks(h, Last(es).delta)
    then o.Some? && IsExcision(h, Last(es).delta["pending_excision"], o.value)
    else PendingExcision(h, c, Init(es), o)
  }

  predicate PendingReplan(h: Host, c: Control, es: seq<Event>, o: Option<Replan>)
  {
    if es == [] then o == c.replan
    else if Last(es) == Drained(Replans) then o == None
    else if HeededToTheEnd(h, c, es) && TruthyAt(Last(es).delta, "replan")
    then o.Some? && IsReplan(h, Last(es).delta["replan"], o.value)
    else PendingReplan(h, c, Init(es), o)
  }

  predicate Means(h: Host, c: Control, es: seq<Event>, m: Control)
  {
    && m.stopped == Stopped(c.stopped, es) && m.paused == Paused(c, es) && m.cap == Cap(h, c, es)
    && PendingInjection(h, c, es, m.injection) && PendingExcision(h, c, es, m.excision) && PendingReplan(h, c, es, m.replan)
  }

  // ---- which commands a run accepts -------------------------------------------------------------

  /** Of a chain of commands, the ones later than `floor`, up to one that breaks off. */
  function NewOnes(h: Host, stopped: bool, cap: Option<int>, floor: int, cs: seq<Command>): seq<Event>
    decreases |cs|
  {
    if cs == [] then []
    else if cs[0].version <= floor then NewOnes(h, stopped, cap, floor, cs[1..])
    else
      var d := cs[0].delta;
      var cap1 := if !stopped && AskedCap(h, d).Some? && !Widens(h, cap, d) then AskedCap(h, d) else cap;
      [Accepted(cs[0].version, d)]
      + if !stopped && Breaks(h, cap, d) then [] else NewOnes(h, stopped || TruthyAt(d, "stopped"), cap1, cs[0].version, cs[1..])
  }

  /** The events of one operation: what is trusted and new, or what the node does itself. */
  function Heard(h: Host, n: Node, op: Op): seq<Event>
  {
    match op
    case Delta(version, delta, operator, timestamp, sig) =>
      if Verify(h, version, delta, operator, timestamp, sig) == Trusted && n.version < version then [Accepted(version, delta)] else []
    case Snapshot(version, state, raws) =>
      if h.config.operatorKeys == map[] then (if n.version < version then [Accepted(version, ToDict(state))] else [])
      else if Accepts(h, state, raws) then NewOnes(h, n.ctl.stopped, n.ctl.cap, n.version, InOrder(Commands(h, raws)))
      else []
    case _ => LocalEvent(op)
  }

  function History(h: Host, n: Node, ops: seq<Op>): seq<Event>
    decreases |ops|
  {
    if ops == [] then [] else Heard(h, n, ops[0]) + History(h, Step(h, n, ops[0]), ops[1..])
  }

  // ---- one event --------------------------------------------------------------------------------

  lemma BreaksIff(h: Host, c: Control, d: Dict)
    ensures PlaneRaising.Raises(h, c, d) <==> !c.stopped && Breaks(h, c.cap, d)
  {
    PlaneRaising.RaisesIff(h, c, d);
  }

  lemma InjectionIsRead(h: Host, v: Value)
    ensures ReadInjection(h, v).Some? <==> v.Obj?
    ensures v.Obj? ==> IsInjection(h, v, ReadInjection(h, v).value)
  {}

  lemma ExcisionIsRead(h: Host, v: Value)
    ensures ReadExcision(h, v).Some? ==> IsExcision(h, v, ReadExcision(h, v).value)
    ensures ReadExcision(h, v).None? <==>
            !v.Obj? || (Get(v.fields, "target_refs").Some? && h.py.otherRefs(Get(v.fields, "target_refs").value).None?)
  {}

  lemma ReplanIsRead(h: Host, v: Value)
    ensures IsReplan(h, v, ReadReplan(h, v))
  {}

  lemma StepOfStop(before: bool, es: seq<Event>)
    requires es != []
    ensures Stopped(before, es) <==> Stopped(before, Init(es)) || OrdersStop(Last(es))
  {
    assert forall i :: 0 <= i < |es| - 1 ==> es[i] == Init(es)[i];
    assert es[|es| - 1] == Last(es);
  }

  lemma FlagsOfEvent(h: Host, c: Control, es: seq<Event>, m: Control)
    requires es != [] && m.stopped == Stopped(c.stopped, Init(es)) && m.paused == Paused(c, Init(es)) && m.cap == Cap(h, c, Init(es))
    ensures var k := Do(h, m, Last(es));
            k.stopped == Stopped(c.stopped, es) && k.paused == Paused(c, es) && k.cap == Cap(h, c, es)
  {
    StepOfStop(c.stopped, es);
  }

  // What a heeded command leaves pending, entry by entry.

  lemma InjectionOfCommand(h: Host, m: Control, d: Dict)
    ensures var k := Effects(h, m, d).0;
            if GetsToOneShots(h, m.cap, d) && TruthyAt(d, "pending_injection") && !InjectionBreaks(d)
            then k.injection.Some? && IsInjection(h, d["pending_injection"], k.injection.value) else k.injection == m.injection
  {
    if TruthyAt(d, "pending_injection") { InjectionIsRead(h, d["pending_injection"]); }
  }

  lemma ExcisionOfCommand(h: Host, m: Control, d: Dict)
    ensures var k := Effects(h, m, d).0;
            if GetsToOneShots(h, m.cap, d) && TruthyAt(d, "pending_excision") && !InjectionBreaks(d) && !ExcisionBreaks(h, d)
            then k.excision.Some? && IsExcision(h, d["pending_excision"], k.excision.value) else k.excision == m.excision
  {
    if TruthyAt(d, "pending_excision") { ExcisionIsRead(h, d["pending_excision"]); }
  }

  lemma ReplanOfCommand(h: Host, m: Control, d: Dict)
    ensures var k := Effects(h, m, d).0;
            if GetsToOneShots(h, m.cap, d) && TruthyAt(d, "replan")
            then k.replan.Some? && IsReplan(h, d["replan"], k.replan.value) else k.replan == m.replan
  {
    if TruthyAt(d, "replan") { ReplanIsRead(h, d["replan"]); }
  }

  lemma PendingsOfEvent(h: Host, c: Control, es: seq<Event>, m: Control)
    requires es != [] && Means(h, c, Init(es), m)
    ensures var k := Do(h, m, Last(es));
            PendingInjection(h, c, es, k.injection) && PendingExcision(h, c, es, k.excision) && PendingReplan(h, c, es, k.replan)
  {
    match Last(es)
    case Accepted(_, d) =>
      InjectionOfCommand(h, m, d);
      ExcisionOfCommand(h, m, d);
      ReplanOfCommand(h, m, d);
    case _ =>
  }

  lemma {:induction false} FoldMeans(h: Host, c: Control, es: seq<Event>)
    ensures Means(h, c, es, Fold(h, c, es))
    decreases |es|
  {
    if es != [] {
      FoldMeans(h, c, Init(es));
      FoldLast(h, c, es);
      FlagsOfEvent(h, c, es, Fold(h, c, Init(es)));
      PendingsOfEvent(h, c, es, Fold(h, c, Init(es)));
    }
  }

  lemma FoldLast(h: Host, c: Control, es: seq<Event>)
    requires es != []
    ensures Fold(h, c, es) == Do(h, Fold(h, c, Init(es)), Last(es))
  {
    FoldAppend(h, c, Init(es), [Last(es)]);
    assert Init(es) + [Last(es)] == es && [Last(es)][1..] == [];
  }

  // ---- runs -------------------------------------------------------------------------------------

  lemma FoldOne(h: Host, c: Control, e: Event)
    ensures Fold(h, c, [e]) == Do(h, c, e)
  {
    assert [e][1..] == [];
  }

  lemma AppliedIsHeard(h: Host, n: Node, version: int, d: Dict)
    ensures var es := if n.version < version then [Accepted(version, d)] else [];
            Apply(h, n, version, d).0.ctl == Fold(h, n.ctl, es)
    ensures Apply(h, n, version, d).0.version == if n.version < version then version else n.version
  {
    FoldOne(h, n.ctl, Accepted(version, d));
  }

  lemma {:induction false} ReplayIsHeard(h: Host, n: Node, cs: seq<Command>, last: AppliedEffect)
    ensures Replay(h, n, cs, last).0.ctl == Fold(h, n.ctl, NewOnes(h, n.ctl.stopped, n.ctl.cap, n.version, cs))
    decreases |cs|
  {
    if cs != [] {
      var d := cs[0].delta;
      if cs[0].version <= n.version {
        ReplayIsHeard(h, n, cs[1..], last);
      } else {
        var (n1, effect) := Apply(h, n, cs[0].version, d);
        var e := Accepted(cs[0].version, d);
        BreaksIff(h, n.ctl, d);
        FoldOne(h, n.ctl, e);
        if effect == Raised {
          assert [e] + [] == [e];
        } else {
          OneEventOn(h, n.ctl, e);
          ReplayIsHeard(h, n1, cs[1..], effect);
          FoldAppend(h, n.ctl, [e], NewOnes(h, n1.ctl.stopped, n1.ctl.cap, n1.version, cs[1..]));
        }
      }
    }
  }

  lemma OneEventOn(h: Host, c: Control, e: Event)
    requires e.Accepted?
    ensures var k := Do(h, c, e);
            && k.stopped == (c.stopped || TruthyAt(e.delta, "stopped"))
            && k.cap == if !c.stopped && AskedCap(h, e.delta).Some? && !Widens(h, c.cap, e.delta) then AskedCap(h, e.delta) else c.cap
  {}

  lemma StepIsHeard(h: Host, n: Node, op: Op)
    ensures Step(h, n, op).ctl == Fold(h, n.ctl, Heard(h, n, op))
  {
    match op
    case Snapshot(version, state, raws) =>
      if h.config.operatorKeys == map[] {
        AppliedIsHeard(h, n, version, ToDict(state));
      } else if Accepts(h, state, raws) {
        ReplayIsHeard(h, n, InOrder(Commands(h, raws)), Applied);
      }
    case Delta(version, delta, _, _, _) => AppliedIsHeard(h, n, version, delta);
    case DrainInjection => FoldOne(h, n.ctl, Drained(Injections));
    case DrainExcision(_) => FoldOne(h, n.ctl, Drained(Excisions));
    case DrainReplan => FoldOne(h, n.ctl, Drained(Replans));
    case HoldOnDisconnect => FoldOne(h, n.ctl, Held);
  }

  lemma {:induction false} RunIsHeard(h: Host, n: Node, ops: seq<Op>)
    ensures Run(h, n, ops).ctl == Fold(h, n.ctl, History(h, n, ops))
    decreases |ops|
  {
    if ops != [] {
      var n1 := Step(h, n, ops[0]);
      StepIsHeard(h, n, ops[0]);
      RunIsHeard(h, n1, ops[1..]);
      FoldAppend(h, n.ctl, Heard(h, n, ops[0]), History(h, n1, ops[1..]));
    }
  }

  /**
    The posture of any run, told from the entries of the commands it accepted: stopped exactly when one of
    them orders it; paused as the last word says; the last cap that did not widen; and of each kind of
    one-shot the last one named and not drained, with its texts.
   */
  lemma RunMeans(h: Host, n: Node, ops: seq<Op>)
    ensures Means(h, n.ctl, History(h, n, ops), Run(h, n, ops).ctl)
  {
    RunIsHeard(h, n, ops);
    FoldMeans(h, n.ctl, History(h, n, ops));
  }

  /** A stop is a stop: signed by a configured operator, new, and truthy, it stops the node there and then. */
  lemma StopStops(h: Host, n: Node, version: int, d: Dict, operator: Value, timestamp: Value, sig: Value)
    requires Verify(h, version, d, operator, timestamp, sig) == Trusted && n.version < version
    ensures var m := Step(h, n, Delta(version, d, operator, timestamp, sig));
            && (m.ctl.stopped <==> n.ctl.stopped || TruthyAt(d, "stopped"))
            && (m.ctl.stopped ==> !AdmitIntent(m))
            && (!n.ctl.stopped && "paused" in d ==> m.ctl.paused == Truthy(d["paused"]))
            && m.version == version
  {
    var op := Delta(version, d, operator, timestamp, sig);
    var es := [Accepted(version, d)];
    StepIsHeard(h, n, op);
    FoldMeans(h, n.ctl, es);
    AppliedIsHeard(h, n, version, d);
    assert Init(es) == [] && Last(es) == es[0];
    StepOfStop(n.ctl.stopped, es);
  }

  // ---- signatures -------------------------------------------------------------------------------

  /** With keys configured: trusted exactly with a good signature of a configured operator over this very command. */
  lemma TrustedIff(h: Host, version: int, d: Dict, operator: Value, timestamp: Value, sig: Value)
    requires h.config.operatorKeys != map[]
    ensures Verify(h, version, d, operator, timestamp, sig) == Trusted <==>
      && operator.Str? && operator.s in h.config.operatorKeys
      && h.py.canonical(Message(h.config.nodeId, version, d, timestamp)).Some?
      && h.py.check(h.config.operatorKeys[operator.s], h.py.canonical(Message(h.config.nodeId, version, d, timestamp)).value, sig) == Good
  {}

  /** It is refused in the name of its operator, who is unknown or whose key does not check; nothing else is refused. */
  lemma RefusedIff(h: Host, version: int, d: Dict, operator: Value, timestamp: Value, sig: Value, why: Refusal)
    requires h.config.operatorKeys != map[]
    ensures Verify(h, version, d, operator, timestamp, sig) == Refused(why) <==>
            var m := h.py.canonical(Message(h.config.nodeId, version, d, timestamp));
            && !operator.Arr? && !operator.Obj? && m.Some? && why == BadOperator(operator)
            && (operator.Str? && operator.s in h.config.operatorKeys ==> h.py.check(h.config.operatorKeys[operator.s], m.value, sig) == Bad)
  {}

  /** A good delta is never refused, and a new one is taken. */
  lemma GoodDeltasAreTaken(h: Host, n: Node, version: int, d: Dict, operator: string, timestamp: Value, sig: Value, bytes: Bytes)
    requires operator in h.config.operatorKeys && h.py.canonical(Message(h.config.nodeId, version, d, timestamp)) == Some(bytes)
    requires h.py.check(h.config.operatorKeys[operator], bytes, sig) == Good
    ensures var (m, effect) := DeltaStep(h, n, version, d, Str(operator), timestamp, sig);
            !effect.SigInvalid? && m.version == if n.version < version then version else n.version
  {
    assert h.config.operatorKeys != map[];
    AppliedIsHeard(h, n, version, d);
  }

  // ---- the entries of a snapshot ----------------------------------------------------------------

  /** What counts as a number: a number, or a truth value as 0 or 1; an infinite one overflows. */
  lemma NumbersAreRead(h: Host, v: Value, n: int)
    ensures IntOf(h, Int(n)) == Whole(n) && IntOf(h, Bool(false)) == Whole(0) && IntOf(h, Bool(true)) == Whole(1)
    ensures IntOf(h, v) == Overflow <==> v.Infinity?
    ensures v.Str? || v.Float? ==> ToInt(h, v) == h.py.otherInt(v)
  {}

  /** The entry under a name, where an object is given. */
  predicate Holds(raw: Value, name: string, v: Value)
  {
    raw.Obj? && Get(raw.fields, name) == Some(v)
  }

  /** A raw entry is that command: each part of it stands under its own name. */
  ghost predicate IsCommand(h: Host, raw: Value, c: Command)
  {
    && Holds(raw, "operator", Str(c.operator)) && Holds(raw, "timestamp", Str(c.timestamp)) && Holds(raw, "sig", Str(c.sig))
    && (exists v :: Holds(raw, "version", v) && ToInt(h, v) == Some(c.version))
    && (exists v :: Holds(raw, "delta", v) && (if v.Obj? then c.delta == ToDict(v.fields) else h.py.otherDict(v) == Some(c.delta)))
  }

  lemma CommandIsRead(h: Host, raw: Value, c: Command)
    ensures ParseCommand(h, raw) == Some(c) <==> IsCommand(h, raw, c)
  {
    if ParseCommand(h, raw) == Some(c) {
      assert Holds(raw, "version", Get(raw.fields, "version").value) && Holds(raw, "delta", Get(raw.fields, "delta").value);
    }
  }

  /** With keys configured an entry is trusted exactly when it is a command under a good signature of its operator. */
  lemma EntryIsTrustedIff(h: Host, raw: Value)
    requires h.config.operatorKeys != map[]
    ensures VerifyRaw(h, raw) == Trusted <==>
            exists c :: && IsCommand(h, raw, c) && c.operator in h.config.operatorKeys
                        && h.py.canonical(Message(h.config.nodeId, c.version, c.delta, Str(c.timestamp))).Some?
                        && h.py.check(h.config.operatorKeys[c.operator],
                                      h.py.canonical(Message(h.config.nodeId, c.version, c.delta, Str(c.timestamp))).value,
                                      Str(c.sig)) == Good
  {
    forall c ensures ParseCommand(h, raw) == Some(c) <==> IsCommand(h, raw, c) { CommandIsRead(h, raw, c); }
    var o := ParseCommand(h, raw);
    if o.Some? {
      var c := o.value;
      assert IsCommand(h, raw, c);
      TrustedIff(h, c.version, c.delta, Str(c.operator), Str(c.timestamp), Str(c.sig));
    }
  }

  /** An entry that is no command is refused as malformed, unless its version is an infinite number, which raises. */
  lemma EntryIsMalformedIff(h: Host, raw: Value)
    ensures VerifyRaw(h, raw) == Refused(Malformed) <==>
            (forall c :: !IsCommand(h, raw, c)) && !exists negative :: Holds(raw, "version", Infinity(negative))
  {
    forall c ensures ParseCommand(h, raw) == Some(c) <==> IsCommand(h, raw, c) { CommandIsRead(h, raw, c); }
    if ParseCommand(h, raw).Some? { assert IsCommand(h, raw, ParseCommand(h, raw).value); }
    if Overflows(h, raw) {
      var v := Get(raw.fields, "version").value;
      assert Holds(raw, "version", Infinity(v.negative));
    }
  }

  /** The first entry that is not trusted. */
  predicate FirstUntrusted(h: Host, raws: seq<Value>, i: nat)
  {
    i < |raws| && VerifyRaw(h, raws[i]) != Trusted && forall j :: 0 <= j < i ==> VerifyRaw(h, raws[j]) == Trusted
  }

  lemma {:induction false} FirstUntrustedDecides(h: Host, raws: seq<Value>) returns (i: nat)
    ensures VerifyAll(h, raws) == Trusted ==> forall j :: 0 <= j < |raws| ==> VerifyRaw(h, raws[j]) == Trusted
    ensures VerifyAll(h, raws) != Trusted ==> FirstUntrusted(h, raws, i) && VerifyAll(h, raws) == VerifyRaw(h, raws[i])
  {
    i := 0;
    if raws != [] && VerifyRaw(h, raws[0]) == Trusted {
      var k := FirstUntrustedDecides(h, raws[1..]);
      i := k + 1;
      assert forall j :: 0 < j < |raws| ==> raws[j] == raws[1..][j - 1];
    }
  }

  /** The first key of the state that was not signed last as it stands. */
  ghost predicate FirstUnsigned(cs: seq<Command>, state: seq<Field>, k: nat)
  {
    k < |state| && !SignedLast(cs, state[k]) && forall j :: 0 <= j < k ==> SignedLast(cs, state[j])
  }

  lemma SignedLastIff(cs: seq<Command>, f: Field)
    ensures SignedLast(cs, f) <==> f.key in SignedValues(cs) && PyEq(SignedValues(cs)[f.key], f.value)
  {
    SignedValuesMeaning(cs, f.key);
  }

  lemma {:induction false} FirstUnsignedDecides(cs: seq<Command>, state: seq<Field>) returns (k: nat)
    ensures var u := Unaccounted(state, SignedValues(cs));
            && (u.None? ==> forall j :: 0 <= j < |state| ==> SignedLast(cs, state[j]))
            && (u.Some? ==> && FirstUnsigned(cs, state, k)
                            && u.value == if exists i: nat :: LastWriter(cs, i, state[k].key) then NotWhatWasSigned(state[k].key)
                                          else UnsignedKey(state[k].key))
  {
    k := 0;
    if state != [] {
      SignedLastIff(cs, state[0]);
      SignedValuesMeaning(cs, state[0].key);
      if SignedLast(cs, state[0]) {
        var j := FirstUnsignedDecides(cs, state[1..]);
        k := j + 1;
        assert forall j :: 0 < j < |state| ==> state[j] == state[1..][j - 1];
      }
    }
  }

  /**
    A snapshot that is refused is refused for its first entry that is not trusted; or, all of them trusted, for its
    first key that was not signed last as it stands, told apart by whether it was signed at all.
   */
  lemma SnapshotRefusals(h: Host, n: Node, version: int, state: seq<Field>, raws: seq<Value>, why: Refusal) returns (i: nat, k: nat)
    requires h.config.operatorKeys != map[] && SnapshotStep(h, n, version, state, raws).1 == SigInvalid(why)
    ensures SnapshotStep(h, n, version, state, raws).0 == n.(outbox := n.outbox + [StateApplied(version, SigInvalid(why))])
    ensures var cs := InOrder(Commands(h, raws));
            if VerifyAll(h, raws) != Trusted then FirstUntrusted(h, raws, i) && VerifyRaw(h, raws[i]) == Refused(why)
            else FirstUnsigned(cs, state, k)
                 && why == if exists j: nat :: LastWriter(cs, j, state[k].key) then NotWhatWasSigned(state[k].key) else UnsignedKey(state[k].key)
  {
    i := FirstUntrustedDecides(h, raws);
    k := FirstUnsignedDecides(InOrder(Commands(h, raws)), state);
    if VerifyAll(h, raws) == Trusted {
      ReplayIsNoRefusal(h, n, InOrder(Commands(h, raws)), Applied);
    }
  }

  lemma {:induction false} ReplayIsNoRefusal(h: Host, n: Node, cs: seq<Command>, last: AppliedEffect)
    requires !last.SigInvalid?
    ensures !Replay(h, n, cs, last).1.SigInvalid?
    decreases |cs|
  {
    if cs != [] {
      if cs[0].version <= n.version {
        ReplayIsNoRefusal(h, n, cs[1..], last);
      } else {
        var (n1, effect) := Apply(h, n, cs[0].version, cs[0].delta);
        if effect != Raised { ReplayIsNoRefusal(h, n1, cs[1..], effect); }
      }
    }
  }

  // ---- reports ----------------------------------------------------------------------------------

  /** What a delta leaves in the outbox: one report of a refusal or an absorption, and nothing otherwise. */
  lemma DeltaReports(h: Host, n: Node, version: int, d: Dict, operator: Value, timestamp: Value, sig: Value)
    ensures var (m, effect) := DeltaStep(h, n, version, d, operator, timestamp, sig);
            && m.outbox == n.outbox + (if effect.SigInvalid? || effect.NoopAbsorbed? || effect.RejectedWidening?
                                       then [StateApplied(version, effect)] else [])
            && (Verify(h, version, d, operator, timestamp, sig) == Trusted ==>
                  effect == if version <= n.version then NoopStale(version)
                            else if n.ctl.stopped then NoopAbsorbed
                            else if Breaks(h, n.ctl.cap, d) then Raised
                            else if Widens(h, n.ctl.cap, d) then RejectedWidening(AskedCap(h, d).value, n.ctl.cap.value)
                            else Applied)
  {
    BreaksIff(h, n.ctl, d);
  }
}
