/** What no run of the session can do: fire a one-shot twice, come back from a stop, or widen the budget. */
module PlaneSafety {
  import opened Basics
  import opened Json
  import opened PlaneState
  import opened PlaneRuns

  // ---- one-shots --------------------------------------------------------------------------------

  /** The id of the one-shot an operation hands to the runtime. */
  function Delivery(h: Host, n: Node, op: Op): Option<string>
  {
    match op
    case DrainInjection =>
      var taken := TakeInjection(h, n).1;
      if taken.Some? then Some(taken.value.id) else None
    case DrainExcision(provenance) =>
      var taken := TakeExcision(h, n, provenance).1;
      if taken.Some? then Some(taken.value.id) else None
    case DrainReplan =>
      var taken := TakeReplan(n).1;
      if taken.Some? then Some(taken.value.id) else None
    case _ => None
  }

  function Singleton<T>(o: Option<T>): seq<T>
  {
    if o.Some? then [o.value] else []
  }

  function Delivered(h: Host, n: Node, ops: seq<Op>): seq<string>
    decreases |ops|
  {
    if ops == [] then []
    else Singleton(Delivery(h, n, ops[0])) + Delivered(h, Step(h, n, ops[0]), ops[1..])
  }

  function AckedId(ack: Ack): Option<string>
  {
    match ack
    case InjectionConsumed(id) => Some(id)
    case ContextExcision(id, _, _, _, _) => Some(id)
    case ReplanApplied(id) => Some(id)
    case _ => None
  }

  /** The ids the outbox reports as delivered. */
  function AckedIds(acks: seq<Ack>): seq<string>
  {
    if acks == [] then [] else AckedIds(Init(acks)) + Singleton(AckedId(Last(acks)))
  }

  lemma AckedIdsGrow(acks: seq<Ack>, ack: Ack)
    ensures AckedIds(acks + [ack]) == AckedIds(acks) + Singleton(AckedId(ack))
  {
    assert Init(acks + [ack]) == acks;
  }

  /** `m` came from `n` by handing out `ids`. */
  ghost predicate HandedOut(n: Node, ids: seq<string>, m: Node)
  {
    && AckedIds(m.outbox) == AckedIds(n.outbox) + ids
    && (forall id :: id != "" ==> (id in m.consumed <==> id in n.consumed || id in ids))
    && (forall i :: 0 <= i < |ids| && ids[i] != "" ==> ids[i] !in n.consumed)
    && (forall i, j :: 0 <= i < j < |ids| && ids[i] == ids[j] ==> ids[i] == "")
  }

  lemma HandedOutTrans(n: Node, ids: seq<string>, m: Node, more: seq<string>, k: Node)
    requires HandedOut(n, ids, m) && HandedOut(m, more, k)
    ensures HandedOut(n, ids + more, k)
  {
    var all := ids + more;
    forall i, j | 0 <= i < j < |all| && all[i] == all[j] ensures all[i] == "" {
      if i < |ids| <= j {
        assert ids[i] == more[j - |ids|];
      }
    }
  }

  lemma AckedOne(n: Node, ack: Ack, m: Node)
    requires m.outbox == n.outbox + [ack]
    requires AckedId(ack).Some? ==> AckedId(ack).value == "" || AckedId(ack).value !in n.consumed
    requires forall id :: id != "" ==> (id in m.consumed <==> id in n.consumed || AckedId(ack) == Some(id))
    ensures HandedOut(n, Singleton(AckedId(ack)), m)
  {
    AckedIdsGrow(n.outbox, ack);
  }

  lemma NothingHandedOut(n: Node, m: Node)
    requires m.outbox == n.outbox && m.consumed == n.consumed
    ensures HandedOut(n, [], m)
  {}

  lemma ReportHandsOutNothing(n: Node, effect: AppliedEffect, version: int)
    ensures HandedOut(n, [], Reported(n, effect, version))
  {
    if effect != Applied {
      AckedOne(n, StateApplied(version, effect), Reported(n, effect, version));
    } else {
      NothingHandedOut(n, n);
    }
  }

  lemma ApplyReports(h: Host, n: Node, version: int, d: Dict)
    ensures var (m, effect) := Apply(h, n, version, d);
            && m.consumed == n.consumed
            && (m.outbox == n.outbox || m.outbox == n.outbox + [StateApplied(version, effect)])
  {}

  lemma ApplyHandsOutNothing(h: Host, n: Node, version: int, d: Dict)
    ensures HandedOut(n, [], Apply(h, n, version, d).0)
  {
    ApplyReports(h, n, version, d);
    var (m, effect) := Apply(h, n, version, d);
    if m.outbox == n.outbox {
      NothingHandedOut(n, m);
    } else {
      AckedOne(n, StateApplied(version, effect), m);
    }
  }

  lemma {:induction false} ReplayHandsOutNothing(h: Host, n: Node, cs: seq<Command>, last: AppliedEffect)
    ensures HandedOut(n, [], Replay(h, n, cs, last).0)
    decreases |cs|
  {
    if cs != [] {
      var (n1, effect) := Apply(h, n, cs[0].version, cs[0].delta);
      if cs[0].version <= n.version {
        ReplayHandsOutNothing(h, n, cs[1..], last);
      } else {
        ApplyHandsOutNothing(h, n, cs[0].version, cs[0].delta);
        if effect != Raised {
          ReplayHandsOutNothing(h, n1, cs[1..], effect);
          HandedOutTrans(n, [], n1, [], Replay(h, n1, cs[1..], effect).0);
        }
      }
    }
  }

  lemma SnapshotHandsOutNothing(h: Host, n: Node, version: int, state: seq<Field>, raws: seq<Value>)
    ensures HandedOut(n, [], SnapshotStep(h, n, version, state, raws).0)
  {
    if h.config.operatorKeys == map[] {
      ApplyHandsOutNothing(h, n, version, ToDict(state));
    } else if SnapshotStep(h, n, version, state, raws).1.SigInvalid? && VerifyAll(h, raws) != Trusted {
      ReportHandsOutNothing(n, SigInvalid(VerifyAll(h, raws).why), version);
    } else if VerifyAll(h, raws) == Trusted {
      var cs := InOrder(Commands(h, raws));
      ReplayHandsOutNothing(h, n, cs, Applied);
      if Unaccounted(state, SignedValues(cs)).Some? {
        ReportHandsOutNothing(n, SigInvalid(Unaccounted(state, SignedValues(cs)).value), version);
      }
    }
  }

  lemma InjectionHandsOut(h: Host, n: Node)
    ensures HandedOut(n, Singleton(Delivery(h, n, DrainInjection)), TakeInjection(h, n).0)
  {
    var (m, taken) := TakeInjection(h, n);
    if m.outbox == n.outbox {
      NothingHandedOut(n, m);
    } else if taken.None? {
      AckedOne(n, Last(m.outbox), m);
    } else {
      AckedOne(n, InjectionConsumed(taken.value.id), m);
    }
  }

  lemma ExcisionHandsOut(h: Host, n: Node, provenance: map<string, string>)
    ensures HandedOut(n, Singleton(Delivery(h, n, DrainExcision(provenance))), TakeExcision(h, n, provenance).0)
  {
    var (m, taken) := TakeExcision(h, n, provenance);
    if m.outbox == n.outbox {
      NothingHandedOut(n, m);
    } else if taken.None? {
      AckedOne(n, Last(m.outbox), m);
    } else {
      var exc := taken.value;
      AckedOne(n, ContextExcision(exc.id, exc.refs, ProvenanceOf(exc.refs, provenance), exc.operator, exc.reason), m);
    }
  }

  lemma ReplanHandsOut(h: Host, n: Node)
    ensures HandedOut(n, Singleton(Delivery(h, n, DrainReplan)), TakeReplan(n).0)
  {
    var (m, taken) := TakeReplan(n);
    if m.outbox == n.outbox {
      NothingHandedOut(n, m);
    } else if taken.None? {
      AckedOne(n, Last(m.outbox), m);
    } else {
      AckedOne(n, ReplanApplied(taken.value.id), m);
    }
  }

  lemma StepHandsOut(h: Host, n: Node, op: Op)
    ensures HandedOut(n, Singleton(Delivery(h, n, op)), Step(h, n, op))
  {
    match op
    case Snapshot(version, state, raws) => SnapshotHandsOutNothing(h, n, version, state, raws);
    case Delta(version, delta, operator, timestamp, sig) =>
      ApplyHandsOutNothing(h, n, version, delta);
      ReportHandsOutNothing(n, DeltaStep(h, n, version, delta, operator, timestamp, sig).1, version);
    case HoldOnDisconnect =>
    case DrainInjection => InjectionHandsOut(h, n);
    case DrainExcision(provenance) => ExcisionHandsOut(h, n, provenance);
    case DrainReplan => ReplanHandsOut(h, n);
  }

  /**
    At most once: over a whole run the three channels together hand out no non-empty id twice, nor one
    that was consumed before; the delivery acks are exactly the deliveries, in order, and the consumed
    ids grow by exactly the delivered ones.
   */
  lemma {:induction false} OneShotsFireOnce(h: Host, n: Node, ops: seq<Op>)
    ensures var ids := Delivered(h, n, ops);
            var m := Run(h, n, ops);
            && (forall i, j :: 0 <= i < j < |ids| && ids[i] == ids[j] ==> ids[i] == "")
            && (forall i :: 0 <= i < |ids| && ids[i] != "" ==> ids[i] !in n.consumed)
            && AckedIds(m.outbox) == AckedIds(n.outbox) + ids
            && (forall id :: id != "" ==> (id in m.consumed <==> id in n.consumed || id in ids))
    decreases |ops|
  {
    if ops != [] {
      var n1 := Step(h, n, ops[0]);
      StepHandsOut(h, n, ops[0]);
      OneShotsFireOnce(h, n1, ops[1..]);
      HandedOutTrans(n, Singleton(Delivery(h, n, ops[0])), n1, Delivered(h, n1, ops[1..]), Run(h, n1, ops[1..]));
    }
  }

  /** The ids that injections and excisions deliver: these two channels remember every id, the empty one too. */
  function DeliveredRemembered(h: Host, n: Node, ops: seq<Op>): seq<string>
    decreases |ops|
  {
    if ops == [] then []
    else (if ops[0].DrainReplan? then [] else Singleton(Delivery(h, n, ops[0]))) + DeliveredRemembered(h, Step(h, n, ops[0]), ops[1..])
  }

  lemma RememberedOnce(h: Host, n: Node, op: Op, id: string)
    ensures id in n.consumed ==> id in Step(h, n, op).consumed
    ensures !op.DrainReplan? && Delivery(h, n, op) == Some(id) ==> id !in n.consumed && id in Step(h, n, op).consumed
  {
    match op
    case Snapshot(version, state, raws) => SnapshotKeepsConsumed(h, n, version, state, raws);
    case Delta(version, delta, operator, timestamp, sig) => ApplyReports(h, n, version, delta);
    case _ =>
  }

  lemma {:induction false} ReplayKeepsConsumed(h: Host, n: Node, cs: seq<Command>, last: AppliedEffect)
    ensures Replay(h, n, cs, last).0.consumed == n.consumed
    decreases |cs|
  {
    if cs != [] {
      var (n1, effect) := Apply(h, n, cs[0].version, cs[0].delta);
      ApplyReports(h, n, cs[0].version, cs[0].delta);
      if cs[0].version <= n.version {
        ReplayKeepsConsumed(h, n, cs[1..], last);
      } else if effect != Raised {
        ReplayKeepsConsumed(h, n1, cs[1..], effect);
      }
    }
  }

  lemma SnapshotKeepsConsumed(h: Host, n: Node, version: int, state: seq<Field>, raws: seq<Value>)
    ensures SnapshotStep(h, n, version, state, raws).0.consumed == n.consumed
  {
    if h.config.operatorKeys == map[] {
      ApplyReports(h, n, version, ToDict(state));
    } else if VerifyAll(h, raws) == Trusted {
      ReplayKeepsConsumed(h, n, InOrder(Commands(h, raws)), Applied);
    }
  }

  /** No id twice, and none that `n` has consumed. */
  predicate OnceSince(n: Node, ids: seq<string>)
  {
    && (forall i, j :: 0 <= i < j < |ids| ==> ids[i] != ids[j])
    && (forall i :: 0 <= i < |ids| ==> ids[i] !in n.consumed)
  }

  lemma OnceMore(n: Node, first: Option<string>, n1: Node, rest: seq<string>)
    requires OnceSince(n1, rest) && n.consumed <= n1.consumed
    requires first.Some? ==> first.value !in n.consumed && first.value in n1.consumed
    ensures OnceSince(n, Singleton(first) + rest)
  {
    var ids := Singleton(first) + rest;
    assert forall i :: |Singleton(first)| <= i < |ids| ==> ids[i] == rest[i - |Singleton(first)|];
  }

  /** Injections and excisions go out at most once per id over a whole run, the empty id included. */
  lemma {:induction false} RememberedFireOnce(h: Host, n: Node, ops: seq<Op>)
    ensures OnceSince(n, DeliveredRemembered(h, n, ops))
    decreases |ops|
  {
    if ops != [] {
      var n1 := Step(h, n, ops[0]);
      var first := if ops[0].DrainReplan? then None else Delivery(h, n, ops[0]);
      forall id | id in n.consumed ensures id in n1.consumed {
        RememberedOnce(h, n, ops[0], id);
      }
      if first.Some? { RememberedOnce(h, n, ops[0], first.value); }
      RememberedFireOnce(h, n1, ops[1..]);
      OnceMore(n, first, n1, DeliveredRemembered(h, n1, ops[1..]));
    }
  }

  /** A replan without an id is never remembered: sent again, it fires again; with an id it does not. */
  lemma ReplanFiresAgainIffUnnamed(n: Node, rp: Replan)
    requires !n.ctl.stopped && n.ctl.replan == Some(rp) && (rp.id == "" || rp.id !in n.consumed)
    ensures TakeReplan(n).1 == Some(rp)
    ensures var again := TakeReplan(n).0.(ctl := n.ctl);
            TakeReplan(again).1 == Some(rp) <==> rp.id == ""
  {}

  /** The guard refuses exactly the targets that operator configuration put there. */
  ghost predicate GuardsOperatorConfig(h: Host)
  {
    forall exc, provenance, r :: r in h.py.refusedRefs(exc, provenance) <==>
      r in exc.refs && r in provenance && provenance[r] == "operator_config"
  }

  lemma {:induction false} ProvenanceMeaning(refs: seq<string>, provenance: map<string, string>)
    ensures ProvenanceOf(refs, provenance) == map r | r in refs :: if r in provenance then provenance[r] else "runtime"
  {
    if refs != [] {
      ProvenanceMeaning(Init(refs), provenance);
      assert forall r :: r in refs <==> r in Init(refs) || r == Last(refs);
    }
  }

  /** An excision is handed out whole or not at all, and never reaches operator configuration. */
  lemma ExcisionsSpareOperatorConfig(h: Host, n: Node, provenance: map<string, string>)
    requires GuardsOperatorConfig(h)
    ensures var (m, taken) := TakeExcision(h, n, provenance);
            taken.Some? <==>
              && n.ctl.excision.Some?
              && n.ctl.excision.value.id !in n.consumed
              && "operator_config" !in ProvenanceOf(n.ctl.excision.value.refs, provenance).Values
    ensures TakeExcision(h, n, provenance).1.Some? ==> TakeExcision(h, n, provenance).1 == n.ctl.excision
  {
    if n.ctl.excision.Some? {
      var exc := n.ctl.excision.value;
      var refused := h.py.refusedRefs(exc, provenance);
      var known := ProvenanceOf(exc.refs, provenance);
      ProvenanceMeaning(exc.refs, provenance);
      if refused != [] {
        assert refused[0] in refused && known[refused[0]] == "operator_config";
      }
      if "operator_config" in known.Values {
        var r :| r in known && known[r] == "operator_config";
        assert r in refused;
      }
    }
  }

  // ---- stop -------------------------------------------------------------------------------------

  predicate Forgets<T(==)>(after: Option<T>, before: Option<T>)
  {
    after == before || after.None?
  }

  lemma {:induction false} ReplayOnStopped(h: Host, n: Node, cs: seq<Command>, last: AppliedEffect)
    requires n.ctl.stopped
    ensures Replay(h, n, cs, last).0.ctl == n.ctl && Replay(h, n, cs, last).0.consumed == n.consumed
    decreases |cs|
  {
    if cs != [] {
      var (n1, effect) := Apply(h, n, cs[0].version, cs[0].delta);
      if cs[0].version <= n.version {
        ReplayOnStopped(h, n, cs[1..], last);
      } else {
        ReplayOnStopped(h, n1, cs[1..], effect);
      }
    }
  }

  /** Nothing the plane sends, signed or not, steers a stopped node any more. */
  lemma StoppedIgnoresThePlane(h: Host, n: Node, op: Op)
    requires n.ctl.stopped && Downstream(op)
    ensures Step(h, n, op).ctl == n.ctl && Step(h, n, op).consumed == n.consumed
  {
    if op.Snapshot? {
      ReplayOnStopped(h, n, InOrder(Commands(h, op.commands)), Applied);
    }
  }

  /** From a stopped `n` to `m`: still stopped, the same cap, and pendings at most dropped. */
  predicate StillStopped(n: Node, m: Node)
  {
    && m.ctl.stopped && m.ctl.cap == n.ctl.cap
    && Forgets(m.ctl.injection, n.ctl.injection)
    && Forgets(m.ctl.excision, n.ctl.excision)
    && Forgets(m.ctl.replan, n.ctl.replan)
  }

  lemma StepOnStopped(h: Host, n: Node, op: Op)
    requires n.ctl.stopped
    ensures StillStopped(n, Step(h, n, op))
    ensures Step(h, n, op).ctl.paused == n.ctl.paused || op == HoldOnDisconnect
    ensures Delivery(h, n, op).Some? ==>
            && n.ctl.excision.Some? && Delivery(h, n, op).value == n.ctl.excision.value.id
            && Step(h, n, op).ctl.excision.None?
  {
    if Downstream(op) {
      StoppedIgnoresThePlane(h, n, op);
    }
  }

  /**
    Stop is final: the node stays stopped under its cap, pendings can only be dropped, no injection and
    no replan is handed out; the one thing that may still go out is an excision pending at the stop.
   */
  lemma {:induction false} StopIsFinal(h: Host, n: Node, ops: seq<Op>)
    requires n.ctl.stopped
    ensures StillStopped(n, Run(h, n, ops))
    ensures Run(h, n, ops).ctl.paused == n.ctl.paused || HoldOnDisconnect in ops
    ensures Delivered(h, n, ops) == [] ||
            (n.ctl.excision.Some? && Delivered(h, n, ops) == [n.ctl.excision.value.id])
    decreases |ops|
  {
    if ops != [] {
      StepOnStopped(h, n, ops[0]);
      StopIsFinal(h, Step(h, n, ops[0]), ops[1..]);
      assert HoldOnDisconnect in ops <==> ops[0] == HoldOnDisconnect || HoldOnDisconnect in ops[1..];
    }
  }

  /** A stop does not recall an excision: whether it goes out does not depend on the stop at all. */
  lemma PendingExcisionOutlivesStop(h: Host, n: Node, provenance: map<string, string>)
    ensures TakeExcision(h, n.(ctl := n.ctl.(stopped := true)), provenance).1
         == TakeExcision(h, n.(ctl := n.ctl.(stopped := false)), provenance).1
  {}

  // ---- budget -----------------------------------------------------------------------------------

  /** A set cap stays set and does not rise. */
  predicate NoWider(after: Option<int>, before: Option<int>)
  {
    before.Some? ==> after.Some? && after.value <= before.value
  }

  lemma ApplyNarrows(h: Host, n: Node, version: int, d: Dict)
    ensures NoWider(Apply(h, n, version, d).0.ctl.cap, n.ctl.cap) && n.version <= Apply(h, n, version, d).0.version
  {}

  lemma {:induction false} ReplayNarrows(h: Host, n: Node, cs: seq<Command>, last: AppliedEffect)
    ensures NoWider(Replay(h, n, cs, last).0.ctl.cap, n.ctl.cap)
    ensures n.version <= Replay(h, n, cs, last).0.version
    decreases |cs|
  {
    if cs != [] {
      var (n1, effect) := Apply(h, n, cs[0].version, cs[0].delta);
      ApplyNarrows(h, n, cs[0].version, cs[0].delta);
      if cs[0].version <= n.version {
        ReplayNarrows(h, n, cs[1..], last);
      } else if effect != Raised {
        ReplayNarrows(h, n1, cs[1..], effect);
      }
    }
  }

  lemma SnapshotNarrows(h: Host, n: Node, version: int, state: seq<Field>, raws: seq<Value>)
    ensures NoWider(SnapshotStep(h, n, version, state, raws).0.ctl.cap, n.ctl.cap)
    ensures n.version <= SnapshotStep(h, n, version, state, raws).0.version
  {
    if h.config.operatorKeys == map[] {
      ApplyNarrows(h, n, version, ToDict(state));
    } else if VerifyAll(h, raws) == Trusted {
      ReplayNarrows(h, n, InOrder(Commands(h, raws)), Applied);
    }
  }

  lemma StepNarrows(h: Host, n: Node, op: Op)
    ensures NoWider(Step(h, n, op).ctl.cap, n.ctl.cap) && n.version <= Step(h, n, op).version
  {
    match op
    case Snapshot(version, state, raws) => SnapshotNarrows(h, n, version, state, raws);
    case Delta(version, delta, _, _, _) => ApplyNarrows(h, n, version, delta);
    case _ =>
  }

  /** The budget only narrows, signed or not, and the version only rises. */
  lemma {:induction false} BudgetOnlyNarrows(h: Host, n: Node, ops: seq<Op>)
    ensures NoWider(Run(h, n, ops).ctl.cap, n.ctl.cap)
    ensures n.version <= Run(h, n, ops).version
    decreases |ops|
  {
    if ops != [] {
      StepNarrows(h, n, ops[0]);
      BudgetOnlyNarrows(h, Step(h, n, ops[0]), ops[1..]);
    }
  }

  lemma LocalCapHolds(h: Host, ops: seq<Op>)
    ensures h.config.localCap.Some? ==>
            Run(h, Fresh(h), ops).ctl.cap.Some? && Run(h, Fresh(h), ops).ctl.cap.value <= h.config.localCap.value
  {
    BudgetOnlyNarrows(h, Fresh(h), ops);
  }

  // ---- what a drain does ------------------------------------------------------------------------

  /** An injection goes out iff it is pending, not consumed, the node is not stopped, and it is a test bench. */
  lemma InjectionGoesOutIff(h: Host, n: Node)
    ensures var (m, taken) := TakeInjection(h, n);
            && (taken.Some? <==> n.ctl.injection.Some? && n.ctl.injection.value.id !in n.consumed && !n.ctl.stopped && h.config.testBench)
            && (taken.Some? ==> taken == n.ctl.injection && m.consumed == n.consumed + {taken.value.id})
            && (taken.None? ==> m.consumed == n.consumed)
            && m.ctl == n.ctl.(injection := None) && m.version == n.version
  {}

  /** What it tells the plane: the delivery, or why it was refused; a consumed one is dropped without a word. */
  lemma InjectionAck(h: Host, n: Node)
    ensures TakeInjection(h, n).0.outbox == n.outbox +
      match n.ctl.injection
      case None => []
      case Some(inj) =>
        if inj.id in n.consumed then []
        else if n.ctl.stopped then [InjectionRefused(inj.id, "stopped")]
        else if !h.config.testBench then [InjectionRefused(inj.id, "not test-bench")]
        else [InjectionConsumed(inj.id)]
  {}

  lemma ExcisionAck(h: Host, n: Node, provenance: map<string, string>)
    ensures var (m, taken) := TakeExcision(h, n, provenance);
            && m.outbox == n.outbox + (match n.ctl.excision
                 case None => []
                 case Some(x) =>
                   var refused := h.py.refusedRefs(x, provenance);
                   if x.id in n.consumed then []
                   else if refused != [] then [ExcisionRefused(x.id, refused)]
                   else [ContextExcision(x.id, x.refs, ProvenanceOf(x.refs, provenance), x.operator, x.reason)])
            && m.consumed == (if taken.Some? then n.consumed + {taken.value.id} else n.consumed)
            && m.ctl == n.ctl.(excision := None) && m.version == n.version
  {}

  /** A replan goes out iff it is pending, not consumed under a name, and the node is not stopped. */
  lemma ReplanGoesOutIff(n: Node)
    ensures var (m, taken) := TakeReplan(n);
            && (taken.Some? <==> n.ctl.replan.Some? && !n.ctl.stopped
                                 && (n.ctl.replan.value.id == "" || n.ctl.replan.value.id !in n.consumed))
            && (taken.Some? ==> taken == n.ctl.replan)
            && m.consumed == (if taken.Some? && taken.value.id != "" then n.consumed + {taken.value.id} else n.consumed)
            && m.ctl == n.ctl.(replan := None) && m.version == n.version
            && m.outbox == n.outbox + (match n.ctl.replan
                 case None => []
                 case Some(r) =>
                   if r.id != "" && r.id in n.consumed then []
                   else if n.ctl.stopped then [ReplanRefused(r.id)]
                   else [ReplanApplied(r.id)])
  {}

  /** The node admits intents exactly when it is neither paused nor stopped; a new one does. */
  lemma AdmitsIff(h: Host, n: Node)
    ensures AdmitIntent(n) <==> !n.ctl.paused && !n.ctl.stopped
    ensures AdmitIntent(Fresh(h)) && Fresh(h).version == 0 && Fresh(h).consumed == {} && Fresh(h).outbox == []
  {}
}
