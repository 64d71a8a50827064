/**
  Whole runs of the session, fed by a sender that may send anything: what the operators signed is
  all that steers the node, stop is final, the budget only narrows, and a one-shot fires once.
 */
module PlaneRuns {
  import opened Basics
  import opened Json
  import opened PlaneState

  /** Everything that happens to a session: arbitrary messages, drained one-shots, hold-on-disconnect. */
  datatype Op =
    | Snapshot(version: int, state: seq<Field>, commands: seq<Value>)
    | Delta(version: int, delta: Dict, operator: Value, timestamp: Value, sig: Value)
    | DrainInjection
    | DrainExcision(provenance: map<string, string>)
    | DrainReplan
    | HoldOnDisconnect

  predicate Downstream(op: Op)
  {
    op.Snapshot? || op.Delta?
  }

  function Step(h: Host, n: Node, op: Op): Node
  {
    match op
    case Snapshot(version, state, commands) => SnapshotStep(h, n, version, state, commands).0
    case Delta(version, delta, operator, timestamp, sig) => DeltaStep(h, n, version, delta, operator, timestamp, sig).0
    case DrainInjection => TakeInjection(h, n).0
    case DrainExcision(provenance) => TakeExcision(h, n, provenance).0
    case DrainReplan => TakeReplan(n).0
    case HoldOnDisconnect => n.(ctl := n.ctl.(paused := true))
  }

  function Run(h: Host, n: Node, ops: seq<Op>): Node
    decreases |ops|
  {
    if ops == [] then n else Run(h, Step(h, n, ops[0]), ops[1..])
  }

  // ---- every posture is a fold over authentic commands ------------------------------------------

  datatype Signature = Signature(key: string, message: Message)

  /** A signature verifies only over the canonical bytes of a message whose key holder issued it. */
  ghost predicate Unforgeable(h: Host, issued: iset<Signature>)
  {
    forall key, bytes, sig :: h.py.check(key, bytes, sig).Good? ==>
      exists m :: Signature(key, m) in issued && h.py.canonical(m) == Some(bytes)
  }

  ghost predicate CanonicalIsInjective(h: Host)
  {
    forall m, m' :: h.py.canonical(m).Some? && h.py.canonical(m) == h.py.canonical(m') ==> m == m'
  }

  /** A configured operator signed this command, at this version, for this node. */
  ghost predicate Authentic(h: Host, issued: iset<Signature>, version: int, d: Dict)
  {
    exists op, timestamp :: op in h.config.operatorKeys
      && Signature(h.config.operatorKeys[op], Message(h.config.nodeId, version, d, timestamp)) in issued
  }

  ghost predicate SigningWorks(h: Host, issued: iset<Signature>)
  {
    h.config.operatorKeys != map[] && Unforgeable(h, issued) && CanonicalIsInjective(h)
  }

  datatype Channel = Injections | Excisions | Replans

  datatype Event =
    | Accepted(version: int, delta: Dict)
    | Drained(channel: Channel)
    | Held

  function Do(h: Host, c: Control, e: Event): Control
  {
    match e
    case Accepted(_, delta) => if c.stopped then c else Effects(h, c, delta).0
    case Drained(Injections) => c.(injection := None)
    case Drained(Excisions) => c.(excision := None)
    case Drained(Replans) => c.(replan := None)
    case Held => c.(paused := true)
  }

  function Fold(h: Host, c: Control, es: seq<Event>): Control
    decreases |es|
  {
    if es == [] then c else Fold(h, Do(h, c, es[0]), es[1..])
  }

  /** The versions of the accepted commands increase strictly from `floor`; the last one is `ceiling`. */
  predicate Increasing(floor: int, es: seq<Event>, ceiling: int)
    decreases |es|
  {
    if es == [] then floor <= ceiling
    else if es[0].Accepted? then floor < es[0].version && Increasing(es[0].version, es[1..], ceiling)
    else Increasing(floor, es[1..], ceiling)
  }

  ghost predicate AllAuthentic(h: Host, issued: iset<Signature>, es: seq<Event>)
  {
    forall i :: 0 <= i < |es| && es[i].Accepted? ==> Authentic(h, issued, es[i].version, es[i].delta)
  }

  /** `es` explains how the node got from `n` to `m`. */
  ghost predicate Explains(h: Host, issued: iset<Signature>, n: Node, es: seq<Event>, m: Node)
  {
    && m.ctl == Fold(h, n.ctl, es)
    && Increasing(n.version, es, m.version)
    && AllAuthentic(h, issued, es)
  }

  lemma {:induction false} FoldAppend(h: Host, c: Control, es: seq<Event>, fs: seq<Event>)
    ensures Fold(h, c, es + fs) == Fold(h, Fold(h, c, es), fs)
    decreases |es|
  {
    if es == [] {
      assert es + fs == fs;
    } else {
      FoldAppend(h, Do(h, c, es[0]), es[1..], fs);
      assert (es + fs)[1..] == es[1..] + fs;
    }
  }

  lemma {:induction false} IncreasingAppend(a: int, es: seq<Event>, b: int, fs: seq<Event>, c: int)
    requires Increasing(a, es, b) && Increasing(b, fs, c)
    ensures Increasing(a, es + fs, c)
    decreases |es|
  {
    if es == [] {
      assert es + fs == fs;
      LowerFloor(a, b, fs, c);
    } else {
      IncreasingAppend(if es[0].Accepted? then es[0].version else a, es[1..], b, fs, c);
      assert (es + fs)[1..] == es[1..] + fs;
    }
  }

  lemma {:induction false} LowerFloor(a: int, b: int, es: seq<Event>, c: int)
    requires a <= b && Increasing(b, es, c)
    ensures Increasing(a, es, c)
  {
    if es != [] && !es[0].Accepted? {
      LowerFloor(a, b, es[1..], c);
    }
  }

  lemma ExplainsAppend(h: Host, issued: iset<Signature>, n: Node, es: seq<Event>, m: Node, fs: seq<Event>, k: Node)
    requires Explains(h, issued, n, es, m) && Explains(h, issued, m, fs, k)
    ensures Explains(h, issued, n, es + fs, k)
  {
    FoldAppend(h, n.ctl, es, fs);
    IncreasingAppend(n.version, es, m.version, fs, k.version);
  }

  lemma TrustedIsAuthentic(h: Host, issued: iset<Signature>, version: int, d: Dict, operator: Value, timestamp: Value, sig: Value)
    requires SigningWorks(h, issued)
    requires Verify(h, version, d, operator, timestamp, sig) == Trusted
    ensures Authentic(h, issued, version, d)
  {
    var key := h.config.operatorKeys[operator.s];
    var message := Message(h.config.nodeId, version, d, timestamp);
    var bytes := h.py.canonical(message).value;
    assert h.py.check(key, bytes, sig).Good?;
    var m :| Signature(key, m) in issued && h.py.canonical(m) == Some(bytes);
    assert m == message;
  }

  predicate IsCommand(e: Event)
  {
    e.Accepted?
  }

  predicate IsLocal(e: Event)
  {
    !e.Accepted?
  }

  function Commanded(es: seq<Event>): seq<Event>
  {
    Filter(IsCommand, es)
  }

  function LocalEvents(es: seq<Event>): seq<Event>
  {
    Filter(IsLocal, es)
  }

  /** What an operation on the node itself does to the posture; a message from the plane is none. */
  function LocalEvent(op: Op): seq<Event>
  {
    match op
    case DrainInjection => [Drained(Injections)]
    case DrainExcision(_) => [Drained(Excisions)]
    case DrainReplan => [Drained(Replans)]
    case HoldOnDisconnect => [Held]
    case _ => []
  }

  /** The events of one operation: commands that the message carried, or the local event itself. */
  ghost predicate Accounts(h: Host, op: Op, es: seq<Event>)
  {
    match op
    case Delta(version, delta, _, _, _) => es == [] || es == [Accepted(version, delta)]
    case Snapshot(_, _, raws) => forall i :: 0 <= i < |es| ==> CommandOf(Commands(h, raws), es[i])
    case _ => es == LocalEvent(op)
  }

  ghost predicate CommandOf(cs: seq<Command>, e: Event)
  {
    e.Accepted? && exists c :: c in cs && c.version == e.version && c.delta == e.delta
  }

  /** The events of a run are those of its operations, one after the other. */
  ghost predicate AccountsForAll(h: Host, ops: seq<Op>, es: seq<Event>)
    decreases |ops|
  {
    if ops == [] then es == []
    else exists k: nat :: k <= |es| && Accounts(h, ops[0], es[..k]) && AccountsForAll(h, ops[1..], es[k..])
  }

  function Locals(ops: seq<Op>): seq<Event>
  {
    if ops == [] then [] else LocalEvent(ops[0]) + Locals(ops[1..])
  }

  lemma LocalEventsOfOne(e: Event)
    ensures LocalEvents([e]) == if e.Accepted? then [] else [e]
  {
    FilterOne(IsLocal, e);
  }

  lemma LocalEventsAppend(es: seq<Event>, fs: seq<Event>)
    ensures LocalEvents(es + fs) == LocalEvents(es) + LocalEvents(fs)
  {
    FilterAppend(IsLocal, es, fs);
  }

  lemma ApplyExplained(h: Host, issued: iset<Signature>, n: Node, version: int, d: Dict) returns (es: seq<Event>)
    requires Authentic(h, issued, version, d)
    ensures Explains(h, issued, n, es, Apply(h, n, version, d).0) && LocalEvents(es) == []
    ensures es == [] || es == [Accepted(version, d)]
  {
    es := if version <= n.version then [] else [Accepted(version, d)];
    LocalEventsOfOne(Accepted(version, d));
    assert Fold(h, n.ctl, es) == if es == [] then n.ctl else Do(h, n.ctl, es[0]);
  }

  lemma {:induction false} VerifiedAll(h: Host, raws: seq<Value>)
    ensures VerifyAll(h, raws) == Trusted <==> forall i :: 0 <= i < |raws| ==> VerifyRaw(h, raws[i]) == Trusted
  {
    if raws != [] {
      VerifiedAll(h, raws[1..]);
      assert forall i :: 0 < i < |raws| ==> raws[i] == raws[1..][i - 1];
    }
  }

  lemma ByVersionIsTotal()
    ensures Sorting.TotalPreorder(ByVersion)
  {}

  /** Sorting keeps every command verified. */
  lemma OrderedAreVerified(h: Host, raws: seq<Value>)
    requires VerifyAll(h, raws) == Trusted
    ensures forall c :: c in InOrder(Commands(h, raws)) ==> VerifyCommand(h, c) == Trusted
  {
    var cs := Commands(h, raws);
    VerifiedAll(h, raws);
    ByVersionIsTotal();
    Sorting.SortSorts(ByVersion, cs);
    forall c | c in InOrder(cs) ensures VerifyCommand(h, c) == Trusted {
      assert c in multiset(InOrder(cs));
      var i := IndexOf(cs, c);
      assert VerifyRaw(h, raws[i]) == Trusted;
    }
  }

  lemma {:induction false} ReplayExplained(h: Host, issued: iset<Signature>, n: Node, cs: seq<Command>, last: AppliedEffect)
    returns (es: seq<Event>)
    requires SigningWorks(h, issued)
    requires forall c :: c in cs ==> VerifyCommand(h, c) == Trusted
    ensures Explains(h, issued, n, es, Replay(h, n, cs, last).0) && LocalEvents(es) == []
    ensures forall i :: 0 <= i < |es| ==> CommandOf(cs, es[i])
    decreases |cs|
  {
    es := [];
    if cs == [] {
    } else if cs[0].version <= n.version {
      es := ReplayExplained(h, issued, n, cs[1..], last);
      MoreCommands(cs, es);
    } else {
      var (n1, effect) := Apply(h, n, cs[0].version, cs[0].delta);
      es := CommandExplained(h, issued, n, cs);
      if effect != Raised {
        var fs := ReplayExplained(h, issued, n1, cs[1..], effect);
        es := BothExplained(h, issued, n, cs, es, n1, fs, Replay(h, n1, cs[1..], effect).0);
      }
    }
  }

  lemma CommandExplained(h: Host, issued: iset<Signature>, n: Node, cs: seq<Command>) returns (es: seq<Event>)
    requires SigningWorks(h, issued) && cs != [] && VerifyCommand(h, cs[0]) == Trusted
    ensures Explains(h, issued, n, es, Apply(h, n, cs[0].version, cs[0].delta).0) && LocalEvents(es) == []
    ensures forall i :: 0 <= i < |es| ==> CommandOf(cs, es[i])
  {
    var c := cs[0];
    TrustedIsAuthentic(h, issued, c.version, c.delta, Str(c.operator), Str(c.timestamp), Str(c.sig));
    es := ApplyExplained(h, issued, n, c.version, c.delta);
  }

  lemma BothExplained(h: Host, issued: iset<Signature>, n: Node, cs: seq<Command>, es: seq<Event>, n1: Node, fs: seq<Event>, m: Node)
    returns (all: seq<Event>)
    requires Explains(h, issued, n, es, n1) && Explains(h, issued, n1, fs, m) && LocalEvents(es) == [] && LocalEvents(fs) == []
    requires cs != [] && (forall i :: 0 <= i < |es| ==> CommandOf(cs, es[i])) && forall i :: 0 <= i < |fs| ==> CommandOf(cs[1..], fs[i])
    ensures Explains(h, issued, n, all, m) && LocalEvents(all) == [] && forall i :: 0 <= i < |all| ==> CommandOf(cs, all[i])
  {
    all := es + fs;
    ExplainsAppend(h, issued, n, es, n1, fs, m);
    LocalEventsAppend(es, fs);
    MoreCommands(cs, fs);
  }

  lemma MoreCommands(cs: seq<Command>, es: seq<Event>)
    requires cs != [] && forall i :: 0 <= i < |es| ==> CommandOf(cs[1..], es[i])
    ensures forall i :: 0 <= i < |es| ==> CommandOf(cs, es[i])
  {}

  lemma OrderedCommands(cs: seq<Command>, es: seq<Event>)
    requires forall i :: 0 <= i < |es| ==> CommandOf(InOrder(cs), es[i])
    ensures forall i :: 0 <= i < |es| ==> CommandOf(cs, es[i])
  {
    ByVersionIsTotal();
    Sorting.SortSorts(ByVersion, cs);
    forall c | c in InOrder(cs) ensures c in cs {
      assert c in multiset(InOrder(cs));
    }
  }

  lemma SnapshotExplained(h: Host, issued: iset<Signature>, n: Node, version: int, state: seq<Field>, raws: seq<Value>)
    returns (es: seq<Event>)
    requires SigningWorks(h, issued)
    ensures Explains(h, issued, n, es, SnapshotStep(h, n, version, state, raws).0) && LocalEvents(es) == []
    ensures forall i :: 0 <= i < |es| ==> CommandOf(Commands(h, raws), es[i])
  {
    es := [];
    var cs := InOrder(Commands(h, raws));
    if VerifyAll(h, raws) == Trusted && Unaccounted(state, SignedValues(cs)).None? {
      OrderedAreVerified(h, raws);
      es := ReplayExplained(h, issued, n, cs, Applied);
      OrderedCommands(Commands(h, raws), es);
      var m := Replay(h, n, cs, Applied).0;
      IncreasingAppend(n.version, es, m.version, [], SnapshotStep(h, n, version, state, raws).0.version);
      assert es + [] == es;
    }
  }

  lemma StepExplained(h: Host, issued: iset<Signature>, n: Node, op: Op) returns (es: seq<Event>)
    requires SigningWorks(h, issued)
    ensures Explains(h, issued, n, es, Step(h, n, op)) && LocalEvents(es) == LocalEvent(op) && Accounts(h, op, es)
  {
    es := LocalEvent(op);
    match op {
      case Snapshot(version, state, raws) =>
        es := SnapshotExplained(h, issued, n, version, state, raws);
      case Delta(version, delta, operator, timestamp, sig) =>
        if Verify(h, version, delta, operator, timestamp, sig) == Trusted {
          TrustedIsAuthentic(h, issued, version, delta, operator, timestamp, sig);
          es := ApplyExplained(h, issued, n, version, delta);
        }
      case _ =>
        LocalEventsOfOne(es[0]);
        assert Fold(h, n.ctl, es) == Do(h, n.ctl, es[0]);
    }
  }

  /**
    The refinement: whatever is sent, the posture is the fold of a strictly version-increasing list
    of commands that a configured operator signed for this node, each where a message carried it, with
    the node's own drains and holds, all of them and no others, in their places.
   */
  lemma {:induction false} PostureIsSigned(h: Host, issued: iset<Signature>, n: Node, ops: seq<Op>) returns (es: seq<Event>)
    requires SigningWorks(h, issued)
    ensures Run(h, n, ops).ctl == Fold(h, n.ctl, es)
    ensures Increasing(n.version, es, Run(h, n, ops).version)
    ensures forall i :: 0 <= i < |es| && es[i].Accepted? ==> Authentic(h, issued, es[i].version, es[i].delta)
    ensures LocalEvents(es) == Locals(ops) && AccountsForAll(h, ops, es)
    decreases |ops|
  {
    if ops == [] {
      es := [];
    } else {
      var n1 := Step(h, n, ops[0]);
      es := StepExplained(h, issued, n, ops[0]);
      var fs := PostureIsSigned(h, issued, n1, ops[1..]);
      ExplainsAppend(h, issued, n, es, n1, fs, Run(h, n1, ops[1..]));
      LocalEventsAppend(es, fs);
      assert (es + fs)[..|es|] == es && (es + fs)[|es|..] == fs;
      es := es + fs;
    }
  }

  /** So without local operations, the posture is the fold of signed commands alone. */
  lemma PlaneAloneIsSigned(h: Host, issued: iset<Signature>, n: Node, ops: seq<Op>) returns (es: seq<Event>)
    requires SigningWorks(h, issued)
    requires forall i :: 0 <= i < |ops| ==> Downstream(ops[i])
    ensures Run(h, n, ops).ctl == Fold(h, n.ctl, es) && Increasing(n.version, es, Run(h, n, ops).version)
    ensures forall i :: 0 <= i < |es| ==> es[i].Accepted? && Authentic(h, issued, es[i].version, es[i].delta)
  {
    es := PostureIsSigned(h, issued, n, ops);
    NoLocals(ops);
    AllCommanded(es);
  }

  lemma {:induction false} NoLocals(ops: seq<Op>)
    requires forall i :: 0 <= i < |ops| ==> Downstream(ops[i])
    ensures Locals(ops) == []
  {
    if ops != [] { NoLocals(ops[1..]); }
  }

  lemma {:induction false} AllCommanded(es: seq<Event>)
    requires LocalEvents(es) == []
    ensures forall i :: 0 <= i < |es| ==> es[i].Accepted?
  {
    if es != [] {
      AllCommanded(es[1..]);
      assert forall i :: 0 < i < |es| ==> es[i] == es[1..][i - 1];
    }
  }

  lemma CommandsReadOnlyStopAndBudget(h: Host, c: Control, c': Control, d: Dict)
    requires c.cap == c'.cap && c.stopped == c'.stopped
    ensures Effects(h, c, d).0.cap == Effects(h, c', d).0.cap
    ensures Effects(h, c, d).0.stopped == Effects(h, c', d).0.stopped
  {}

  /** Stop and budget answer to the signed commands alone: drains and holds leave no mark on them. */
  lemma {:induction false} StopAndBudgetAreSigned(h: Host, c: Control, c': Control, es: seq<Event>)
    requires c.stopped == c'.stopped && c.cap == c'.cap
    ensures Fold(h, c, es).stopped == Fold(h, c', Commanded(es)).stopped
    ensures Fold(h, c, es).cap == Fold(h, c', Commanded(es)).cap
    decreases |es|
  {
    if es != [] {
      var fs := Commanded(es);
      if es[0].Accepted? {
        assert fs[0] == es[0] && fs[1..] == Commanded(es[1..]);
        CommandsReadOnlyStopAndBudget(h, c, c', es[0].delta);
        StopAndBudgetAreSigned(h, Do(h, c, es[0]), Do(h, c', es[0]), es[1..]);
      } else {
        assert fs == Commanded(es[1..]);
        StopAndBudgetAreSigned(h, Do(h, c, es[0]), c', es[1..]);
      }
    }
  }
}
