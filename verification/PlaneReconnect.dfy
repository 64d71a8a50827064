/**
  Reconnecting is transparent: however often the stream of one signed chain is cut, taking a snapshot
  of the chain so far leaves the node where uninterrupted delivery would have left it.
 */
module PlaneReconnect {
  import opened Basics
  import opened Json
  import opened PlaneState
  import opened PlaneRuns
  import opened PlaneRaising
  import opened PlaneSnapshots
  import Sorting

  // ---- the schedule of one chain ----------------------------------------------------------------

  /** A signed chain: verified commands of strictly increasing versions. */
  ghost predicate Chain(h: Host, chain: seq<Command>)
  {
    && h.config.operatorKeys != map[]
    && (forall i, j :: 0 <= i < j < |chain| ==> chain[i].version < chain[j].version)
    && (forall i :: 0 <= i < |chain| ==> VerifyCommand(h, chain[i]) == Trusted)
  }

  datatype Delivery =
    | Live(i: nat)                                                                    // command i as a delta
    | Reconnect(upTo: nat, version: int, state: seq<Field>, commands: seq<Value>)     // a snapshot of the first upTo commands
    | Local(op: Op)                                                                   // drains and holds

  /** The entries are the given commands, in any order. */
  ghost predicate Carries(h: Host, raws: seq<Value>, cs: seq<Command>)
  {
    && (forall i :: 0 <= i < |raws| ==> ParseCommand(h, raws[i]).Some?)
    && multiset(Commands(h, raws)) == multiset(cs)
  }

  /**
    What may come when the first `p` commands have arrived: deltas in order, possibly again; a snapshot
    that carries the whole chain so far, asserts only what was signed, and is numbered below what is to come.
   */
  ghost predicate HonestStep(h: Host, chain: seq<Command>, p: nat, d: Delivery)
  {
    match d
    case Live(i) => i <= p && i < |chain|
    case Reconnect(upTo, version, state, raws) =>
      && p <= upTo <= |chain|
      && Carries(h, raws, chain[..upTo])
      && Unaccounted(state, SignedValues(chain[..upTo])).None?
      && (upTo < |chain| ==> version < chain[upTo].version)
    case Local(op) => !Downstream(op)
  }

  function Arrived(p: nat, d: Delivery): nat
  {
    match d
    case Live(i) => if i == p then p + 1 else p
    case Reconnect(upTo, _, _, _) => upTo
    case Local(_) => p
  }

  ghost predicate Honest(h: Host, chain: seq<Command>, p: nat, ds: seq<Delivery>)
    decreases |ds|
  {
    ds == [] || (HonestStep(h, chain, p, ds[0]) && Honest(h, chain, Arrived(p, ds[0]), ds[1..]))
  }

  function AsDelta(c: Command): Op
  {
    Delta(c.version, c.delta, Str(c.operator), Str(c.timestamp), Str(c.sig))
  }

  function Deltas(cs: seq<Command>): seq<Op>
  {
    if cs == [] then [] else [AsDelta(cs[0])] + Deltas(cs[1..])
  }

  function Sent(chain: seq<Command>, d: Delivery): seq<Op>
  {
    match d
    case Live(i) => if i < |chain| then [AsDelta(chain[i])] else []
    case Reconnect(_, version, state, raws) => [Snapshot(version, state, raws)]
    case Local(op) => [op]
  }

  /** The same delivery on a stream that was never cut: every command once, live, when it became known. */
  function Ideal(chain: seq<Command>, p: nat, d: Delivery): seq<Op>
  {
    match d
    case Live(i) => if i == p && i < |chain| then [AsDelta(chain[p])] else []
    case Reconnect(upTo, _, _, _) => if p <= upTo <= |chain| then Deltas(chain[p..upTo]) else []
    case Local(op) => [op]
  }

  /** What the node is sent. */
  function Received(chain: seq<Command>, ds: seq<Delivery>): seq<Op>
  {
    if ds == [] then [] else Sent(chain, ds[0]) + Received(chain, ds[1..])
  }

  function Uninterrupted(chain: seq<Command>, p: nat, ds: seq<Delivery>): seq<Op>
    decreases |ds|
  {
    if ds == [] then [] else Ideal(chain, p, ds[0]) + Uninterrupted(chain, Arrived(p, ds[0]), ds[1..])
  }

  // ---- the proof --------------------------------------------------------------------------------

  /** Equal but for the version counter, which a snapshot may have raised. */
  predicate Alike(n: Node, m: Node)
  {
    m.version <= n.version && n.ctl == m.ctl && n.consumed == m.consumed && n.outbox == m.outbox
  }

  /** The counter stands after the first `p` commands and before the next one. */
  predicate At(chain: seq<Command>, p: nat, n: Node)
    requires p <= |chain|
  {
    (p > 0 ==> chain[p - 1].version <= n.version) && (p < |chain| ==> n.version < chain[p].version)
  }

  lemma {:induction false} RunAppend(h: Host, n: Node, ops: seq<Op>, more: seq<Op>)
    ensures Run(h, n, ops + more) == Run(h, Run(h, n, ops), more)
    decreases |ops|
  {
    if ops == [] {
      assert ops + more == more;
    } else {
      RunAppend(h, Step(h, n, ops[0]), ops[1..], more);
      assert (ops + more)[0] == ops[0] && (ops + more)[1..] == ops[1..] + more;
    }
  }

  lemma CommandApplied(h: Host, chain: seq<Command>, p: nat, n: Node)
    requires Chain(h, chain) && p < |chain| && At(chain, p, n)
    ensures var (n1, effect) := DeltaOf(h, n, chain[p]);
            && n1.ctl == Next(h, n.ctl, chain[p].delta) && n1.version == chain[p].version && At(chain, p + 1, n1)
            && (effect == Raised <==> Raises(h, n.ctl, chain[p].delta))
  {
    assert VerifyCommand(h, chain[p]) == Trusted;
  }

  lemma NextCommand(h: Host, chain: seq<Command>, p: nat, n: Node, m: Node)
    requires Chain(h, chain) && p < |chain| && At(chain, p, n) && At(chain, p, m) && Alike(n, m)
    requires Smooth(h, n.ctl, chain[p..])
    ensures var (n1, effect) := DeltaOf(h, n, chain[p]);
            var m1 := DeltaOf(h, m, chain[p]).0;
            && (effect == Raised ==> p + 1 == |chain|)
            && Alike(n1, m1) && At(chain, p + 1, n1) && At(chain, p + 1, m1) && Smooth(h, n1.ctl, chain[p + 1..])
  {
    CommandApplied(h, chain, p, n);
    CommandApplied(h, chain, p, m);
    SameWrites(h, chain, p, n, m);
    assert chain[p..][1..] == chain[p + 1..];
  }

  lemma SameWrites(h: Host, chain: seq<Command>, p: nat, n: Node, m: Node)
    requires Chain(h, chain) && p < |chain| && At(chain, p, n) && At(chain, p, m) && Alike(n, m)
    ensures DeltaOf(h, n, chain[p]) == DeltaOf(h, m, chain[p])
  {
    assert VerifyCommand(h, chain[p]) == Trusted;
  }

  lemma OldCommandIsStale(h: Host, chain: seq<Command>, i: nat, p: nat, n: Node)
    requires Chain(h, chain) && i < p <= |chain| && At(chain, p, n)
    ensures DeltaOf(h, n, chain[i]) == (n, NoopStale(chain[i].version))
  {
    assert VerifyCommand(h, chain[i]) == Trusted && chain[i].version <= chain[p - 1].version;
  }

  /** Pushing commands `p` to `q` on one node, and delivering them live to a node alike. */
  lemma {:induction false} PushedAlike(h: Host, chain: seq<Command>, p: nat, q: nat, n: Node, m: Node)
    requires Chain(h, chain) && p <= q <= |chain| && At(chain, p, n) && At(chain, p, m) && Alike(n, m)
    requires Smooth(h, n.ctl, chain[p..])
    ensures var (n1, raised) := PushAll(h, n, chain[p..q]);
            var m1 := Run(h, m, Deltas(chain[p..q]));
            && (raised ==> q == |chain|)
            && Alike(n1, m1) && At(chain, q, n1) && At(chain, q, m1) && Smooth(h, n1.ctl, chain[q..])
    decreases q - p
  {
    if p < q {
      var (n1, effect) := DeltaOf(h, n, chain[p]);
      var m1 := DeltaOf(h, m, chain[p]).0;
      NextCommand(h, chain, p, n, m);
      assert chain[p..q][1..] == chain[p + 1..q];
      PushedAlike(h, chain, p + 1, q, n1, m1);
      assert Deltas(chain[p..q])[1..] == Deltas(chain[p + 1..q]);
    }
  }

  /** The part of the chain that has already arrived is skipped. */
  lemma {:induction false} OldCommandsAreSkipped(h: Host, chain: seq<Command>, k: nat, p: nat, q: nat, n: Node)
    requires Chain(h, chain) && k <= p <= q <= |chain| && At(chain, p, n)
    ensures PushAll(h, n, chain[k..q]) == PushAll(h, n, chain[p..q])
    decreases p - k
  {
    if k < p {
      OldCommandIsStale(h, chain, k, p, n);
      assert chain[k..q][1..] == chain[k + 1..q];
      OldCommandsAreSkipped(h, chain, k + 1, p, q, n);
    }
  }

  /** An honest snapshot is accepted, and replays the chain so far in its own order. */
  lemma HonestSnapshotIsAccepted(h: Host, chain: seq<Command>, upTo: nat, state: seq<Field>, raws: seq<Value>)
    requires Chain(h, chain) && upTo <= |chain| && Carries(h, raws, chain[..upTo])
    requires Unaccounted(state, SignedValues(chain[..upTo])).None?
    ensures InOrder(Commands(h, raws)) == chain[..upTo]
    ensures Accepts(h, state, raws)
  {
    var cs := chain[..upTo];
    PermutedMembers(Commands(h, raws), cs);
    SortedAlike(cs, Commands(h, raws));
    ByVersionIsTotal();
    Sorting.SortedStays(ByVersion, cs);
    forall i | 0 <= i < |raws| ensures VerifyRaw(h, raws[i]) == Trusted {
      assert Commands(h, raws)[i] in cs;
    }
    VerifiedAll(h, raws);
  }

  lemma SnapshotCatchesUp(h: Host, chain: seq<Command>, p: nat, d: Delivery, n: Node, m: Node)
    requires Chain(h, chain) && d.Reconnect? && HonestStep(h, chain, p, d)
    requires At(chain, p, n) && At(chain, p, m) && Alike(n, m) && Smooth(h, n.ctl, chain[p..])
    ensures var n1 := SnapshotStep(h, n, d.version, d.state, d.commands).0;
            var m1 := Run(h, m, Deltas(chain[p..d.upTo]));
            Alike(n1, m1) && At(chain, d.upTo, n1) && At(chain, d.upTo, m1) && Smooth(h, n1.ctl, chain[d.upTo..])
  {
    HonestSnapshotIsAccepted(h, chain, d.upTo, d.state, d.commands);
    SnapshotIsItsDeltas(h, n, d.version, d.state, d.commands);
    OldCommandsAreSkipped(h, chain, 0, p, d.upTo, n);
    assert chain[..d.upTo] == chain[0..d.upTo];
    PushedAlike(h, chain, p, d.upTo, n, m);
  }

  lemma LocalAlike(h: Host, op: Op, n: Node, m: Node)
    requires !Downstream(op) && Alike(n, m)
    ensures Alike(Step(h, n, op), Step(h, m, op))
    ensures Step(h, n, op).version == n.version && Step(h, m, op).version == m.version
    ensures Step(h, n, op).ctl.stopped == n.ctl.stopped && Step(h, n, op).ctl.cap == n.ctl.cap
  {
    assert n == m.(version := n.version);
  }

  lemma LiveAlike(h: Host, chain: seq<Command>, p: nat, i: nat, n: Node, m: Node)
    requires Chain(h, chain) && p <= |chain| && i <= p && i < |chain|
    requires At(chain, p, n) && At(chain, p, m) && Alike(n, m) && Smooth(h, n.ctl, chain[p..])
    ensures var n1 := Run(h, n, Sent(chain, Live(i)));
            var m1 := Run(h, m, Ideal(chain, p, Live(i)));
            var q := Arrived(p, Live(i));
            Alike(n1, m1) && At(chain, q, n1) && At(chain, q, m1) && Smooth(h, n1.ctl, chain[q..])
  {
    OneStep(h, n, AsDelta(chain[i]));
    if i == p {
      NextCommand(h, chain, p, n, m);
      OneStep(h, m, AsDelta(chain[i]));
    } else {
      OldCommandIsStale(h, chain, i, p, n);
    }
  }

  lemma DeliveredAlike(h: Host, chain: seq<Command>, p: nat, d: Delivery, n: Node, m: Node)
    requires Chain(h, chain) && p <= |chain| && HonestStep(h, chain, p, d)
    requires At(chain, p, n) && At(chain, p, m) && Alike(n, m) && Smooth(h, n.ctl, chain[p..])
    ensures Arrived(p, d) <= |chain|
    ensures var n1 := Run(h, n, Sent(chain, d));
            var m1 := Run(h, m, Ideal(chain, p, d));
            var q := Arrived(p, d);
            Alike(n1, m1) && At(chain, q, n1) && At(chain, q, m1) && Smooth(h, n1.ctl, chain[q..])
  {
    match d
    case Live(i) =>
      LiveAlike(h, chain, p, i, n, m);
    case Reconnect(upTo, version, state, raws) =>
      SnapshotCatchesUp(h, chain, p, d, n, m);
      OneStep(h, n, Snapshot(version, state, raws));
    case Local(op) =>
      LocalAlike(h, op, n, m);
      SmoothReads(h, n.ctl, Step(h, n, op).ctl, chain[p..]);
      OneStep(h, n, op);
      OneStep(h, m, op);
  }

  lemma OneStep(h: Host, n: Node, op: Op)
    ensures Run(h, n, [op]) == Step(h, n, op)
  {
    assert Run(h, Step(h, n, op), [op][1..]) == Step(h, n, op);
  }

  lemma {:induction false} ScheduleAlike(h: Host, chain: seq<Command>, p: nat, ds: seq<Delivery>, n: Node, m: Node)
    requires Chain(h, chain) && p <= |chain| && Honest(h, chain, p, ds)
    requires At(chain, p, n) && At(chain, p, m) && Alike(n, m) && Smooth(h, n.ctl, chain[p..])
    ensures Alike(Run(h, n, Received(chain, ds)), Run(h, m, Uninterrupted(chain, p, ds)))
    decreases |ds|
  {
    if ds != [] {
      var sent, ideal := Sent(chain, ds[0]), Ideal(chain, p, ds[0]);
      var q := Arrived(p, ds[0]);
      DeliveredAlike(h, chain, p, ds[0], n, m);
      RunAppend(h, n, sent, Received(chain, ds[1..]));
      RunAppend(h, m, ideal, Uninterrupted(chain, q, ds[1..]));
      ScheduleAlike(h, chain, q, ds[1..], Run(h, n, sent), Run(h, m, ideal));
    }
  }

  /** The node has seen nothing of the chain. */
  predicate Before(n: Node, chain: seq<Command>)
  {
    chain != [] ==> n.version < chain[0].version
  }

  /** The schedule leaves the node where uninterrupted delivery leaves it, but for a higher version. */
  ghost predicate Transparent(h: Host, chain: seq<Command>, n: Node, ds: seq<Delivery>)
  {
    var cut, whole := Run(h, n, Received(chain, ds)), Run(h, n, Uninterrupted(chain, 0, ds));
    && cut.ctl == whole.ctl && cut.consumed == whole.consumed && cut.outbox == whole.outbox
    && whole.version <= cut.version
  }

  /** Reconnect transparency, for every honest schedule of a smooth chain. */
  lemma ReconnectIsTransparent(h: Host, chain: seq<Command>, ds: seq<Delivery>, n: Node)
    requires Chain(h, chain) && Honest(h, chain, 0, ds) && Before(n, chain)
    requires Smooth(h, n.ctl, chain)
    ensures Transparent(h, chain, n, ds)
  {
    assert chain[0..] == chain;
    ScheduleAlike(h, chain, 0, ds, n, n);
  }

  // ---- chains that are not smooth ---------------------------------------------------------------

  /** Delivered live, a chain is followed to its end, whatever raises. */
  lemma {:induction false} LiveReachesTheEnd(h: Host, chain: seq<Command>, p: nat, n: Node)
    requires Chain(h, chain) && p <= |chain| && At(chain, p, n)
    ensures At(chain, |chain|, Run(h, n, Deltas(chain[p..])))
    decreases |chain| - p
  {
    if p < |chain| {
      CommandApplied(h, chain, p, n);
      assert chain[p..][1..] == chain[p + 1..];
      LiveReachesTheEnd(h, chain, p + 1, DeltaOf(h, n, chain[p]).0);
      assert Deltas(chain[p..])[1..] == Deltas(chain[p + 1..]);
    }
  }

  /** Replayed, one that is not smooth is left before its end. */
  lemma {:induction false} ReplayStopsShort(h: Host, chain: seq<Command>, p: nat, n: Node)
    requires Chain(h, chain) && p <= |chain| && At(chain, p, n) && !Smooth(h, n.ctl, chain[p..])
    ensures var (m, raised) := PushAll(h, n, chain[p..]);
            raised && m.version < Last(chain).version
    decreases |chain| - p
  {
    CommandApplied(h, chain, p, n);
    assert chain[p..][1..] == chain[p + 1..];
    if !Raises(h, n.ctl, chain[p].delta) {
      ReplayStopsShort(h, chain, p + 1, DeltaOf(h, n, chain[p]).0);
    }
  }

  /** One reconnect that takes the whole chain shows it. */
  lemma RoughChainsShow(h: Host, chain: seq<Command>, n: Node, raws: seq<Value>) returns (ds: seq<Delivery>)
    requires Chain(h, chain) && Before(n, chain) && Carries(h, raws, chain) && !Smooth(h, n.ctl, chain)
    ensures Honest(h, chain, 0, ds) && !Transparent(h, chain, n, ds)
  {
    var d := Reconnect(|chain|, n.version, [], raws);
    ds := [d];
    assert chain[..|chain|] == chain == chain[0..] == chain[0..|chain|];
    HonestSnapshotIsAccepted(h, chain, |chain|, [], raws);
    SnapshotIsItsDeltas(h, n, n.version, [], raws);
    ReplayStopsShort(h, chain, 0, n);
    LiveReachesTheEnd(h, chain, 0, n);
    OneStep(h, n, Snapshot(n.version, [], raws));
    assert Received(chain, ds) == [Snapshot(n.version, [], raws)];
    assert Uninterrupted(chain, 0, ds) == Deltas(chain);
  }

  /**
    Reconnecting is transparent in every honest schedule of a chain exactly when no command of it but the
    last raises, starting from the node's stop and cap.
   */
  lemma ReconnectIsTransparentIff(h: Host, chain: seq<Command>, n: Node, raws: seq<Value>)
    requires Chain(h, chain) && Before(n, chain) && Carries(h, raws, chain)
    ensures (forall ds :: Honest(h, chain, 0, ds) ==> Transparent(h, chain, n, ds)) <==> Smooth(h, n.ctl, chain)
  {
    if Smooth(h, n.ctl, chain) {
      forall ds | Honest(h, chain, 0, ds) ensures Transparent(h, chain, n, ds) {
        ReconnectIsTransparent(h, chain, ds, n);
      }
    } else {
      var ds := RoughChainsShow(h, chain, n, raws);
    }
  }

  // ---- where it fails ---------------------------------------------------------------------------

  /** A host whose keys accept everything. */
  function TrustingHost(): (h: Host)
    ensures h.config.operatorKeys != map[]
  {
    var h := Host(Config("n0", map["op" := "key"], false, None),
                  Platform(_ => None, _ => None, _ => "", _ => None, _ => Some([]), (_, _, _) => Good, (_, _) => []));
    assert "op" in h.config.operatorKeys;
    h
  }

  /** The injection of the first command is no object, so asking it for its id raises. */
  function RaisingChain(): seq<Command>
  {
    [Command(1, map["pending_injection" := Int(1)], "op", "t", "s"),
     Command(2, map["paused" := Bool(true)], "op", "t", "s")]
  }

  function RaisingChainOnTheWire(): seq<Value>
  {
    [Raw(1, Field("pending_injection", Int(1))), Raw(2, Field("paused", Bool(true)))]
  }

  lemma RaisingChainIsSigned()
    ensures forall c :: c in RaisingChain() ==> VerifyCommand(TrustingHost(), c) == Trusted
    ensures !Smooth(TrustingHost(), Fresh(TrustingHost()).ctl, RaisingChain())
  {}

  lemma RaisingChainParses()
    ensures forall raw :: raw in RaisingChainOnTheWire() ==> ParseCommand(TrustingHost(), raw).Some?
    ensures Commands(TrustingHost(), RaisingChainOnTheWire()) == RaisingChain()
  {
    var h, chain, raws := TrustingHost(), RaisingChain(), RaisingChainOnTheWire();
    RawParses(h, 1, Field("pending_injection", Int(1)));
    RawParses(h, 2, Field("paused", Bool(true)));
    var parsed := ParsedCommand(h);
    assert parsed(raws[0]) == chain[0] && parsed(raws[1]) == chain[1];
  }

  lemma RaisingChainIsOrdered()
    ensures InOrder(RaisingChain()) == RaisingChain()
  {
    ByVersionIsTotal();
    Sorting.SortedStays(ByVersion, RaisingChain());
  }

  lemma RaisingChainIsCarried()
    ensures Carries(TrustingHost(), RaisingChainOnTheWire(), RaisingChain()[..2])
    ensures Accepts(TrustingHost(), [], RaisingChainOnTheWire())
    ensures InOrder(Commands(TrustingHost(), RaisingChainOnTheWire())) == RaisingChain()
  {
    RaisingChainParses();
    RaisingChainIsOrdered();
    RaisingChainIsSigned();
    AllVerified(TrustingHost(), RaisingChainOnTheWire(), RaisingChain());
    assert RaisingChain()[..2] == RaisingChain();
  }

  lemma AllVerified(h: Host, raws: seq<Value>, cs: seq<Command>)
    requires Commands(h, raws) == cs && forall raw :: raw in raws ==> ParseCommand(h, raw).Some?
    requires forall c :: c in cs ==> VerifyCommand(h, c) == Trusted
    ensures VerifyAll(h, raws) == Trusted
  {
    VerifiedAll(h, raws);
    forall i | 0 <= i < |raws| ensures VerifyRaw(h, raws[i]) == Trusted {
      assert raws[i] in raws && cs[i] in cs && cs[i] == ParsedCommand(h)(raws[i]);
    }
  }

  lemma RaisingChainLive()
    ensures Run(TrustingHost(), Fresh(TrustingHost()), Deltas(RaisingChain())).ctl.paused
  {
    var h, chain := TrustingHost(), RaisingChain();
    var n1 := Apply(h, Fresh(h), 1, chain[0].delta).0;
    assert chain[1..] == [chain[1]] && chain[1..][1..] == [];
    assert Deltas(chain[1..]) == [AsDelta(chain[1])];
    RunAppend(h, Fresh(h), [AsDelta(chain[0])], [AsDelta(chain[1])]);
    OneStep(h, Fresh(h), AsDelta(chain[0]));
    OneStep(h, n1, AsDelta(chain[1]));
  }

  lemma RaisingChainReplayed()
    ensures Replay(TrustingHost(), Fresh(TrustingHost()), RaisingChain(), Applied)
         == (Apply(TrustingHost(), Fresh(TrustingHost()), 1, RaisingChain()[0].delta).0, Raised)
    ensures !Apply(TrustingHost(), Fresh(TrustingHost()), 1, RaisingChain()[0].delta).0.ctl.paused
  {
    var h, d := TrustingHost(), RaisingChain()[0].delta;
    assert !AsksForCap(d) && OneShots(h, Flags(Fresh(h).ctl, d), d).1 == Raised;
  }

  /** A command that raises breaks transparency: a snapshot replays nothing behind it, the live stream goes on. */
  lemma RaisingCommandBreaksTransparency()
    ensures HonestStep(TrustingHost(), RaisingChain(), 0, Reconnect(2, 2, [], RaisingChainOnTheWire()))
    ensures Run(TrustingHost(), Fresh(TrustingHost()), Deltas(RaisingChain())).ctl.paused
    ensures !SnapshotStep(TrustingHost(), Fresh(TrustingHost()), 2, [], RaisingChainOnTheWire()).0.ctl.paused
  {
    RaisingChainIsCarried();
    RaisingChainLive();
    RaisingChainReplayed();
  }

  function Raw(version: int, f: Field): Value
  {
    Obj([Field("version", Int(version)), Field("delta", Obj([f])), Field("operator", Str("op")),
         Field("timestamp", Str("t")), Field("sig", Str("s"))])
  }

  lemma RawParses(h: Host, version: int, f: Field)
    ensures ParseCommand(h, Raw(version, f)) == Some(Command(version, map[f.key := f.value], "op", "t", "s"))
  {
    var fs := Raw(version, f).fields;
    assert ToDict([f]) == map[f.key := f.value] by {
      assert Init([f]) == [] && Last([f]) == f;
    }
    assert Get(fs, "version") == Some(Int(version));
    assert Get(fs[1..], "delta") == Some(Obj([f])) == Get(fs, "delta");
    assert Get(fs[2..], "operator") == Some(Str("op"));
    assert Get(fs, "operator") == Get(fs[1..], "operator") == Get(fs[1..][1..], "operator");
    assert fs[1..][1..] == fs[2..] && fs[2..][1..] == fs[3..] && fs[3..][1..] == fs[4..];
    assert Get(fs[3..], "timestamp") == Some(Str("t"));
    assert Get(fs, "timestamp") == Get(fs[1..], "timestamp") == Get(fs[2..], "timestamp");
    assert Get(fs[4..], "sig") == Some(Str("s"));
    assert Get(fs, "sig") == Get(fs[1..], "sig") == Get(fs[2..], "sig") == Get(fs[3..], "sig");
  }
}
