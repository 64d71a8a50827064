/**
  From the wire to the posture: an honest plane prints its messages on connections that break anywhere,
  and the node ends where uninterrupted delivery would have left it.
 */
module PlaneStreams {
  import opened Basics
  import opened Json
  import opened PlaneState
  import opened PlaneRuns
  import opened PlaneRaising
  import opened PlaneReconnect
  import opened EventStream
  import opened EventText
  import opened PlaneClient

  type Decoder = string -> Option<Value>

  /** What the node does by itself while a connection lasts, and when it gets to the next frame. */
  datatype Turn = Here(op: Op) | NextFrame

  /** What the plane has to tell on a connection, in which frames, and after how many characters it breaks. */
  datatype Connection = Connection(agenda: seq<Turn>, ds: seq<Delivery>, frames: seq<Frame>, cut: nat)

  function ArrivedAll(p: nat, ds: seq<Delivery>): nat
    decreases |ds|
  {
    if ds == [] then p else ArrivedAll(Arrived(p, ds[0]), ds[1..])
  }

  /** Frame by frame the messages, printed so that they survive the trip. */
  ghost predicate Tells(decode: Decoder, chain: seq<Command>, frames: seq<Frame>, ds: seq<Delivery>)
  {
    && |frames| == |ds|
    && forall i :: 0 <= i < |ds| ==>
         && !ds[i].Local? && |Sent(chain, ds[i])| == 1 && Says(decode, frames[i], Sent(chain, ds[i])[0])
         && frames[i].data != [] && Trimmed(frames[i]) && FrameUnbroken(frames[i])
  }

  /** And so the frames are read. */
  ghost predicate Reads(h: Host, decode: Decoder, chain: seq<Command>, frames: seq<Frame>, ds: seq<Delivery>)
  {
    && |frames| == |ds|
    && forall i :: 0 <= i < |ds| ==>
         && !ds[i].Local? && |Sent(chain, ds[i])| == 1 && ReadFrame(h, decode, frames[i]) == Send(Sent(chain, ds[i])[0])
         && frames[i].data != [] && Trimmed(frames[i]) && FrameUnbroken(frames[i])
  }

  lemma ToldIsRead(h: Host, decode: Decoder, chain: seq<Command>, frames: seq<Frame>, ds: seq<Delivery>)
    requires Tells(decode, chain, frames, ds)
    ensures Reads(h, decode, chain, frames, ds)
  {
    forall i | 0 <= i < |ds| ensures ReadFrame(h, decode, frames[i]) == Send(Sent(chain, ds[i])[0]) {
      SaidIsRead(h, decode, frames[i], Sent(chain, ds[i])[0]);
    }
  }

  /** The node's own operations, in order. */
  function OwnOps(agenda: seq<Turn>): seq<Op>
  {
    if agenda == [] then [] else (if agenda[0].Here? then [agenda[0].op] else []) + OwnOps(agenda[1..])
  }

  function AllOwnOps(cs: seq<Connection>): seq<Op>
  {
    if cs == [] then [] else OwnOps(cs[0].agenda) + AllOwnOps(cs[1..])
  }

  predicate AllLocal(ops: seq<Op>)
  {
    forall i :: 0 <= i < |ops| ==> !Downstream(ops[i])
  }

  /** The local operations of a schedule, in order. */
  function LocalOps(ds: seq<Delivery>): seq<Op>
  {
    if ds == [] then [] else (if ds[0].Local? then [ds[0].op] else []) + LocalOps(ds[1..])
  }

  function Messages(ds: seq<Delivery>): seq<Delivery>
  {
    if ds == [] then [] else (if ds[0].Local? then [] else [ds[0]]) + Messages(ds[1..])
  }

  /** All own operations of a connection and the first of its messages, each in their order. */
  ghost predicate PartOf(c: Connection, first: seq<Delivery>)
  {
    LocalOps(first) == OwnOps(c.agenda) && Messages(first) <= c.ds
  }

  /** The schedule is made of the connections' parts, one after the other. */
  ghost predicate MadeOf(cs: seq<Connection>, ds: seq<Delivery>)
    decreases |cs|
  {
    if cs == [] then ds == []
    else exists j: nat :: j <= |ds| && PartOf(cs[0], ds[..j]) && MadeOf(cs[1..], ds[j..])
  }

  /**
    A plane that has told the first `p` commands and goes on honestly: each connection opens with a snapshot
    of the chain so far, since the plane does not know where the last one broke.
   */
  ghost predicate HonestPlane(h: Host, decode: Decoder, chain: seq<Command>, p: nat, cs: seq<Connection>)
    decreases |cs|
  {
    cs == [] ||
    (&& AllLocal(OwnOps(cs[0].agenda))
     && cs[0].ds != [] && cs[0].ds[0].Reconnect? && Honest(h, chain, p, cs[0].ds)
     && Tells(decode, chain, cs[0].frames, cs[0].ds)
     && HonestPlane(h, decode, chain, ArrivedAll(p, cs[0].ds), cs[1..]))
  }

  /** How far the plane has told the chain after these connections. */
  function Told(p: nat, cs: seq<Connection>): nat
    decreases |cs|
  {
    if cs == [] then p else Told(ArrivedAll(p, cs[0].ds), cs[1..])
  }

  /** The text of a connection. */
  function Wire(c: Connection): string
  {
    TextOf(PrintAll(c.frames))
  }

  /** The frames that a connection dispatches before it breaks. */
  function Broken(c: Connection): seq<Frame>
  {
    Dispatched(SplitLines(if c.cut < |Wire(c)| then Wire(c)[..c.cut] else Wire(c)))
  }

  predicate Whole(c: Connection)
  {
    |Wire(c)| <= c.cut
  }

  /** Frames and local operations by turns; an exception ends the subscription, not the node. */
  function LiveBy(h: Host, decode: Decoder, n: Node, alive: bool, agenda: seq<Turn>, frames: seq<Frame>): (Node, bool)
    decreases |agenda|
  {
    if agenda == [] then if alive then FramesRun(h, decode, n, frames) else (n, false)
    else match agenda[0]
      case Here(op) => LiveBy(h, decode, Step(h, n, op), alive, agenda[1..], frames)
      case NextFrame =>
        if !alive || frames == [] then LiveBy(h, decode, n, alive, agenda[1..], frames)
        else
          var (n1, going) := FrameStep(h, decode, n, frames[0]);
          LiveBy(h, decode, n1, going, agenda[1..], frames[1..])
  }

  function LiveOnce(h: Host, decode: Decoder, n: Node, alive: bool, c: Connection): (Node, bool)
  {
    LiveBy(h, decode, n, alive, c.agenda, Broken(c))
  }

  function Lived(h: Host, decode: Decoder, n: Node, alive: bool, cs: seq<Connection>): (Node, bool)
    decreases |cs|
  {
    if cs == [] then (n, alive)
    else
      var (n1, going) := LiveOnce(h, decode, n, alive, cs[0]);
      Lived(h, decode, n1, going, cs[1..])
  }

  // ---- schedules, put together and cut ----------------------------------------------------------

  lemma {:induction false} HonestAppend(h: Host, chain: seq<Command>, p: nat, ds: seq<Delivery>, es: seq<Delivery>)
    requires Honest(h, chain, p, ds) && Honest(h, chain, ArrivedAll(p, ds), es)
    ensures Honest(h, chain, p, ds + es) && ArrivedAll(p, ds + es) == ArrivedAll(ArrivedAll(p, ds), es)
    decreases |ds|
  {
    if ds == [] {
      assert ds + es == es;
    } else {
      HonestAppend(h, chain, Arrived(p, ds[0]), ds[1..], es);
      assert (ds + es)[0] == ds[0] && (ds + es)[1..] == ds[1..] + es;
    }
  }

  lemma {:induction false} ReceivedAppend(chain: seq<Command>, ds: seq<Delivery>, es: seq<Delivery>)
    ensures Received(chain, ds + es) == Received(chain, ds) + Received(chain, es)
  {
    if ds == [] {
      assert ds + es == es;
    } else {
      ReceivedAppend(chain, ds[1..], es);
      assert (ds + es)[0] == ds[0] && (ds + es)[1..] == ds[1..] + es;
      Associate(Sent(chain, ds[0]), Received(chain, ds[1..]), Received(chain, es));
    }
  }

  /** Cut short, an honest schedule is honest and has arrived no further. */
  lemma {:induction false} HonestPrefix(h: Host, chain: seq<Command>, p: nat, ds: seq<Delivery>, k: nat)
    requires Honest(h, chain, p, ds) && k <= |ds| && p <= |chain|
    ensures Honest(h, chain, p, ds[..k])
    ensures p <= ArrivedAll(p, ds[..k]) <= ArrivedAll(p, ds) <= |chain|
    decreases |ds|
  {
    if ds != [] {
      HonestPrefix(h, chain, Arrived(p, ds[0]), ds[1..], if k == 0 then 0 else k - 1);
      if k > 0 {
        assert ds[..k][0] == ds[0] && ds[..k][1..] == ds[1..][..k - 1];
      }
    }
  }

  /** A schedule that opens with a snapshot is as honest towards a node that lags behind. */
  lemma HonestToLaggards(h: Host, chain: seq<Command>, q: nat, p: nat, ds: seq<Delivery>, k: nat)
    requires q <= p && ds != [] && ds[0].Reconnect? && Honest(h, chain, p, ds) && k <= |ds|
    ensures Honest(h, chain, q, ds)
    ensures k > 0 ==> ArrivedAll(q, ds[..k]) == ArrivedAll(p, ds[..k])
  {
    if k > 0 {
      assert ds[..k][0] == ds[0];
    }
  }

  // ---- one connection ---------------------------------------------------------------------------

  /** What a broken connection dispatches: its first frames, all of them if it did not break. */
  lemma BrokenConnection(c: Connection) returns (j: nat)
    requires forall i :: 0 <= i < |c.frames| ==> c.frames[i].data != [] && Trimmed(c.frames[i]) && FrameUnbroken(c.frames[i])
    ensures j <= |c.frames| && Broken(c) == c.frames[..j] && (Whole(c) ==> j == |c.frames|)
  {
    LinesRoundTripIff(c.frames);
    PrintedUnbroken(c.frames);
    LinesComeBack(PrintAll(c.frames));
    if !Whole(c) {
      CutAnywhereDispatchesPrefix(PrintAll(c.frames), c.cut);
    }
    j := |Broken(c)|;
  }

  lemma {:induction false} FramesSend(h: Host, decode: Decoder, chain: seq<Command>, frames: seq<Frame>, ds: seq<Delivery>)
    requires Reads(h, decode, chain, frames, ds)
    ensures OpsOf(h, decode, frames) == Received(chain, ds) && |Received(chain, ds)| == |ds|
  {
    if ds != [] {
      FramesSend(h, decode, chain, frames[1..], ds[1..]);
      assert Sent(chain, ds[0]) == [Sent(chain, ds[0])[0]];
    }
  }

  lemma {:induction false} ReceivedPrefix(chain: seq<Command>, ds: seq<Delivery>, k: nat)
    requires k <= |ds| && forall i :: 0 <= i < |ds| ==> |Sent(chain, ds[i])| == 1
    ensures |Received(chain, ds)| == |ds| && Received(chain, ds)[..k] == Received(chain, ds[..k])
  {
    if ds != [] {
      ReceivedPrefix(chain, ds[1..], if k == 0 then 0 else k - 1);
      if k > 0 {
        assert ds[..k][0] == ds[0] && ds[..k][1..] == ds[1..][..k - 1];
        assert Received(chain, ds)[..k] == Sent(chain, ds[0]) + Received(chain, ds[1..])[..k - 1];
      }
    }
  }

  lemma ReadsRest(h: Host, decode: Decoder, chain: seq<Command>, frames: seq<Frame>, ds: seq<Delivery>, j: nat)
    requires Reads(h, decode, chain, frames, ds) && j <= |ds|
    ensures Reads(h, decode, chain, frames[..j], ds[..j])
    ensures j > 0 ==> Reads(h, decode, chain, frames[1..], ds[1..])
  {}

  lemma {:induction false} OnlyMessages(ds: seq<Delivery>)
    requires forall i :: 0 <= i < |ds| ==> !ds[i].Local?
    ensures LocalOps(ds) == [] && Messages(ds) == ds
  {
    if ds != [] { OnlyMessages(ds[1..]); }
  }

  /** What a stretch of a connection is: a schedule of the node's own operations and of the first `k` messages. */
  ghost predicate Stretch(h: Host, chain: seq<Command>, q: nat, n: Node, ops: seq<Op>, ds: seq<Delivery>, k: nat, first: seq<Delivery>, m: Node)
  {
    && k <= |ds| && Honest(h, chain, q, first) && ArrivedAll(q, first) == ArrivedAll(q, ds[..k])
    && LocalOps(first) == ops && Messages(first) == ds[..k] && m == Run(h, n, Received(chain, first))
  }

  /** Without turns to take: the messages run on until one raises. */
  lemma OnlyFrames(h: Host, decode: Decoder, chain: seq<Command>, q: nat, n: Node, frames: seq<Frame>, ds: seq<Delivery>) returns (k: nat)
    requires q <= |chain| && Honest(h, chain, q, ds) && Reads(h, decode, chain, frames, ds)
    ensures k <= |ds| && Stretch(h, chain, q, n, [], ds, k, ds[..k], FramesRun(h, decode, n, frames).0)
    ensures FramesRun(h, decode, n, frames).1 ==> k == |ds|
  {
    FramesSend(h, decode, chain, frames, ds);
    k := StreamIsARun(h, decode, n, frames);
    ReceivedPrefix(chain, ds, k);
    HonestPrefix(h, chain, q, ds, k);
    OnlyMessages(ds[..k]);
  }

  lemma LocalFirst(h: Host, chain: seq<Command>, q: nat, n: Node, op: Op, ops: seq<Op>, ds: seq<Delivery>, k: nat, rest: seq<Delivery>, m: Node)
    requires !Downstream(op) && Stretch(h, chain, q, Step(h, n, op), ops, ds, k, rest, m)
    ensures Stretch(h, chain, q, n, [op] + ops, ds, k, [Local(op)] + rest, m)
  {
    var first := [Local(op)] + rest;
    assert first[1..] == rest;
    assert Received(chain, first)[1..] == Received(chain, rest);
  }

  lemma FrameFirstRuns(h: Host, chain: seq<Command>, n: Node, d: Delivery, rest: seq<Delivery>)
    requires !d.Local? && |Sent(chain, d)| == 1
    ensures Run(h, n, Received(chain, [d] + rest)) == Run(h, Step(h, n, Sent(chain, d)[0]), Received(chain, rest))
  {
    var first := [d] + rest;
    assert first[1..] == rest;
    assert Received(chain, first)[1..] == Received(chain, rest);
  }

  lemma FrameFirst(h: Host, chain: seq<Command>, q: nat, n: Node, ops: seq<Op>, ds: seq<Delivery>, k: nat, rest: seq<Delivery>, m: Node)
    requires ds != [] && !ds[0].Local? && |Sent(chain, ds[0])| == 1 && HonestStep(h, chain, q, ds[0])
    requires Stretch(h, chain, Arrived(q, ds[0]), Step(h, n, Sent(chain, ds[0])[0]), ops, ds[1..], k, rest, m)
    ensures Stretch(h, chain, q, n, ops, ds, k + 1, [ds[0]] + rest, m)
  {
    FrameFirstRuns(h, chain, n, ds[0], rest);
    var first := [ds[0]] + rest;
    assert first[1..] == rest;
    assert ds[..k + 1][0] == ds[0] && ds[..k + 1][1..] == ds[1..][..k];
  }

  /** Cut off, only the node's own operations go on. */
  lemma {:induction false} OnlyTurns(h: Host, decode: Decoder, chain: seq<Command>, q: nat, n: Node, alive: bool, agenda: seq<Turn>,
                                     frames: seq<Frame>, ds: seq<Delivery>) returns (first: seq<Delivery>)
    requires AllLocal(OwnOps(agenda)) && (!alive || frames == [])
    ensures Stretch(h, chain, q, n, OwnOps(agenda), ds, 0, first, LiveBy(h, decode, n, alive, agenda, frames).0)
    decreases |agenda|
  {
    first := [];
    if agenda != [] {
      OwnOpsFirst(agenda);
      match agenda[0] {
        case Here(op) =>
          var rest := OnlyTurns(h, decode, chain, q, Step(h, n, op), alive, agenda[1..], frames, ds);
          LocalFirst(h, chain, q, n, op, OwnOps(agenda[1..]), ds, 0, rest, LiveBy(h, decode, n, alive, agenda, frames).0);
          first := [Local(op)] + rest;
        case NextFrame =>
          first := OnlyTurns(h, decode, chain, q, n, alive, agenda[1..], frames, ds);
      }
    }
  }

  lemma OwnOpsFirst(agenda: seq<Turn>)
    requires agenda != [] && AllLocal(OwnOps(agenda))
    ensures AllLocal(OwnOps(agenda[1..])) && (agenda[0].Here? ==> !Downstream(agenda[0].op))
    ensures OwnOps(agenda) == (if agenda[0].Here? then [agenda[0].op] else []) + OwnOps(agenda[1..])
  {
    var ops, rest := OwnOps(agenda), OwnOps(agenda[1..]);
    if agenda[0].Here? {
      assert ops[0] == agenda[0].op;
      assert forall i :: 0 <= i < |rest| ==> rest[i] == ops[i + 1];
    } else {
      assert ops == rest;
    }
  }

  /** By turns: a schedule of all own operations and of the first `k` messages; all of them if none raised. */
  lemma {:induction false} TurnsAreASchedule(h: Host, decode: Decoder, chain: seq<Command>, q: nat, n: Node, agenda: seq<Turn>,
                                             frames: seq<Frame>, ds: seq<Delivery>) returns (first: seq<Delivery>, k: nat)
    requires q <= |chain| && Honest(h, chain, q, ds) && Reads(h, decode, chain, frames, ds) && AllLocal(OwnOps(agenda))
    ensures var (m, going) := LiveBy(h, decode, n, true, agenda, frames);
            Stretch(h, chain, q, n, OwnOps(agenda), ds, k, first, m) && (going ==> k == |ds|)
    decreases |agenda|
  {
    if agenda == [] {
      k := OnlyFrames(h, decode, chain, q, n, frames, ds);
      first := ds[..k];
    } else if agenda[0].Here? {
      OwnOpsFirst(agenda);
      var op, rest := agenda[0].op, [];
      rest, k := TurnsAreASchedule(h, decode, chain, q, Step(h, n, op), agenda[1..], frames, ds);
      LocalFirst(h, chain, q, n, op, OwnOps(agenda[1..]), ds, k, rest, LiveBy(h, decode, n, true, agenda, frames).0);
      first := [Local(op)] + rest;
    } else if frames == [] {
      OwnOpsFirst(agenda);
      first, k := TurnsAreASchedule(h, decode, chain, q, n, agenda[1..], frames, ds);
    } else {
      OwnOpsFirst(agenda);
      first, k := FrameTurn(h, decode, chain, q, n, agenda, frames, ds);
    }
  }

  lemma {:induction false} FrameTurn(h: Host, decode: Decoder, chain: seq<Command>, q: nat, n: Node, agenda: seq<Turn>,
                                     frames: seq<Frame>, ds: seq<Delivery>) returns (first: seq<Delivery>, k: nat)
    requires q <= |chain| && Honest(h, chain, q, ds) && Reads(h, decode, chain, frames, ds) && AllLocal(OwnOps(agenda))
    requires agenda != [] && agenda[0].NextFrame? && frames != []
    ensures var (m, going) := LiveBy(h, decode, n, true, agenda, frames);
            Stretch(h, chain, q, n, OwnOps(agenda), ds, k, first, m) && (going ==> k == |ds|)
    decreases |agenda|, 0
  {
    OwnOpsFirst(agenda);
    ReadsRest(h, decode, chain, frames, ds, 1);
    HonestPrefix(h, chain, q, ds, 1);
    var (n1, going) := FrameStep(h, decode, n, frames[0]);
    var rest;
    if going {
      ArrivedInRange(h, chain, q, ds[0]);
      rest, k := TurnsAreASchedule(h, decode, chain, Arrived(q, ds[0]), n1, agenda[1..], frames[1..], ds[1..]);
    } else {
      rest := OnlyTurns(h, decode, chain, Arrived(q, ds[0]), n1, false, agenda[1..], frames[1..], ds[1..]);
      k := 0;
      DeadStaysDead(h, decode, n1, agenda[1..], frames[1..]);
    }
    FrameFirst(h, chain, q, n, OwnOps(agenda), ds, k, rest, LiveBy(h, decode, n, true, agenda, frames).0);
    first, k := [ds[0]] + rest, k + 1;
  }

  lemma ArrivedInRange(h: Host, chain: seq<Command>, q: nat, d: Delivery)
    requires q <= |chain| && HonestStep(h, chain, q, d)
    ensures Arrived(q, d) <= |chain|
  {}

  lemma {:induction false} DeadStaysDead(h: Host, decode: Decoder, n: Node, agenda: seq<Turn>, frames: seq<Frame>)
    ensures !LiveBy(h, decode, n, false, agenda, frames).1
    decreases |agenda|
  {
    if agenda != [] {
      DeadStaysDead(h, decode, if agenda[0].Here? then Step(h, n, agenda[0].op) else n, agenda[1..], frames);
    }
  }

  lemma ConnectionIsASchedule(h: Host, decode: Decoder, chain: seq<Command>, q: nat, p: nat, n: Node, alive: bool, c: Connection)
    returns (first: seq<Delivery>)
    requires q <= p <= |chain| && HonestPlane(h, decode, chain, p, [c])
    ensures Honest(h, chain, q, first) && ArrivedAll(q, first) <= ArrivedAll(p, c.ds) <= |chain| && PartOf(c, first)
    ensures var (m, going) := LiveOnce(h, decode, n, alive, c);
            m == Run(h, n, Received(chain, first)) && (going && Whole(c) ==> ArrivedAll(q, first) == ArrivedAll(p, c.ds))
  {
    var j := BrokenConnection(c);
    var k;
    first, k := PrefixIsASchedule(h, decode, chain, q, p, n, alive, c, j);
    StretchArrives(h, chain, q, p, n, OwnOps(c.agenda), c.ds, k, first, LiveOnce(h, decode, n, alive, c).0);
  }

  lemma PrefixIsASchedule(h: Host, decode: Decoder, chain: seq<Command>, q: nat, p: nat, n: Node, alive: bool, c: Connection, j: nat)
    returns (first: seq<Delivery>, k: nat)
    requires q <= p <= |chain| && HonestPlane(h, decode, chain, p, [c])
    requires j <= |c.ds| && Broken(c) == c.frames[..j]
    ensures var (m, going) := LiveOnce(h, decode, n, alive, c);
            Stretch(h, chain, q, n, OwnOps(c.agenda), c.ds, k, first, m) && (going ==> k == j)
  {
    HonestToLaggards(h, chain, q, p, c.ds, j);
    HonestPrefix(h, chain, q, c.ds, j);
    ToldIsRead(h, decode, chain, c.frames, c.ds);
    ReadsRest(h, decode, chain, c.frames, c.ds, j);
    first, k := SomeTurns(h, decode, chain, q, n, alive, c.agenda, c.frames[..j], c.ds, j);
  }

  lemma SomeTurns(h: Host, decode: Decoder, chain: seq<Command>, q: nat, n: Node, alive: bool, agenda: seq<Turn>, frames: seq<Frame>,
                  ds: seq<Delivery>, j: nat) returns (first: seq<Delivery>, k: nat)
    requires q <= |chain| && j <= |ds| && Honest(h, chain, q, ds[..j]) && Reads(h, decode, chain, frames, ds[..j]) && AllLocal(OwnOps(agenda))
    ensures var (m, going) := LiveBy(h, decode, n, alive, agenda, frames);
            Stretch(h, chain, q, n, OwnOps(agenda), ds, k, first, m) && (going ==> k == j)
  {
    k := 0;
    if alive {
      first, k := TurnsAreASchedule(h, decode, chain, q, n, agenda, frames, ds[..j]);
      assert ds[..j][..k] == ds[..k];
    } else {
      first := OnlyTurns(h, decode, chain, q, n, false, agenda, frames, ds);
      DeadStaysDead(h, decode, n, agenda, frames);
    }
  }

  lemma StretchArrives(h: Host, chain: seq<Command>, q: nat, p: nat, n: Node, ops: seq<Op>, ds: seq<Delivery>, k: nat, first: seq<Delivery>, m: Node)
    requires q <= p <= |chain| && ds != [] && ds[0].Reconnect? && Honest(h, chain, p, ds)
    requires Stretch(h, chain, q, n, ops, ds, k, first, m)
    ensures ArrivedAll(q, first) <= ArrivedAll(p, ds) <= |chain| && (k == |ds| ==> ArrivedAll(q, first) == ArrivedAll(p, ds))
  {
    HonestToLaggards(h, chain, q, p, ds, k);
    HonestPrefix(h, chain, p, ds, k);
    assert ds[..|ds|] == ds;
  }

  // ---- all connections --------------------------------------------------------------------------

  lemma {:induction false} LocalOpsAppend(ds: seq<Delivery>, es: seq<Delivery>)
    ensures LocalOps(ds + es) == LocalOps(ds) + LocalOps(es)
  {
    if ds == [] {
      assert ds + es == es;
    } else {
      LocalOpsAppend(ds[1..], es);
      assert (ds + es)[0] == ds[0] && (ds + es)[1..] == ds[1..] + es;
      Associate(if ds[0].Local? then [ds[0].op] else [], LocalOps(ds[1..]), LocalOps(es));
    }
  }

  lemma PartsJoin(cs: seq<Connection>, first: seq<Delivery>, rest: seq<Delivery>)
    requires cs != [] && PartOf(cs[0], first) && MadeOf(cs[1..], rest)
    ensures MadeOf(cs, first + rest)
  {
    assert (first + rest)[..|first|] == first && (first + rest)[|first|..] == rest;
  }

  lemma {:induction false} MadeOfOwnOps(cs: seq<Connection>, ds: seq<Delivery>)
    requires MadeOf(cs, ds)
    ensures LocalOps(ds) == AllOwnOps(cs)
    decreases |cs|
  {
    if cs != [] {
      var j: nat :| j <= |ds| && PartOf(cs[0], ds[..j]) && MadeOf(cs[1..], ds[j..]);
      MadeOfOwnOps(cs[1..], ds[j..]);
      LocalOpsAppend(ds[..j], ds[j..]);
      assert ds[..j] + ds[j..] == ds;
    }
  }

  lemma Joined(h: Host, chain: seq<Command>, q: nat, n: Node, first: seq<Delivery>, rest: seq<Delivery>)
    requires Honest(h, chain, q, first) && Honest(h, chain, ArrivedAll(q, first), rest)
    ensures Honest(h, chain, q, first + rest) && ArrivedAll(q, first + rest) == ArrivedAll(ArrivedAll(q, first), rest)
    ensures Run(h, n, Received(chain, first + rest)) == Run(h, Run(h, n, Received(chain, first)), Received(chain, rest))
  {
    HonestAppend(h, chain, q, first, rest);
    ReceivedAppend(chain, first, rest);
    RunAppend(h, n, Received(chain, first), Received(chain, rest));
  }

  /** The schedule explains the life over these connections. */
  ghost predicate Explains(h: Host, decode: Decoder, chain: seq<Command>, q: nat, p: nat, n: Node, alive: bool, cs: seq<Connection>, ds: seq<Delivery>)
  {
    && Honest(h, chain, q, ds) && Lived(h, decode, n, alive, cs).0 == Run(h, n, Received(chain, ds))
    && MadeOf(cs, ds) && ArrivedAll(q, ds) <= Told(p, cs)
    && (Lived(h, decode, n, alive, cs).1 && cs != [] && Whole(Last(cs)) ==> ArrivedAll(q, ds) == Told(p, cs))
  }

  lemma NextConnection(h: Host, decode: Decoder, chain: seq<Command>, q: nat, p: nat, n: Node, alive: bool, cs: seq<Connection>,
                       first: seq<Delivery>, rest: seq<Delivery>)
    requires cs != [] && Honest(h, chain, q, first) && PartOf(cs[0], first)
    requires var (n1, going) := LiveOnce(h, decode, n, alive, cs[0]);
             && n1 == Run(h, n, Received(chain, first))
             && (going && Whole(cs[0]) ==> ArrivedAll(q, first) == ArrivedAll(p, cs[0].ds))
             && Explains(h, decode, chain, ArrivedAll(q, first), ArrivedAll(p, cs[0].ds), n1, going, cs[1..], rest)
    ensures Explains(h, decode, chain, q, p, n, alive, cs, first + rest)
  {
    Joined(h, chain, q, n, first, rest);
    PartsJoin(cs, first, rest);
    assert |cs| == 1 ==> rest == [];
  }

  lemma HonestFirst(h: Host, decode: Decoder, chain: seq<Command>, p: nat, cs: seq<Connection>)
    requires cs != [] && HonestPlane(h, decode, chain, p, cs)
    ensures HonestPlane(h, decode, chain, p, [cs[0]]) && HonestPlane(h, decode, chain, ArrivedAll(p, cs[0].ds), cs[1..])
  {}

  /** Whatever breaks where, the node has lived through an honest schedule made of the connections. */
  lemma {:induction false} LifeIsASchedule(h: Host, decode: Decoder, chain: seq<Command>, q: nat, p: nat, n: Node, alive: bool,
                                           cs: seq<Connection>) returns (ds: seq<Delivery>)
    requires q <= p <= |chain| && HonestPlane(h, decode, chain, p, cs)
    ensures Explains(h, decode, chain, q, p, n, alive, cs, ds)
    decreases |cs|
  {
    ds := [];
    if cs != [] {
      var (n1, going) := LiveOnce(h, decode, n, alive, cs[0]);
      HonestFirst(h, decode, chain, p, cs);
      var first := ConnectionIsASchedule(h, decode, chain, q, p, n, alive, cs[0]);
      var rest := LifeIsASchedule(h, decode, chain, ArrivedAll(q, first), ArrivedAll(p, cs[0].ds), n1, going, cs[1..]);
      NextConnection(h, decode, chain, q, p, n, alive, cs, first, rest);
      ds := first + rest;
    }
  }

  /**
    End to end: over connections that break after any character, an honest plane leaves the node as
    uninterrupted delivery of the commands that arrived, connection by connection with the node's own
    operations, all of them and no others; and if the last neither broke nor raised, all commands have arrived.
   */
  lemma BrokenStreamsAreTransparent(h: Host, decode: Decoder, chain: seq<Command>, n: Node, cs: seq<Connection>) returns (ds: seq<Delivery>)
    requires Chain(h, chain) && PlaneReconnect.Before(n, chain) && Smooth(h, n.ctl, chain)
    requires HonestPlane(h, decode, chain, 0, cs)
    ensures Honest(h, chain, 0, ds) && MadeOf(cs, ds) && LocalOps(ds) == AllOwnOps(cs) && ArrivedAll(0, ds) <= Told(0, cs)
    ensures var (lived, alive) := Lived(h, decode, n, true, cs);
            var whole := Run(h, n, Uninterrupted(chain, 0, ds));
            && lived.ctl == whole.ctl && lived.consumed == whole.consumed && lived.outbox == whole.outbox
            && whole.version <= lived.version
            && (alive && cs != [] && Whole(Last(cs)) ==> ArrivedAll(0, ds) == Told(0, cs))
  {
    ds := LifeIsASchedule(h, decode, chain, 0, 0, n, true, cs);
    MadeOfOwnOps(cs, ds);
    ReconnectIsTransparent(h, chain, ds, n);
  }
}
