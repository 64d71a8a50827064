/**
  The telemetry direction: durable events move from the outbox into batches in flight, and back or on,
  across an await. Between the two halves of a flush anything may happen, other flushes included.
 */
module PlaneTransport {
  import opened Basics
  import opened Json
  import opened PlaneState

  datatype Pulse = Pulse(appliedVersion: int, consumed: set<string>, level: string, budgetRemaining: Option<int>)

  datatype Telemetry =
    | Durable(ack: Ack)
    | Extra(event: Value)
    | Heartbeat(pulse: Pulse)

  datatype Line = Line(seqNo: nat, event: Telemetry)

  /** The durable events among the lines, in their order. */
  function DurableOf(lines: seq<Line>): seq<Ack>
  {
    if lines == [] then []
    else (if lines[0].event.Durable? then [lines[0].event.ack] else []) + DurableOf(lines[1..])
  }

  /** What one flush POSTs, and the durable events it must not lose. */
  datatype Posting = Posting(durable: seq<Ack>, lines: seq<Line>)

  /** The lines of a batch tell exactly the durable events it is held for. */
  type Batch = p: Posting | DurableOf(p.lines) == p.durable witness Posting([], [])

  /** `nextSeq` numbers the lines; `spool` is the file's content when a path is configured. */
  datatype Channel = Channel(outbox: seq<Ack>, spool: seq<Ack>, nextSeq: nat)

  function Lines(events: seq<Telemetry>, from: nat): seq<Line>
  {
    if events == [] then [] else [Line(from, events[0])] + Lines(events[1..], from + 1)
  }

  function DurableEvents(acks: seq<Ack>): seq<Telemetry>
  {
    Map(ack => Durable(ack), acks)
  }

  function ExtraEvents(events: seq<Value>): seq<Telemetry>
  {
    Map(event => Extra(event), events)
  }

  lemma {:induction false} LinesSplit(a: seq<Telemetry>, b: seq<Telemetry>, from: nat)
    ensures Lines(a + b, from) == Lines(a, from) + Lines(b, from + |a|)
  {
    if a == [] {
      assert a + b == b;
    } else {
      assert (a + b)[1..] == a[1..] + b;
      LinesSplit(a[1..], b, from + 1);
      Associate([Line(from, a[0])], Lines(a[1..], from + 1), Lines(b, from + |a|));
    }
  }

  lemma {:induction false} DurableOfSplits(a: seq<Line>, b: seq<Line>)
    ensures DurableOf(a + b) == DurableOf(a) + DurableOf(b)
  {
    if a == [] {
      assert a + b == b && DurableOf(a) == [];
    } else {
      assert (a + b)[0] == a[0] && (a + b)[1..] == a[1..] + b;
      DurableOfSplits(a[1..], b);
      Associate(if a[0].event.Durable? then [a[0].event.ack] else [], DurableOf(a[1..]), DurableOf(b));
    }
  }

  lemma {:induction false} DurableLinesTell(acks: seq<Ack>, from: nat)
    ensures DurableOf(Lines(DurableEvents(acks), from)) == acks
  {
    if acks != [] {
      assert DurableEvents(acks)[1..] == DurableEvents(acks[1..]);
      DurableLinesTell(acks[1..], from + 1);
      assert Lines(DurableEvents(acks), from)[1..] == Lines(DurableEvents(acks[1..]), from + 1);
    }
  }

  lemma {:induction false} ExtraLinesTell(extra: seq<Value>, from: nat)
    ensures DurableOf(Lines(ExtraEvents(extra), from)) == []
  {
    if extra != [] {
      assert ExtraEvents(extra)[1..] == ExtraEvents(extra[1..]);
      ExtraLinesTell(extra[1..], from + 1);
      assert Lines(ExtraEvents(extra), from)[1..] == Lines(ExtraEvents(extra[1..]), from + 1);
    }
  }

  lemma LinesTell(durable: seq<Ack>, extra: seq<Value>, pulse: Pulse, from: nat)
    ensures DurableOf(Lines(DurableEvents(durable) + ExtraEvents(extra) + [Heartbeat(pulse)], from)) == durable
  {
    var d, e, h := DurableEvents(durable), ExtraEvents(extra), [Heartbeat(pulse)];
    LinesSplit(d + e, h, from);
    LinesSplit(d, e, from);
    DurableOfSplits(Lines(d, from) + Lines(e, from + |d|), Lines(h, from + |d + e|));
    DurableOfSplits(Lines(d, from), Lines(e, from + |d|));
    DurableLinesTell(durable, from);
    ExtraLinesTell(extra, from + |d|);
  }

  function LoadSpool(spooling: bool, c: Channel): seq<Ack>
  {
    if spooling then c.spool else []
  }

  function SaveSpool(spooling: bool, c: Channel, acks: seq<Ack>): Channel
  {
    if spooling then c.(spool := acks) else c
  }

  /** The half of a flush before its POST. */
  function BeginFlush(spooling: bool, c: Channel, extra: seq<Value>, pulse: Pulse): (Channel, Batch)
  {
    var durable := LoadSpool(spooling, c) + c.outbox;
    var events := DurableEvents(durable) + ExtraEvents(extra) + [Heartbeat(pulse)];
    LinesTell(durable, extra, pulse, c.nextSeq);
    (c.(outbox := [], nextSeq := c.nextSeq + |events|), Posting(durable, Lines(events, c.nextSeq)))
  }

  /** The half after it: the plane acknowledged the batch, or the POST failed. */
  function EndFlush(spooling: bool, c: Channel, b: Batch, delivered: bool): Channel
  {
    if delivered then SaveSpool(spooling, c, [])
    else if spooling then SaveSpool(spooling, c, b.durable)
    else c.(outbox := b.durable + c.outbox)
  }

  // ---- runs -------------------------------------------------------------------------------------

  datatype Move =
    | Append(ack: Ack)
    | Begin(extra: seq<Value>, pulse: Pulse)
    | End(i: nat, delivered: bool)        // the i-th batch in flight

  /** The channel with its history: what was appended, is in flight, was acknowledged, was ever sent.
      Acknowledged are the events told by the lines of a batch that got through. */
  datatype World = World(channel: Channel, inFlight: seq<Batch>, appended: seq<Ack>, acked: seq<Ack>, sent: seq<Batch>)

  /** What a run starts with counts as appended. */
  function Start(spooling: bool, c: Channel): World
  {
    World(c, [], LoadSpool(spooling, c) + c.outbox, [], [])
  }

  predicate Enabled(w: World, m: Move)
  {
    m.End? ==> m.i < |w.inFlight|
  }

  function Next(spooling: bool, w: World, m: Move): World
    requires Enabled(w, m)
  {
    match m
    case Append(ack) =>
      w.(channel := w.channel.(outbox := w.channel.outbox + [ack]), appended := w.appended + [ack])
    case Begin(extra, pulse) =>
      var (c, b) := BeginFlush(spooling, w.channel, extra, pulse);
      w.(channel := c, inFlight := w.inFlight + [b], sent := w.sent + [b])
    case End(i, delivered) =>
      var b := w.inFlight[i];
      w.(channel := EndFlush(spooling, w.channel, b, delivered),
         inFlight := Without(w.inFlight, i),
         acked := if delivered then w.acked + DurableOf(b.lines) else w.acked)
  }

  /** World `k` goes over into the next by some move. */
  ghost predicate Goes(spooling: bool, ws: seq<World>, k: int)
  {
    0 <= k < |ws| - 1 && exists m :: Enabled(ws[k], m) && ws[k + 1] == Next(spooling, ws[k], m)
  }

  /** `ws` is a run: each world follows from the one before by some move. */
  ghost predicate IsRun(spooling: bool, ws: seq<World>)
  {
    && ws != [] && ws[0] == Start(spooling, ws[0].channel)
    && forall k :: 0 <= k < |ws| - 1 ==> Goes(spooling, ws, k)
  }

  lemma MoveAt(spooling: bool, ws: seq<World>, k: nat) returns (m: Move)
    requires IsRun(spooling, ws) && k < |ws| - 1
    ensures Enabled(ws[k], m) && ws[k + 1] == Next(spooling, ws[k], m)
  {
    assert Goes(spooling, ws, k);
    m :| Enabled(ws[k], m) && ws[k + 1] == Next(spooling, ws[k], m);
  }

  /** No two flushes overlap. */
  predicate Sequential(ws: seq<World>)
  {
    forall k :: 0 <= k < |ws| ==> |ws[k].inFlight| <= 1
  }

  function Carried(bs: seq<Batch>): multiset<Ack>
  {
    if bs == [] then multiset{} else Carried(Init(bs)) + multiset(Last(bs).durable)
  }

  lemma {:induction false} CarriedWithout(bs: seq<Batch>, i: nat)
    requires i < |bs|
    ensures Carried(bs) == Carried(Without(bs, i)) + multiset(bs[i].durable)
  {
    WithoutInit(bs, i);
    if i < |bs| - 1 {
      CarriedWithout(Init(bs), i);
      assert Init(bs)[i] == bs[i];
      CarriedLater(Init(bs), i, Last(bs), Without(Init(bs), i), Without(bs, i));
    }
  }

  lemma CarriedLater(front: seq<Batch>, i: nat, b: Batch, less: seq<Batch>, all: seq<Batch>)
    requires i < |front| && Carried(front) == Carried(less) + multiset(front[i].durable) && all == less + [b]
    ensures Carried(front) + multiset(b.durable) == Carried(all) + multiset(front[i].durable)
  {
    CarriedAppend(less, b);
  }

  lemma CarriedAppend(bs: seq<Batch>, b: Batch)
    ensures Carried(bs + [b]) == Carried(bs) + multiset(b.durable)
  {
    assert Init(bs + [b]) == bs;
  }

  /** Nothing appended is lost and nothing is made up. */
  predicate Conserved(w: World)
  {
    multiset(w.appended) == multiset(w.channel.outbox) + Carried(w.inFlight) + multiset(w.acked)
  }

  lemma BeginConserves(w: World, extra: seq<Value>, pulse: Pulse)
    requires Conserved(w)
    ensures Conserved(Next(false, w, Begin(extra, pulse)))
  {
    var b := BeginFlush(false, w.channel, extra, pulse).1;
    CarriedAppend(w.inFlight, b);
    assert b.durable == w.channel.outbox;
  }

  lemma EndConserves(w: World, i: nat, delivered: bool)
    requires i < |w.inFlight| && Conserved(w)
    ensures Conserved(Next(false, w, End(i, delivered)))
  {
    var b := w.inFlight[i];
    CarriedWithout(w.inFlight, i);
    assert DurableOf(b.lines) == b.durable;
  }

  lemma NextConserves(w: World, m: Move)
    requires Enabled(w, m) && Conserved(w)
    ensures Conserved(Next(false, w, m))
  {
    match m
    case Append(_) =>
    case Begin(extra, pulse) => BeginConserves(w, extra, pulse);
    case End(i, delivered) => EndConserves(w, i, delivered);
  }

  lemma StartConserves(w: World)
    requires w == Start(false, w.channel)
    ensures Conserved(w)
  {}

  lemma {:induction false} RunsConserve(ws: seq<World>, k: nat)
    requires IsRun(false, ws) && k < |ws|
    ensures Conserved(ws[k])
  {
    if k == 0 {
      StartConserves(ws[0]);
    } else {
      RunsConserve(ws, k - 1);
      var m := MoveAt(false, ws, k - 1);
      NextConserves(ws[k - 1], m);
    }
  }

  /** Without a spool, whatever flushes overlap: every appended event is waiting, in flight or acknowledged. */
  lemma AcksAreConserved(ws: seq<World>, k: nat)
    requires IsRun(false, ws) && k < |ws|
    ensures multiset(ws[k].appended) == multiset(ws[k].channel.outbox) + Carried(ws[k].inFlight) + multiset(ws[k].acked)
  {
    RunsConserve(ws, k);
  }

  /** While one flush at a time runs: acknowledged, then carried or spooled, then waiting, in the order appended. */
  predicate Ordered(spooling: bool, w: World)
  {
    && (w.inFlight == [] ==> w.appended == w.acked + LoadSpool(spooling, w.channel) + w.channel.outbox)
    && (|w.inFlight| == 1 ==> w.appended == w.acked + w.inFlight[0].durable + w.channel.outbox)
  }

  lemma AppendKeepsOrder(spooling: bool, w: World, ack: Ack)
    requires Ordered(spooling, w)
    ensures Ordered(spooling, Next(spooling, w, Append(ack)))
  {}

  lemma BeginKeepsOrder(spooling: bool, w: World, extra: seq<Value>, pulse: Pulse)
    requires Ordered(spooling, w) && w.inFlight == []
    ensures Ordered(spooling, Next(spooling, w, Begin(extra, pulse)))
  {
    assert BeginFlush(spooling, w.channel, extra, pulse).1.durable == LoadSpool(spooling, w.channel) + w.channel.outbox;
  }

  lemma EndKeepsOrder(spooling: bool, w: World, delivered: bool)
    requires Ordered(spooling, w) && |w.inFlight| == 1
    ensures Ordered(spooling, Next(spooling, w, End(0, delivered)))
  {
    var b := w.inFlight[0];
    assert Without(w.inFlight, 0) == [];
    assert DurableOf(b.lines) == b.durable;
    Associate(w.acked, b.durable, w.channel.outbox);
  }

  lemma NextKeepsOrder(spooling: bool, w: World, m: Move)
    requires Enabled(w, m) && Ordered(spooling, w)
    requires |w.inFlight| <= 1 && |Next(spooling, w, m).inFlight| <= 1
    ensures Ordered(spooling, Next(spooling, w, m))
  {
    match m
    case Append(ack) => AppendKeepsOrder(spooling, w, ack);
    case Begin(extra, pulse) => BeginKeepsOrder(spooling, w, extra, pulse);
    case End(i, delivered) => EndKeepsOrder(spooling, w, delivered);
  }

  /** In both modes, flushes that do not overlap deliver in order, each event once. */
  lemma {:induction false} SequentialFlushesKeepOrder(spooling: bool, ws: seq<World>, k: nat)
    requires IsRun(spooling, ws) && Sequential(ws) && k < |ws|
    ensures Ordered(spooling, ws[k])
  {
    if k > 0 {
      SequentialFlushesKeepOrder(spooling, ws, k - 1);
      var j := k - 1;
      var m := MoveAt(spooling, ws, j);
      NextKeepsOrder(spooling, ws[j], m);
    }
  }

  // ---- sequence numbers -------------------------------------------------------------------------

  function AllLines(bs: seq<Batch>): seq<Line>
  {
    if bs == [] then [] else AllLines(Init(bs)) + Last(bs).lines
  }

  lemma {:induction false} LinesAreNumbered(events: seq<Telemetry>, from: nat)
    ensures |Lines(events, from)| == |events|
    ensures forall i :: 0 <= i < |events| ==> Lines(events, from)[i] == Line(from + i, events[i])
  {
    if events != [] {
      LinesAreNumbered(events[1..], from + 1);
    }
  }

  predicate Dense(w: World)
  {
    && |AllLines(w.sent)| == w.channel.nextSeq
    && forall i :: 0 <= i < |AllLines(w.sent)| ==> AllLines(w.sent)[i].seqNo == i
  }

  lemma NextIsDense(spooling: bool, w: World, m: Move)
    requires Enabled(w, m) && Dense(w)
    ensures Dense(Next(spooling, w, m))
  {
    if m.Begin? {
      var (c, b) := BeginFlush(spooling, w.channel, m.extra, m.pulse);
      LinesAreNumbered(DurableEvents(b.durable) + ExtraEvents(m.extra) + [Heartbeat(m.pulse)], w.channel.nextSeq);
      assert Init(w.sent + [b]) == w.sent;
      assert AllLines(w.sent + [b]) == AllLines(w.sent) + b.lines;
    }
  }

  /** Every line ever sent: line number `i` is the `i`-th, so batches are contiguous and numbers are never reused. */
  lemma {:induction false} SequenceNumbersAreDense(spooling: bool, ws: seq<World>, k: nat)
    requires IsRun(spooling, ws) && ws[0].channel.nextSeq == 0 && k < |ws|
    ensures |AllLines(ws[k].sent)| == ws[k].channel.nextSeq
    ensures forall i :: 0 <= i < |AllLines(ws[k].sent)| ==> AllLines(ws[k].sent)[i].seqNo == i
  {
    if k > 0 {
      SequenceNumbersAreDense(spooling, ws, k - 1);
      var j := k - 1;
      var m := MoveAt(spooling, ws, j);
      NextIsDense(spooling, ws[j], m);
    }
  }

  // ---- what a batch posts -----------------------------------------------------------------------

  /** The lines of a batch: its durable events in order, then the extras in order, and last the one heartbeat. */
  ghost predicate Posts(b: Batch, durable: seq<Ack>, extra: seq<Value>, pulse: Pulse)
  {
    && |b.lines| == |durable| + |extra| + 1
    && (forall i :: 0 <= i < |durable| ==> b.lines[i].event == Durable(durable[i]))
    && (forall i :: 0 <= i < |extra| ==> b.lines[|durable| + i].event == Extra(extra[i]))
    && Last(b.lines).event == Heartbeat(pulse)
  }

  lemma LinesPost(durable: seq<Ack>, extra: seq<Value>, pulse: Pulse, from: nat)
    ensures var lines := Lines(DurableEvents(durable) + ExtraEvents(extra) + [Heartbeat(pulse)], from);
            DurableOf(lines) == durable && Posts(Posting(durable, lines), durable, extra, pulse)
  {
    var d, e := DurableEvents(durable), ExtraEvents(extra);
    var events := d + e + [Heartbeat(pulse)];
    LinesTell(durable, extra, pulse, from);
    LinesAreNumbered(events, from);
    forall i | 0 <= i < |extra| ensures events[|durable| + i] == Extra(extra[i]) {
      assert events[|durable| + i] == e[i];
    }
  }

  lemma BatchPosts(spooling: bool, c: Channel, extra: seq<Value>, pulse: Pulse)
    ensures var b := BeginFlush(spooling, c, extra, pulse).1;
            Posts(b, (if spooling then c.spool else []) + c.outbox, extra, pulse) && DurableOf(b.lines) == b.durable
  {
    LinesPost(LoadSpool(spooling, c) + c.outbox, extra, pulse, c.nextSeq);
  }

  /** The batch is what a flush posts that begins at step `j`: all that is spooled and waiting there, and behind it extras and heartbeat. */
  ghost predicate PostedAt(spooling: bool, ws: seq<World>, j: nat, b: Batch)
    requires j < |ws| - 1
  {
    exists extra, pulse ::
      && ws[j + 1] == Next(spooling, ws[j], Begin(extra, pulse)) && ws[j + 1].channel.outbox == []
      && Posts(b, (if spooling then ws[j].channel.spool else []) + ws[j].channel.outbox, extra, pulse)
  }

  lemma BeginsPost(spooling: bool, ws: seq<World>, j: nat, extra: seq<Value>, pulse: Pulse)
    requires j < |ws| - 1 && ws[j + 1] == Next(spooling, ws[j], Begin(extra, pulse))
    ensures PostedAt(spooling, ws, j, BeginFlush(spooling, ws[j].channel, extra, pulse).1)
  {
    BatchPosts(spooling, ws[j].channel, extra, pulse);
  }

  lemma SentByNext(spooling: bool, w: World, m: Move, i: nat)
    requires Enabled(w, m) && i < |Next(spooling, w, m).sent|
    ensures i < |w.sent| ==> Next(spooling, w, m).sent[i] == w.sent[i]
    ensures i >= |w.sent| ==> m.Begin? && Next(spooling, w, m).sent[i] == BeginFlush(spooling, w.channel, m.extra, m.pulse).1
  {}

  /** Every batch ever sent posts what was spooled and waiting when its flush began. */
  lemma {:induction false} SentBatchesTell(spooling: bool, ws: seq<World>, k: nat, i: nat) returns (j: nat)
    requires IsRun(spooling, ws) && k < |ws| && i < |ws[k].sent|
    ensures j < k && PostedAt(spooling, ws, j, ws[k].sent[i])
    ensures DurableOf(ws[k].sent[i].lines) == ws[k].sent[i].durable
  {
    j := k - 1;
    var m := MoveAt(spooling, ws, j);
    SentByNext(spooling, ws[j], m, i);
    if i < |ws[j].sent| {
      j := SentBatchesTell(spooling, ws, j, i);
    } else {
      BeginsPost(spooling, ws, j, m.extra, m.pulse);
    }
  }

  // ---- where it stops ---------------------------------------------------------------------------

  lemma BeginOpens(w: World, pulse: Pulse)
    ensures var w' := Next(true, w, Begin([], pulse));
            && w'.channel.outbox == [] && w'.channel.spool == w.channel.spool
            && |w'.inFlight| == |w.inFlight| + 1 && Init(w'.inFlight) == w.inFlight
            && Last(w'.inFlight).durable == w.channel.spool + w.channel.outbox
            && w'.appended == w.appended && w'.acked == w.acked
  {}

  lemma FailedEnd(w: World)
    requires w.inFlight != []
    ensures var w' := Next(true, w, End(0, false));
            && w'.channel.outbox == w.channel.outbox && w'.channel.spool == w.inFlight[0].durable
            && w'.inFlight == w.inFlight[1..] && w'.appended == w.appended && w'.acked == w.acked
  {}

  /** Two flushes are under way, one for each of two events. */
  ghost predicate TwoOpen(w: World, a: Ack, b: Ack)
  {
    && |w.inFlight| == 2 && w.inFlight[0].durable == [a] && w.inFlight[1].durable == [b]
    && w.channel.outbox == [] && w.channel.spool == [] && w.appended == [a, b] && w.acked == []
  }

  lemma FlushesOverlap(a: Ack, b: Ack, pulse: Pulse)
    ensures var w1 := Next(true, Next(true, Start(true, Channel([], [], 0)), Append(a)), Begin([], pulse));
            TwoOpen(Next(true, Next(true, w1, Append(b)), Begin([], pulse)), a, b)
  {
    var w0 := Next(true, Start(true, Channel([], [], 0)), Append(a));
    BeginOpens(w0, pulse);
    var w1 := Next(true, w0, Begin([], pulse));
    BeginOpens(Next(true, w1, Append(b)), pulse);
  }

  lemma BothFail(w: World, a: Ack, b: Ack)
    requires TwoOpen(w, a, b)
    ensures var w' := Next(true, Next(true, w, End(0, false)), End(0, false));
            w'.channel.outbox == [] && w'.channel.spool == [b] && w'.inFlight == [] && w'.appended == [a, b] && w'.acked == []
  {
    FailedEnd(w);
    FailedEnd(Next(true, w, End(0, false)));
  }

  /** With a spool, two flushes that overlap and fail keep only the later one's events. */
  lemma OverlapLosesSpooledEvents(a: Ack, b: Ack, pulse: Pulse)
    requires a != b
    ensures var w1 := Next(true, Next(true, Start(true, Channel([], [], 0)), Append(a)), Begin([], pulse));
            var w2 := Next(true, Next(true, w1, Append(b)), Begin([], pulse));
            |w2.inFlight| == 2 &&
            var w := Next(true, Next(true, w2, End(0, false)), End(0, false));
            && w.appended == [a, b] && w.inFlight == [] && w.acked == []
            && a !in w.channel.outbox + w.channel.spool
  {
    FlushesOverlap(a, b, pulse);
    var w1 := Next(true, Next(true, Start(true, Channel([], [], 0)), Append(a)), Begin([], pulse));
    BothFail(Next(true, Next(true, w1, Append(b)), Begin([], pulse)), a, b);
  }

  // ---- exactly when a spool loses ---------------------------------------------------------------

  /** The event is acknowledged, waiting, spooled or in flight. */
  predicate Somewhere(w: World, a: Ack)
  {
    a in w.acked || a in w.channel.outbox || a in w.channel.spool || a in Carried(w.inFlight)
  }

  /** Ending flush `i` overwrites or clears the only copy: it is in the spool, and neither in this flush nor elsewhere. */
  predicate LosesAt(w: World, i: nat, a: Ack)
    requires i < |w.inFlight|
  {
    && a in w.channel.spool && a !in w.inFlight[i].durable
    && a !in w.acked && a !in w.channel.outbox && a !in Carried(Without(w.inFlight, i))
  }

  /** With a spool, the end of a flush loses an event exactly then, acknowledged or failed. */
  lemma EndLosesIff(w: World, i: nat, delivered: bool, a: Ack)
    requires i < |w.inFlight|
    ensures Somewhere(w, a) && !Somewhere(Next(true, w, End(i, delivered)), a) <==> LosesAt(w, i, a)
  {
    CarriedWithout(w.inFlight, i);
  }

  lemma BeginKeeps(w: World, extra: seq<Value>, pulse: Pulse, a: Ack)
    ensures Somewhere(Next(true, w, Begin(extra, pulse)), a) <==> Somewhere(w, a)
  {
    var b := BeginFlush(true, w.channel, extra, pulse).1;
    CarriedAppend(w.inFlight, b);
    assert b.durable == w.channel.spool + w.channel.outbox;
  }

  lemma AppendKeeps(w: World, ack: Ack, a: Ack)
    ensures Somewhere(Next(true, w, Append(ack)), a) <==> Somewhere(w, a) || a == ack
  {}

  lemma EndMakesNothingUp(w: World, i: nat, delivered: bool, a: Ack)
    requires i < |w.inFlight| && Somewhere(Next(true, w, End(i, delivered)), a)
    ensures Somewhere(w, a)
  {
    CarriedWithout(w.inFlight, i);
  }

  /** Appends and beginning flushes lose nothing, and no move makes anything up. */
  lemma MovesKeep(w: World, m: Move, a: Ack)
    requires Enabled(w, m)
    ensures !m.End? && Somewhere(w, a) ==> Somewhere(Next(true, w, m), a)
    ensures Somewhere(Next(true, w, m), a) ==> Somewhere(w, a) || m == Append(a)
    ensures a in Next(true, w, m).appended <==> a in w.appended || m == Append(a)
    ensures m == Append(a) ==> Somewhere(Next(true, w, m), a)
  {
    match m
    case Append(ack) => AppendKeeps(w, ack, a);
    case Begin(extra, pulse) => BeginKeeps(w, extra, pulse, a);
    case End(i, delivered) => if Somewhere(Next(true, w, m), a) { EndMakesNothingUp(w, i, delivered, a); }
  }

  /** From one world to the next a flush ends that loses something. */
  ghost predicate LosingStep(w: World, w': World)
  {
    exists i: nat, delivered, a :: i < |w.inFlight| && LosesAt(w, i, a) && w' == Next(true, w, End(i, delivered))
  }

  ghost predicate Lacks(w: World, a: Ack)
  {
    a in w.appended && !Somewhere(w, a)
  }

  lemma {:induction false} NothingMadeUp(ws: seq<World>, k: nat, a: Ack)
    requires IsRun(true, ws) && k < |ws| && Somewhere(ws[k], a)
    ensures a in ws[k].appended
  {
    if k > 0 {
      var m := MoveAt(true, ws, k - 1);
      MovesKeep(ws[k - 1], m, a);
      if Somewhere(ws[k - 1], a) { NothingMadeUp(ws, k - 1, a); }
    }
  }

  lemma LostHere(w: World, m: Move, w': World, a: Ack)
    requires Enabled(w, m) && w' == Next(true, w, m) && Lacks(w', a)
    ensures Lacks(w, a) || LosingStep(w, w')
  {
    MovesKeep(w, m, a);
    if Somewhere(w, a) { EndLosesIff(w, m.i, m.delivered, a); }
  }

  lemma StartLacksNothing(w: World, a: Ack)
    requires w == Start(true, w.channel)
    ensures !Lacks(w, a)
  {}

  lemma LostAt(ws: seq<World>, j: nat, a: Ack)
    requires IsRun(true, ws) && j < |ws| - 1 && Lacks(ws[j + 1], a)
    ensures Lacks(ws[j], a) || LosingStep(ws[j], ws[j + 1])
  {
    var m := MoveAt(true, ws, j);
    LostHere(ws[j], m, ws[j + 1], a);
  }

  lemma {:induction false} LackingIsLost(ws: seq<World>, k: nat, a: Ack) returns (j: nat)
    requires IsRun(true, ws) && k < |ws| && Lacks(ws[k], a)
    ensures j < |ws| - 1 && LosingStep(ws[j], ws[j + 1])
  {
    StartLacksNothing(ws[0], a);
    j := k - 1;
    LostAt(ws, j, a);
    if Lacks(ws[j], a) { j := LackingIsLost(ws, j, a); }
  }

  lemma LosingStepShows(ws: seq<World>, j: nat) returns (a: Ack)
    requires IsRun(true, ws) && j < |ws| - 1 && LosingStep(ws[j], ws[j + 1])
    ensures Lacks(ws[j + 1], a)
  {
    var i: nat, delivered, lost :| i < |ws[j].inFlight| && LosesAt(ws[j], i, lost) && ws[j + 1] == Next(true, ws[j], End(i, delivered));
    a := lost;
    EndLosesIff(ws[j], i, delivered, a);
    NothingMadeUp(ws, j, a);
  }

  ghost predicate SomethingMissing(ws: seq<World>)
  {
    exists k, a :: 0 <= k < |ws| && Lacks(ws[k], a)
  }

  ghost predicate SomeStepLoses(ws: seq<World>)
  {
    exists j :: 0 <= j < |ws| - 1 && LosingStep(ws[j], ws[j + 1])
  }

  /** Over a run with a spool, some appended event goes missing exactly when a flush ends that loses one. */
  lemma SpoolLosesAtEnds(ws: seq<World>)
    requires IsRun(true, ws)
    ensures SomethingMissing(ws) <==> SomeStepLoses(ws)
  {
    if SomethingMissing(ws) {
      var k, a :| 0 <= k < |ws| && Lacks(ws[k], a);
      var j := LackingIsLost(ws, k, a);
    }
    if SomeStepLoses(ws) {
      var j :| 0 <= j < |ws| - 1 && LosingStep(ws[j], ws[j + 1]);
      var a := LosingStepShows(ws, j);
    }
  }

  /** A step spools nothing: whatever is in the spool was there before. Only a failing flush spools. */
  predicate SpoolsNothing(w: World, w': World)
  {
    forall a :: a in w'.channel.spool ==> a in w.channel.spool
  }

  lemma OnlyFailuresSpool(w: World, m: Move)
    requires Enabled(w, m)
    ensures (m.End? ==> m.delivered) ==> SpoolsNothing(w, Next(true, w, m))
  {}

  lemma {:induction false} SpoolShrinks(ws: seq<World>, j: nat, k: nat, a: Ack)
    requires j <= k < |ws| && forall t :: j <= t < k ==> SpoolsNothing(ws[t], ws[t + 1])
    requires a in ws[k].channel.spool
    ensures a in ws[j].channel.spool
  {
    if j < k {
      assert SpoolsNothing(ws[k - 1], ws[k]);
      SpoolShrinks(ws, j, k - 1, a);
    }
  }

  /** A flush that began after the last failure to spool anything carries all of the spool: its end loses nothing. */
  lemma FreshFlushesLoseNothing(ws: seq<World>, j: nat, k: nat, i: nat, extra: seq<Value>, pulse: Pulse, a: Ack)
    requires j <= k < |ws| && forall t :: j <= t < k ==> SpoolsNothing(ws[t], ws[t + 1])
    requires i < |ws[k].inFlight| && ws[k].inFlight[i] == BeginFlush(true, ws[j].channel, extra, pulse).1
    ensures !LosesAt(ws[k], i, a)
  {
    if a in ws[k].channel.spool { SpoolShrinks(ws, j, k, a); }
  }

  /** At step `t` a flush fails and puts `a` into the spool. */
  ghost predicate FailureSpools(ws: seq<World>, t: nat, a: Ack)
    requires t < |ws| - 1
  {
    && a !in ws[t].channel.spool && a in ws[t + 1].channel.spool
    && exists i: nat :: i < |ws[t].inFlight| && ws[t + 1] == Next(true, ws[t], End(i, false))
  }

  /** The flush that carries this batch began at step `j`. */
  ghost predicate Began(ws: seq<World>, j: nat, b: Batch)
    requires j < |ws|
  {
    BeginsWith(ws[j], b)
  }

  /** The batch is the one that a flush beginning in `w` sends. */
  ghost predicate BeginsWith(w: World, b: Batch)
  {
    exists extra, pulse :: b == BeginFlush(true, w.channel, extra, pulse).1
  }

  /** A flush under way after a move was under way before it, or the move began it. */
  lemma UnderWay(w: World, m: Move, i: nat) returns (before: nat)
    requires Enabled(w, m) && i < |Next(true, w, m).inFlight|
    ensures before < |w.inFlight| ==> Next(true, w, m).inFlight[i] == w.inFlight[before]
    ensures before >= |w.inFlight| ==> BeginsWith(w, Next(true, w, m).inFlight[i])
  {
    before := if m.End? && i >= m.i then i + 1 else i;
    if before >= |w.inFlight| {
      assert Next(true, w, m).inFlight[i] == BeginFlush(true, w.channel, m.extra, m.pulse).1;
    }
  }

  lemma UnderWayBefore(ws: seq<World>, j: nat, i: nat) returns (before: nat)
    requires IsRun(true, ws) && j < |ws| - 1 && i < |ws[j + 1].inFlight|
    ensures before < |ws[j].inFlight| ==> ws[j + 1].inFlight[i] == ws[j].inFlight[before]
    ensures before >= |ws[j].inFlight| ==> BeginsWith(ws[j], ws[j + 1].inFlight[i])
  {
    var m := MoveAt(true, ws, j);
    before := UnderWay(ws[j], m, i);
  }

  /** Every flush under way began at some earlier step. */
  lemma {:induction false} FlushesBegan(ws: seq<World>, k: nat, i: nat) returns (j: nat)
    requires IsRun(true, ws) && k < |ws| && i < |ws[k].inFlight|
    ensures j < k && Began(ws, j, ws[k].inFlight[i])
  {
    assert ws[0].inFlight == [];
    j := k - 1;
    var before := UnderWayBefore(ws, j, i);
    if before < |ws[j].inFlight| { j := FlushesBegan(ws, j, before); }
  }

  lemma SpooledByFailure(ws: seq<World>, t: nat, a: Ack)
    requires IsRun(true, ws) && t < |ws| - 1 && a !in ws[t].channel.spool && a in ws[t + 1].channel.spool
    ensures FailureSpools(ws, t, a)
  {
    var m := MoveAt(true, ws, t);
    OnlyFailuresSpool(ws[t], m);
    assert m == End(m.i, false);
  }

  lemma {:induction false} AppearsBetween(ws: seq<World>, j: nat, k: nat, a: Ack) returns (t: nat)
    requires j <= k < |ws| && a !in ws[j].channel.spool && a in ws[k].channel.spool
    ensures j <= t < k && a !in ws[t].channel.spool && a in ws[t + 1].channel.spool
  {
    t := k - 1;
    if a in ws[t].channel.spool { t := AppearsBetween(ws, j, t, a); }
  }

  /** The end of flush `i` at `k` loses `a`: the flush began, then another failed and spooled `a`, which no one else has. */
  ghost predicate StaleFlushLoses(ws: seq<World>, j: nat, t: nat, k: nat, i: nat, a: Ack)
    requires j <= t < k < |ws| && i < |ws[k].inFlight|
  {
    Began(ws, j, ws[k].inFlight[i]) && FailureSpools(ws, t, a) && LosesAt(ws[k], i, a)
  }

  /** A flush that loses something began before a failing flush spooled it: the converse of `FreshFlushesLoseNothing`. */
  lemma LosingFlushesAreStale(ws: seq<World>, k: nat, i: nat, a: Ack) returns (j: nat, t: nat)
    requires IsRun(true, ws) && k < |ws| && i < |ws[k].inFlight| && LosesAt(ws[k], i, a)
    ensures j <= t < k && StaleFlushLoses(ws, j, t, k, i, a)
  {
    j := FlushesBegan(ws, k, i);
    var extra, pulse :| ws[k].inFlight[i] == BeginFlush(true, ws[j].channel, extra, pulse).1;
    t := AppearsBetween(ws, j, k, a);
    SpooledByFailure(ws, t, a);
  }

  /** Step `k` ends a flush that began before another one failed and spooled what it does not carry, nor anyone else. */
  ghost predicate StaleEnd(ws: seq<World>, k: nat)
    requires k < |ws| - 1
  {
    exists i: nat, delivered, a, j: nat, t: nat ::
      && j <= t < k && i < |ws[k].inFlight| && ws[k + 1] == Next(true, ws[k], End(i, delivered))
      && StaleFlushLoses(ws, j, t, k, i, a)
  }

  lemma LosingIsStale(ws: seq<World>, k: nat)
    requires IsRun(true, ws) && k < |ws| - 1
    ensures LosingStep(ws[k], ws[k + 1]) <==> StaleEnd(ws, k)
  {
    if LosingStep(ws[k], ws[k + 1]) {
      var i: nat, delivered, a :| i < |ws[k].inFlight| && LosesAt(ws[k], i, a) && ws[k + 1] == Next(true, ws[k], End(i, delivered));
      var j, t := LosingFlushesAreStale(ws, k, i, a);
    }
  }

  ghost predicate SomeStaleEnd(ws: seq<World>)
  {
    exists k :: 0 <= k < |ws| - 1 && StaleEnd(ws, k)
  }

  /** Over a run with a spool, some appended event goes missing exactly when such a flush ends. */
  lemma SpoolLosesIff(ws: seq<World>)
    requires IsRun(true, ws)
    ensures SomethingMissing(ws) <==> SomeStaleEnd(ws)
  {
    SpoolLosesAtEnds(ws);
    SomeLosingIsStale(ws);
  }

  lemma SomeLosingIsStale(ws: seq<World>)
    requires IsRun(true, ws)
    ensures SomeStepLoses(ws) <==> SomeStaleEnd(ws)
  {
    if SomeStepLoses(ws) {
      var k :| 0 <= k < |ws| - 1 && LosingStep(ws[k], ws[k + 1]);
      LosingIsStale(ws, k);
    }
    if SomeStaleEnd(ws) {
      var k :| 0 <= k < |ws| - 1 && StaleEnd(ws, k);
      LosingIsStale(ws, k);
    }
  }
}
