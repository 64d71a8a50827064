/** The transport around a session: flushing its outbox, and feeding it the frames of the stream. */
module PlaneClient {
  import opened Basics
  import opened Json
  import opened PlaneState
  import PlaneRuns
  import opened PlaneTransport
  import opened EventStream
  import EventText
  import opened PlaneSession

  // ---- what a frame asks of the session ---------------------------------------------------------

  datatype Reading =
    | Send(op: PlaneRuns.Op)
    | Ignored
    | BadFrame           // json.loads, a missing version or a field of the wrong type raises

  /** `"\n".join(data)` */
  function Joined(data: seq<string>): string
  {
    if data == [] then ""
    else if |data| == 1 then data[0]
    else data[0] + "\n" + Joined(data[1..])
  }

  function GetOr(fields: seq<Field>, key: string, default: Value): Value
  {
    match Get(fields, key)
    case None => default
    case Some(v) => v
  }

  function ReadFrame(h: Host, decode: string -> Option<Value>, f: Frame): Reading
  {
    match decode(Joined(f.data))
    case None => BadFrame
    case Some(data) =>
      if f.name != "snapshot" && f.name != "delta" then Ignored
      else if !data.Obj? || Get(data.fields, "version").None? || ToInt(h, GetOr(data.fields, "version", Null)).None? then BadFrame
      else
        var version := ToInt(h, GetOr(data.fields, "version", Null)).value;
        var state := GetOr(data.fields, "state", Obj([]));
        if f.name == "snapshot" then
          var commands := GetOr(data.fields, "commands", Arr([]));
          if !state.Obj? || !commands.Arr? then BadFrame
          else Send(PlaneRuns.Snapshot(version, state.fields, commands.items))
        else
          var delta := GetOr(data.fields, "delta", state);
          if !delta.Obj? then BadFrame
          else Send(PlaneRuns.Delta(version, ToDict(delta.fields), GetOr(data.fields, "operator", Str("")),
                                    GetOr(data.fields, "timestamp", Str("")), GetOr(data.fields, "sig", Str(""))))
  }

  function EffectOf(h: Host, n: Node, op: PlaneRuns.Op): AppliedEffect
  {
    match op
    case Snapshot(version, state, commands) => SnapshotStep(h, n, version, state, commands).1
    case Delta(version, delta, operator, timestamp, sig) => DeltaStep(h, n, version, delta, operator, timestamp, sig).1
    case _ => Applied
  }

  /** One frame reaches the session; false when an exception ends the stream's consumption. */
  function FrameStep(h: Host, decode: string -> Option<Value>, n: Node, f: Frame): (Node, bool)
  {
    match ReadFrame(h, decode, f)
    case BadFrame => (n, false)
    case Ignored => (n, true)
    case Send(op) => (PlaneRuns.Step(h, n, op), EffectOf(h, n, op) != Raised)
  }

  function FramesRun(h: Host, decode: string -> Option<Value>, n: Node, fs: seq<Frame>): (Node, bool)
    decreases |fs|
  {
    if fs == [] then (n, true)
    else
      var (n1, alive) := FrameStep(h, decode, n, fs[0]);
      if alive then FramesRun(h, decode, n1, fs[1..]) else (n1, false)
  }

  function OpsOf(h: Host, decode: string -> Option<Value>, fs: seq<Frame>): seq<PlaneRuns.Op>
  {
    if fs == [] then []
    else (if ReadFrame(h, decode, fs[0]).Send? then [ReadFrame(h, decode, fs[0]).op] else []) + OpsOf(h, decode, fs[1..])
  }

  /** Whatever the bytes on the stream, the session sees a run: all its messages, or the ones up to an exception. */
  lemma {:induction false} StreamIsARun(h: Host, decode: string -> Option<Value>, n: Node, fs: seq<Frame>) returns (k: nat)
    ensures k <= |OpsOf(h, decode, fs)|
    ensures FramesRun(h, decode, n, fs).0 == PlaneRuns.Run(h, n, OpsOf(h, decode, fs)[..k])
    ensures FramesRun(h, decode, n, fs).1 ==> k == |OpsOf(h, decode, fs)|
    decreases |fs|
  {
    k := 0;
    if fs != [] {
      var (n1, alive) := FrameStep(h, decode, n, fs[0]);
      var ops, rest := OpsOf(h, decode, fs), OpsOf(h, decode, fs[1..]);
      if alive {
        k := StreamIsARun(h, decode, n1, fs[1..]);
        if ReadFrame(h, decode, fs[0]).Send? {
          assert ops[..k + 1][1..] == rest[..k];
          k := k + 1;
        } else {
          assert ops == rest;
        }
      } else if ReadFrame(h, decode, fs[0]).Send? {
        assert ops[..1][1..] == [];
        k := 1;
      }
    }
  }

  // ---- what frames say --------------------------------------------------------------------------

  /** `v` stands under the key, or nothing does and it is the default. */
  ghost predicate Entry(fields: seq<Field>, key: string, default: Value, v: Value)
  {
    Field(key, v) in fields || (v == default && forall i :: 0 <= i < |fields| ==> fields[i].key != key)
  }

  lemma EntryIsRead(fields: seq<Field>, key: string, default: Value, v: Value)
    requires DistinctKeys(fields)
    ensures Entry(fields, key, default, v) <==> GetOr(fields, key, default) == v
  {
    GetMeaning(fields, key);
    GetAbsent(fields, key);
  }

  lemma {:induction false} GetAbsent(fields: seq<Field>, key: string)
    ensures Get(fields, key).None? <==> forall i :: 0 <= i < |fields| ==> fields[i].key != key
  {
    if fields != [] {
      GetAbsent(fields[1..], key);
      assert forall i :: 0 < i < |fields| ==> fields[i] == fields[1..][i - 1];
    }
  }

  /** A delta frame: the command, its version and its signature, each from its own entry; `state` stands in for `delta`. */
  lemma DeltaFrameIs(h: Host, decode: string -> Option<Value>, f: Frame, fields: seq<Field>, version: int, state: Value,
                     delta: seq<Field>, operator: Value, timestamp: Value, sig: Value)
    requires f.name == "delta" && decode(Joined(f.data)) == Some(Obj(fields)) && DistinctKeys(fields)
    requires Field("version", Int(version)) in fields
    requires Entry(fields, "state", Obj([]), state) && Entry(fields, "delta", state, Obj(delta))
    requires Entry(fields, "operator", Str(""), operator) && Entry(fields, "timestamp", Str(""), timestamp) && Entry(fields, "sig", Str(""), sig)
    ensures ReadFrame(h, decode, f) == Send(PlaneRuns.Delta(version, ToDict(delta), operator, timestamp, sig))
  {
    EntryIsRead(fields, "version", Null, Int(version));
    EntryIsRead(fields, "state", Obj([]), state);
    EntryIsRead(fields, "delta", state, Obj(delta));
    EntryIsRead(fields, "operator", Str(""), operator);
    EntryIsRead(fields, "timestamp", Str(""), timestamp);
    EntryIsRead(fields, "sig", Str(""), sig);
  }

  lemma SnapshotFrameIs(h: Host, decode: string -> Option<Value>, f: Frame, fields: seq<Field>, version: int, state: seq<Field>, commands: seq<Value>)
    requires f.name == "snapshot" && decode(Joined(f.data)) == Some(Obj(fields)) && DistinctKeys(fields)
    requires Field("version", Int(version)) in fields
    requires Entry(fields, "state", Obj([]), Obj(state)) && Entry(fields, "commands", Arr([]), Arr(commands))
    ensures ReadFrame(h, decode, f) == Send(PlaneRuns.Snapshot(version, state, commands))
  {
    EntryIsRead(fields, "version", Null, Int(version));
    EntryIsRead(fields, "state", Obj([]), Obj(state));
    EntryIsRead(fields, "commands", Arr([]), Arr(commands));
  }

  /** Frames of other names reach nothing, whatever they hold; what is no JSON, no object or has no version raises. */
  lemma OtherFramesAre(h: Host, decode: string -> Option<Value>, f: Frame)
    ensures decode(Joined(f.data)).None? ==> ReadFrame(h, decode, f) == BadFrame
    ensures decode(Joined(f.data)).Some? && f.name != "delta" && f.name != "snapshot" ==> ReadFrame(h, decode, f) == Ignored
    ensures decode(Joined(f.data)).Some? && (f.name == "delta" || f.name == "snapshot")
            && (!decode(Joined(f.data)).value.Obj? || Get(decode(Joined(f.data)).value.fields, "version").None?) ==>
            ReadFrame(h, decode, f) == BadFrame
    ensures ReadFrame(h, decode, f).Send? ==> PlaneRuns.Downstream(ReadFrame(h, decode, f).op)
  {}

  /** The data lines are joined by newlines. */
  lemma {:induction false} JoinedIsText(data: seq<string>)
    requires data != []
    ensures EventText.TextOf(data) == Joined(data) + ['\n']
  {
    if |data| > 1 {
      JoinedIsText(data[1..]);
      assert Joined(data) == data[0] + (['\n'] + Joined(data[1..]));
    }
  }

  /** The frame tells this message: its name and, in the decoded object, every part under its own key. */
  ghost predicate Says(decode: string -> Option<Value>, f: Frame, op: PlaneRuns.Op)
  {
    match decode(Joined(f.data))
    case Some(Obj(fields)) =>
      && DistinctKeys(fields)
      && (match op
          case Delta(version, delta, operator, timestamp, sig) =>
            && f.name == "delta" && Field("version", Int(version)) in fields
            && (exists body :: Field("delta", Obj(body)) in fields && ToDict(body) == delta)
            && Field("operator", operator) in fields && Field("timestamp", timestamp) in fields && Field("sig", sig) in fields
          case Snapshot(version, state, commands) =>
            && f.name == "snapshot" && Field("version", Int(version)) in fields
            && Field("state", Obj(state)) in fields && Field("commands", Arr(commands)) in fields
          case _ => false)
    case _ => false
  }

  /** And so it is read. */
  lemma SaidIsRead(h: Host, decode: string -> Option<Value>, f: Frame, op: PlaneRuns.Op)
    requires Says(decode, f, op)
    ensures ReadFrame(h, decode, f) == Send(op)
  {
    var fields := decode(Joined(f.data)).value.fields;
    match op
    case Delta(version, delta, operator, timestamp, sig) =>
      var body :| Field("delta", Obj(body)) in fields && ToDict(body) == delta;
      var state := GetOr(fields, "state", Obj([]));
      EntryIsRead(fields, "state", Obj([]), state);
      DeltaFrameIs(h, decode, f, fields, version, state, body, operator, timestamp, sig);
    case Snapshot(version, state, commands) => SnapshotFrameIs(h, decode, f, fields, version, state, commands);
  }

  // ---- the client -------------------------------------------------------------------------------

  /** What is still to come of a connection, from line `i` on. */
  function Onward(h: Host, decode: string -> Option<Value>, n: Node, open: Frame, lines: seq<string>, i: nat): (Node, bool)
    requires i <= |lines|
  {
    FramesRun(h, decode, n, Done(open, ClassifyAll(lines[i..])))
  }

  lemma NextLine(h: Host, decode: string -> Option<Value>, n: Node, open: Frame, lines: seq<string>, i: nat, kind: Kind)
    requires i < |lines| && Classify(lines[i]) == kind
    ensures var (next, done) := Feed(open, kind);
            Onward(h, decode, n, open, lines, i) ==
            if done.None? then Onward(h, decode, n, next, lines, i + 1)
            else
              var (m, alive) := FrameStep(h, decode, n, done.value);
              if alive then Onward(h, decode, m, next, lines, i + 1) else (m, false)
  {
    var kinds, rest := ClassifyAll(lines[i..]), ClassifyAll(lines[i + 1..]);
    assert kinds[0] == kind;
    assert lines[i..][1..] == lines[i + 1..] && kinds[1..] == rest;
    var (next, done) := Feed(open, kind);
    if done.Some? {
      assert ([done.value] + Done(next, rest))[1..] == Done(next, rest);
    } else {
      assert [] + Done(next, rest) == Done(next, rest);
    }
  }

  class Client {
    const session: Session
    const spooling: bool                          // a spool path is configured
    const decode: string -> Option<Value>         // json.loads; None when it raises

    var nextSeq: nat
    var spool: seq<Ack>

    ghost function Telemetry(): Channel
      reads this, session
    {
      Channel(session.outbox, spool, nextSeq)
    }

    constructor (session: Session, spooling: bool, spool: seq<Ack>, decode: string -> Option<Value>)
      ensures this.session == session && this.spooling == spooling && this.decode == decode
      ensures Telemetry() == Channel(session.outbox, spool, 0)
    {
      this.session, this.spooling, this.decode := session, spooling, decode;
      this.spool, nextSeq := spool, 0;
    }

    method NumberLine(event: Telemetry) returns (line: Line)
      modifies this`nextSeq
      ensures line == Line(old(nextSeq), event) && nextSeq == old(nextSeq) + 1
    {
      line := Line(nextSeq, event);
      nextSeq := nextSeq + 1;
    }

    method LoadSpooled() returns (acks: seq<Ack>)
      ensures acks == LoadSpool(spooling, Telemetry())
    {
      acks := if spooling then spool else [];
    }

    method SaveSpooled(acks: seq<Ack>)
      modifies this`spool
      ensures Telemetry() == SaveSpool(spooling, old(Telemetry()), acks)
    {
      if spooling {
        spool := acks;
      }
    }

    method NumberLines(events: seq<Telemetry>) returns (lines: seq<Line>)
      modifies this`nextSeq
      ensures lines == Lines(events, old(nextSeq)) && nextSeq == old(nextSeq) + |events|
    {
      lines := [];
      for i := 0 to |events|
        invariant nextSeq == old(nextSeq) + i
        invariant lines + Lines(events[i..], nextSeq) == Lines(events, old(nextSeq))
      {
        var line := NumberLine(events[i]);
        lines := lines + [line];
        assert events[i..][1..] == events[i + 1..];
      }
      assert lines + [] == lines;
    }

    /** `flush` up to its await: the batch is what is then POSTed. */
    method FlushBegin(extra: seq<Value>, level: string, budgetRemaining: Option<int>) returns (batch: Batch)
      modifies this`nextSeq, session`outbox
      ensures (Telemetry(), batch) == BeginFlush(spooling, old(Telemetry()), extra,
                Pulse(session.applied_version, session.consumed_ids, level, budgetRemaining))
      ensures session.State() == old(session.State()).(outbox := [])
    {
      var spooled := LoadSpooled();
      var durable := spooled + session.outbox;
      session.outbox := [];
      var pulse := Pulse(session.applied_version, session.consumed_ids, level, budgetRemaining);
      var events := DurableEvents(durable) + ExtraEvents(extra) + [Heartbeat(pulse)];
      LinesTell(durable, extra, pulse, nextSeq);
      var lines := NumberLines(events);
      batch := Posting(durable, lines);
    }

    /** `flush` from its await on: the POST was acknowledged, or it failed for good. */
    method FlushEnd(batch: Batch, delivered: bool)
      modifies this`spool, session`outbox
      ensures Telemetry() == EndFlush(spooling, old(Telemetry()), batch, delivered)
      ensures session.State() == old(session.State()).(outbox := session.outbox)
    {
      if !delivered {
        if spooling {
          SaveSpooled(batch.durable);
        } else {
          session.outbox := batch.durable + session.outbox;
        }
        return;
      }
      SaveSpooled([]);
    }

    method Dispatch(f: Frame) returns (alive: bool)
      modifies session
      ensures (session.State(), alive) == FrameStep(session.host, decode, old(session.State()), f)
    {
      match ReadFrame(session.host, decode, f) {
        case BadFrame => alive := false;
        case Ignored => alive := true;
        case Send(Snapshot(version, state, commands)) =>
          var effect := session.ApplySnapshot(version, state, commands);
          alive := effect != Raised;
        case Send(Delta(version, delta, operator, timestamp, sig)) =>
          var effect := session.ApplyDelta(version, delta, operator, timestamp, sig);
          alive := effect != Raised;
        case Send(_) => alive := true; assert false;
      }
    }

    /** One line: what it does to the open frame, which is dispatched once it is complete. */
    method TakeLine(open: Frame, kind: Kind) returns (alive: bool, next: Frame)
      modifies session
      ensures next == Feed(open, kind).0
      ensures var done := Feed(open, kind).1;
              if done.None? then alive && session.State() == old(session.State())
              else (session.State(), alive) == FrameStep(session.host, decode, old(session.State()), done.value)
    {
      alive, next := true, open;
      match kind {
        case Name(n) => next := next.(name := n);
        case Data(d) => next := next.(data := next.data + [d]);
        case Blank =>
          if open.data != [] {
            alive := Dispatch(open);
            next := Frame("", []);
          }
        case Other =>
      }
    }

    /** Consume one connection; `stopAt` is the line before which the stop event is found set. */
    method ConsumeSse(lines: seq<string>, stopAt: nat) returns (alive: bool)
      modifies session
      ensures var read := if stopAt < |lines| then lines[..stopAt] else lines;
              (session.State(), alive) == FramesRun(session.host, decode, old(session.State()), Dispatched(read))
    {
      var open := Frame("", []);
      ghost var read := if stopAt < |lines| then lines[..stopAt] else lines;
      for i := 0 to |lines|
        invariant i <= |read|
        invariant FramesRun(session.host, decode, old(session.State()), Dispatched(read))
               == Onward(session.host, decode, session.State(), open, read, i)
      {
        if i == stopAt {
          return true;
        }
        assert read[i] == lines[i];
        var kind := Classify(lines[i]);
        NextLine(session.host, decode, session.State(), open, read, i, kind);
        alive, open := TakeLine(open, kind);
        if !alive {
          return;
        }
      }
      alive := true;
    }
  }
}
