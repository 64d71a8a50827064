/** Lining the wrapper's records up with the kernel's verdicts. */
module Pairing {
  import opened Basics
  import opened Json
  import opened KernelEvents
  import opened Toolset

  /** Where the wrapper sits: it asks the kernel itself, or it only sees tools the kernel approved. */
  datatype Observes = EveryIntent | ExecutionsOnly

  datatype Pair = Pair(call: Option<RecordedCall>, event: TraceEvent)

  datatype PairingError =
    | Misaligned(calls: nat, verdicts: nat)
    | ApprovedButUnrecorded
    | RecordedButUnjudged(calls: nat)

  function Zip(calls: seq<RecordedCall>, events: seq<TraceEvent>): seq<Pair>
    requires |calls| == |events|
  {
    seq(|calls|, i requires 0 <= i < |calls| => Pair(Some(calls[i]), events[i]))
  }

  /** Approvals consume records in order; denials have none. */
  function Stream(calls: seq<RecordedCall>, events: seq<TraceEvent>): Result<seq<Pair>, PairingError>
    decreases |events|
  {
    if events == [] then if calls == [] then Ok([]) else Err(RecordedButUnjudged(|calls|))
    else if !IsDenial(events[0]) && calls == [] then Err(ApprovedButUnrecorded)
    else
      var (first, rest) := if IsDenial(events[0]) then (None, calls) else (Some(calls[0]), calls[1..]);
      match Stream(rest, events[1..])
      case Err(e) => Err(e)
      case Ok(pairs) => Ok([Pair(first, events[0])] + pairs)
  }

  function Paired(calls: seq<RecordedCall>, events: seq<TraceEvent>, observes: Observes): Result<seq<Pair>, PairingError>
  {
    match observes
    case EveryIntent => if |calls| == |events| then Ok(Zip(calls, events)) else Err(Misaligned(|calls|, |events|))
    case ExecutionsOnly => Stream(calls, events)
  }

  predicate IsApproval(e: TraceEvent)
  {
    !IsDenial(e)
  }

  // ---- what a pairing is ------------------------------------------------------------------------

  function EventsOf(pairs: seq<Pair>): seq<TraceEvent>
  {
    if pairs == [] then [] else [pairs[0].event] + EventsOf(pairs[1..])
  }

  function RecordsOf(pairs: seq<Pair>): seq<RecordedCall>
  {
    if pairs == [] then []
    else (if pairs[0].call.Some? then [pairs[0].call.value] else []) + RecordsOf(pairs[1..])
  }

  /** All events and all records, in order; a record is missing exactly at the denials nobody could see. */
  ghost predicate Proper(pairs: seq<Pair>, calls: seq<RecordedCall>, events: seq<TraceEvent>, observes: Observes)
  {
    && EventsOf(pairs) == events
    && RecordsOf(pairs) == calls
    && forall i :: 0 <= i < |pairs| ==> (pairs[i].call.None? <==> observes.ExecutionsOnly? && IsDenial(pairs[i].event))
  }

  lemma {:induction false} ProperZip(pairs: seq<Pair>, calls: seq<RecordedCall>, events: seq<TraceEvent>)
    ensures Proper(pairs, calls, events, EveryIntent) <==> |calls| == |events| && pairs == Zip(calls, events)
  {
    if pairs != [] && calls != [] && events != [] {
      ProperZip(pairs[1..], calls[1..], events[1..]);
      assert events == [events[0]] + events[1..] && calls == [calls[0]] + calls[1..];
      assert pairs == [pairs[0]] + pairs[1..];
      if |calls| == |events| {
        assert Zip(calls, events) == [Pair(Some(calls[0]), events[0])] + Zip(calls[1..], events[1..]);
      }
      if pairs[0].call.Some? {
        assert RecordsOf(pairs)[1..] == RecordsOf(pairs[1..]);
      }
      assert EventsOf(pairs)[1..] == EventsOf(pairs[1..]);
    }
  }

  /** A denial comes first: its pair has no record, and all records are left. */
  lemma ProperDenied(pairs: seq<Pair>, calls: seq<RecordedCall>, events: seq<TraceEvent>)
    requires events != [] && IsDenial(events[0])
    ensures Proper(pairs, calls, events, ExecutionsOnly) <==>
            pairs != [] && pairs[0] == Pair(None, events[0]) && Proper(pairs[1..], calls, events[1..], ExecutionsOnly)
  {
    if pairs != [] {
      SameRestOf(EventsOf(pairs), EventsOf(pairs[1..]), events);
      FirstRecord(pairs);
      FirstIsPaired(pairs);
    }
  }

  /** An approval comes first: its pair has the first record. */
  lemma ProperApproved(pairs: seq<Pair>, calls: seq<RecordedCall>, events: seq<TraceEvent>)
    requires events != [] && !IsDenial(events[0])
    ensures Proper(pairs, calls, events, ExecutionsOnly) <==>
            && pairs != [] && calls != [] && pairs[0] == Pair(Some(calls[0]), events[0])
            && Proper(pairs[1..], calls[1..], events[1..], ExecutionsOnly)
  {
    if pairs != [] {
      SameRestOf(EventsOf(pairs), EventsOf(pairs[1..]), events);
      FirstRecord(pairs);
      FirstIsPaired(pairs);
      if pairs[0].call.Some? && calls != [] {
        SameRestOf(RecordsOf(pairs), RecordsOf(pairs[1..]), calls);
      }
    }
  }

  lemma SameRestOf<T>(s: seq<T>, rest: seq<T>, t: seq<T>)
    requires s != [] && s == [s[0]] + rest && t != []
    ensures s == t <==> s[0] == t[0] && rest == t[1..]
  {
    assert t == [t[0]] + t[1..] && s[1..] == rest;
  }

  lemma FirstRecord(pairs: seq<Pair>)
    requires pairs != []
    ensures RecordsOf(pairs) == if pairs[0].call.Some? then [pairs[0].call.value] + RecordsOf(pairs[1..]) else RecordsOf(pairs[1..])
  {}

  /** Records are missing at the denials exactly when that holds of the first pair and of the others. */
  lemma FirstIsPaired(pairs: seq<Pair>)
    requires pairs != []
    ensures (forall i :: 0 <= i < |pairs| ==> (pairs[i].call.None? <==> IsDenial(pairs[i].event)))
       <==> (pairs[0].call.None? <==> IsDenial(pairs[0].event))
            && (forall i :: 0 <= i < |pairs[1..]| ==> (pairs[1..][i].call.None? <==> IsDenial(pairs[1..][i].event)))
  {
    assert forall i :: 0 < i < |pairs| ==> pairs[i] == pairs[1..][i - 1];
    assert forall i :: 0 <= i < |pairs[1..]| ==> pairs[1..][i] == pairs[i + 1];
  }

  lemma StreamFirst(pairs: seq<Pair>, calls: seq<RecordedCall>, events: seq<TraceEvent>, first: Option<RecordedCall>, rest: seq<RecordedCall>)
    requires events != [] && (IsDenial(events[0]) || calls != [])
    requires if IsDenial(events[0]) then first == None && rest == calls else first == Some(calls[0]) && rest == calls[1..]
    ensures Stream(calls, events) == Ok(pairs) <==>
            pairs != [] && pairs[0] == Pair(first, events[0]) && Stream(rest, events[1..]) == Ok(pairs[1..])
  {
    if pairs != [] {
      assert pairs == [pairs[0]] + pairs[1..];
    }
    var others := Stream(rest, events[1..]);
    if others.Ok? {
      assert ([Pair(first, events[0])] + others.value)[1..] == others.value;
    }
  }

  lemma {:induction false} ProperStream(pairs: seq<Pair>, calls: seq<RecordedCall>, events: seq<TraceEvent>)
    ensures Proper(pairs, calls, events, ExecutionsOnly) <==> Stream(calls, events) == Ok(pairs)
    decreases |events|
  {
    if events == [] {
      assert pairs != [] ==> |EventsOf(pairs)| > 0;
    } else if IsDenial(events[0]) {
      ProperDenied(pairs, calls, events);
      StreamFirst(pairs, calls, events, None, calls);
      if pairs != [] { ProperStream(pairs[1..], calls, events[1..]); }
    } else {
      ProperApproved(pairs, calls, events);
      if calls != [] {
        StreamFirst(pairs, calls, events, Some(calls[0]), calls[1..]);
        if pairs != [] { ProperStream(pairs[1..], calls[1..], events[1..]); }
      }
    }
  }

  /** The pairing returned is the one proper pairing there is; when there is none, building is refused. */
  lemma PairedIff(pairs: seq<Pair>, calls: seq<RecordedCall>, events: seq<TraceEvent>, observes: Observes)
    ensures Paired(calls, events, observes) == Ok(pairs) <==> Proper(pairs, calls, events, observes)
  {
    ProperZip(pairs, calls, events);
    ProperStream(pairs, calls, events);
  }

  lemma {:induction false} StreamSucceeds(calls: seq<RecordedCall>, events: seq<TraceEvent>)
    ensures Stream(calls, events).Ok? <==> |calls| == |Filter(IsApproval, events)|
    decreases |events|
  {
    if events != [] {
      if IsDenial(events[0]) {
        StreamSucceeds(calls, events[1..]);
      } else if calls != [] {
        StreamSucceeds(calls[1..], events[1..]);
      }
    }
  }

  lemma {:induction false} StreamFails(calls: seq<RecordedCall>, events: seq<TraceEvent>)
    ensures var approvals := |Filter(IsApproval, events)|;
            && (|calls| < approvals ==> Stream(calls, events) == Err(ApprovedButUnrecorded))
            && (|calls| > approvals ==> Stream(calls, events) == Err(RecordedButUnjudged(|calls| - approvals)))
  {
    if events != [] {
      if IsDenial(events[0]) {
        StreamFails(calls, events[1..]);
      } else if calls != [] {
        StreamFails(calls[1..], events[1..]);
      }
    }
  }

  /** Where there is none, the error counts: how many of both, or that records are lacking, or how many are too many. */
  lemma PairingErrors(calls: seq<RecordedCall>, events: seq<TraceEvent>)
    ensures |calls| != |events| ==> Paired(calls, events, EveryIntent) == Err(Misaligned(|calls|, |events|))
    ensures var approvals := |Filter(IsApproval, events)|;
            && (|calls| < approvals ==> Paired(calls, events, ExecutionsOnly) == Err(ApprovedButUnrecorded))
            && (|calls| > approvals ==> Paired(calls, events, ExecutionsOnly) == Err(RecordedButUnjudged(|calls| - approvals)))
  {
    StreamFails(calls, events);
  }

  /** Every intent seen: as many records as verdicts. Executions only: as many records as approvals. */
  lemma PairingSucceedsIff(calls: seq<RecordedCall>, events: seq<TraceEvent>, observes: Observes)
    ensures Paired(calls, events, observes).Ok? <==>
            |calls| == if observes.EveryIntent? then |events| else |Filter(IsApproval, events)|
  {
    StreamSucceeds(calls, events);
  }

  /** The pairing as the builder computes it, consuming the records one by one. */
  method PairUp(calls: seq<RecordedCall>, events: seq<TraceEvent>, observes: Observes)
    returns (paired: Result<seq<Pair>, PairingError>)
    ensures paired == Paired(calls, events, observes)
  {
    if observes == EveryIntent {
      if |calls| != |events| {
        return Err(Misaligned(|calls|, |events|));
      }
      return Ok(Zip(calls, events));
    }
    var pairs, remaining := [], calls;
    for i := 0 to |events|
      invariant Stream(calls, events).Ok? <==> Stream(remaining, events[i..]).Ok?
      invariant Stream(calls, events).Ok? ==> Stream(calls, events).value == pairs + Stream(remaining, events[i..]).value
      invariant Stream(calls, events).Err? ==> Stream(calls, events) == Stream(remaining, events[i..])
    {
      assert events[i..][1..] == events[i + 1..];
      if IsDenial(events[i]) {
        pairs := pairs + [Pair(None, events[i])];
        continue;
      }
      if remaining == [] {
        return Err(ApprovedButUnrecorded);
      }
      pairs := pairs + [Pair(Some(remaining[0]), events[i])];
      remaining := remaining[1..];
    }
    if remaining != [] {
      return Err(RecordedButUnjudged(|remaining|));
    }
    assert pairs + [] == pairs;
    paired := Ok(pairs);
  }
}
