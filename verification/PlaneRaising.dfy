/** Commands that raise out of the session: which ones they are, and where a replay of them comes to a halt. */
module PlaneRaising {
  import opened Basics
  import opened Json
  import opened PlaneState
  import opened PlaneRuns

  predicate OneShotsShaped(h: Host, d: Dict)
  {
    && (TruthyAt(d, "pending_injection") ==> ReadInjection(h, d["pending_injection"]).Some?)
    && (TruthyAt(d, "pending_excision") ==> ReadExcision(h, d["pending_excision"]).Some?)
  }

  predicate WellShaped(h: Host, d: Dict)
  {
    (AsksForCap(d) ==> ToInt(h, d["budget_cap_calls"]).Some?) && OneShotsShaped(h, d)
  }

  predicate Raises(h: Host, c: Control, d: Dict)
  {
    !c.stopped && Effects(h, c, d).1 == Raised
  }

  predicate Widening(c: Control, requested: int)
  {
    c.cap.Some? && requested > c.cap.value
  }

  lemma OneShotsRaiseIff(h: Host, c: Control, d: Dict)
    ensures OneShots(h, c, d).1 == Raised <==> !OneShotsShaped(h, d)
  {}

  /**
    A command raises in a posture iff that is not stopped, and the command asks for a cap that is no number,
    or it is not refused as widening and one of its one-shots is ill-shaped. Only stop and cap matter.
   */
  lemma RaisesIff(h: Host, c: Control, d: Dict)
    ensures Raises(h, c, d) <==>
      && !c.stopped
      && (if !AsksForCap(d) then !OneShotsShaped(h, d)
          else match ToInt(h, d["budget_cap_calls"])
            case None => true
            case Some(requested) => !Widening(c, requested) && !OneShotsShaped(h, d))
  {
    OneShotsRaiseIff(h, Flags(c, d), d);
    if AsksForCap(d) && ToInt(h, d["budget_cap_calls"]).Some? {
      OneShotsRaiseIff(h, Flags(c, d).(cap := ToInt(h, d["budget_cap_calls"])), d);
    }
  }

  /** Well-shaped commands are the ones that raise in no posture. */
  lemma WellShapedIff(h: Host, d: Dict)
    ensures WellShaped(h, d) <==> forall c :: !Raises(h, c, d)
  {
    var uncapped := Control(false, false, None, None, None, None);
    forall c ensures Raises(h, c, d) ==> !WellShaped(h, d) {
      RaisesIff(h, c, d);
    }
    RaisesIff(h, uncapped, d);
    assert !WellShaped(h, d) ==> Raises(h, uncapped, d);
  }

  /** The posture after a command, whether it raised or not. */
  function Next(h: Host, c: Control, d: Dict): Control
  {
    if c.stopped then c else Effects(h, c, d).0
  }

  /** No command but the last raises when the commands are applied one after the other. */
  predicate Smooth(h: Host, c: Control, cs: seq<Command>)
    decreases |cs|
  {
    |cs| <= 1 || (!Raises(h, c, cs[0].delta) && Smooth(h, Next(h, c, cs[0].delta), cs[1..]))
  }

  lemma NextReads(h: Host, c: Control, c': Control, d: Dict)
    requires c.stopped == c'.stopped && c.cap == c'.cap
    ensures Raises(h, c, d) == Raises(h, c', d)
    ensures Next(h, c, d).stopped == Next(h, c', d).stopped && Next(h, c, d).cap == Next(h, c', d).cap
  {
    RaisesIff(h, c, d);
    RaisesIff(h, c', d);
    CommandsReadOnlyStopAndBudget(h, c, c', d);
  }

  /** Whether a chain is smooth turns on the stop and the cap alone. */
  lemma {:induction false} SmoothReads(h: Host, c: Control, c': Control, cs: seq<Command>)
    requires c.stopped == c'.stopped && c.cap == c'.cap
    ensures Smooth(h, c, cs) == Smooth(h, c', cs)
    decreases |cs|
  {
    if |cs| > 1 {
      NextReads(h, c, c', cs[0].delta);
      SmoothReads(h, Next(h, c, cs[0].delta), Next(h, c', cs[0].delta), cs[1..]);
    }
  }

  // ---- replays ----------------------------------------------------------------------------------

  /** The version of the command at which a replay raises, if any does: commands up to `floor` are skipped. */
  function Halt(h: Host, c: Control, floor: int, cs: seq<Command>): Option<int>
    decreases |cs|
  {
    if cs == [] then None
    else if cs[0].version <= floor then Halt(h, c, floor, cs[1..])
    else if Raises(h, c, cs[0].delta) then Some(cs[0].version)
    else Halt(h, Next(h, c, cs[0].delta), cs[0].version, cs[1..])
  }

  /** It decides whether a replay raises, and then the node stands at that command. */
  lemma {:induction false} ReplayRaisesIff(h: Host, n: Node, cs: seq<Command>, last: AppliedEffect)
    requires last != Raised
    ensures var (m, effect) := Replay(h, n, cs, last);
            var halt := Halt(h, n.ctl, n.version, cs);
            (effect == Raised <==> halt.Some?) && (halt.Some? ==> m.version == halt.value)
    decreases |cs|
  {
    if cs != [] {
      var (n1, effect) := Apply(h, n, cs[0].version, cs[0].delta);
      if cs[0].version <= n.version {
        ReplayRaisesIff(h, n, cs[1..], last);
      } else if effect != Raised {
        ReplayRaisesIff(h, n1, cs[1..], effect);
      }
    }
  }

  lemma {:induction false} HaltIsNew(h: Host, c: Control, floor: int, cs: seq<Command>)
    ensures Halt(h, c, floor, cs).Some? ==> Halt(h, c, floor, cs).value > floor
    decreases |cs|
  {
    if cs != [] {
      if cs[0].version <= floor {
        HaltIsNew(h, c, floor, cs[1..]);
      } else {
        HaltIsNew(h, Next(h, c, cs[0].delta), cs[0].version, cs[1..]);
      }
    }
  }

  /** The commands later than `v`. */
  function Later(cs: seq<Command>, v: int): seq<Command>
  {
    if cs == [] then [] else (if cs[0].version > v then [cs[0]] else []) + Later(cs[1..], v)
  }

  lemma {:induction false} ReplaySkipsOld(h: Host, n: Node, cs: seq<Command>, v: int, last: AppliedEffect)
    requires v <= n.version
    ensures Replay(h, n, cs, last) == Replay(h, n, Later(cs, v), last)
    decreases |cs|
  {
    if cs != [] {
      var rest := Later(cs[1..], v);
      if cs[0].version > v {
        assert Later(cs, v)[0] == cs[0] && Later(cs, v)[1..] == rest;
      } else {
        assert Later(cs, v) == rest;
      }
      if cs[0].version <= n.version {
        ReplaySkipsOld(h, n, cs[1..], v, last);
      } else {
        var (n1, effect) := Apply(h, n, cs[0].version, cs[0].delta);
        if effect != Raised { ReplaySkipsOld(h, n1, cs[1..], v, effect); }
      }
    }
  }
}
