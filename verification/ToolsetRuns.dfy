/** Whole runs of the toolset: what executes, what is recorded, and what a stopped node still starts. */
module ToolsetRuns {
  import opened Basics
  import opened Json
  import opened KernelEvents
  import opened Toolset
  import opened PlaneState
  import PlaneRuns
  import PlaneSafety

  // ---- what executes ----------------------------------------------------------------------------

  datatype Invocation = Invocation(tool: string, args: seq<Field>)

  function StartOf<G, W>(e: Entry<G, W>): seq<Invocation>
  {
    if e.Started? then [Invocation(e.tool, e.args)] else []
  }

  function JudgementOf<G, W>(e: Entry<G, W>, allowedOnly: bool): seq<Invocation>
  {
    if e.Verdict? && (e.decision.allowed || !allowedOnly) then [Invocation(e.tool, e.args)] else []
  }

  /** The tools started, in order. */
  function Starts<G, W>(log: seq<Entry<G, W>>): seq<Invocation>
  {
    if log == [] then [] else Starts(Init(log)) + StartOf(Last(log))
  }

  /** The calls judged, in order: all of them, or those the kernel allowed. */
  function Judged<G, W>(log: seq<Entry<G, W>>, allowedOnly: bool): seq<Invocation>
  {
    if log == [] then [] else Judged(Init(log), allowedOnly) + JudgementOf(Last(log), allowedOnly)
  }

  lemma AppendOne<G, W>(log: seq<Entry<G, W>>, e: Entry<G, W>, allowedOnly: bool)
    ensures Starts(log + [e]) == Starts(log) + StartOf(e)
    ensures Judged(log + [e], allowedOnly) == Judged(log, allowedOnly) + JudgementOf(e, allowedOnly)
  {
    assert Init(log + [e]) == log;
  }

  /** What has started is what was judged, in order: the calls allowed under enforcement, otherwise all. */
  predicate Gated<G, W>(s: Setup<G, W>, st: State<G, W>)
  {
    Starts(st.log) == Judged(st.log, s.enforced)
  }

  lemma JudgeIsGated<G, W>(s: Setup<G, W>, st: State<G, W>, name: string, args: seq<Field>)
    requires Gated(s, st)
    ensures var (judged, d) := Judge(s, st, name, args);
            if !d.allowed && s.enforced then Gated(s, judged)
            else Gated(s, judged.(log := judged.log + [Started(name, args)]))
  {
    var (judged, d) := Judge(s, st, name, args);
    AppendOne(st.log, Last(judged.log), s.enforced);
    AppendOne(judged.log, Started(name, args), s.enforced);
  }

  lemma ChangeIsGated<G, W>(s: Setup<G, W>, st: State<G, W>, w: W)
    requires Gated(s, st)
    ensures Gated(s, Change(st, w))
  {
    AppendOne(st.log, Changed(w), s.enforced);
  }

  lemma LetThrough<G, W>(s: Setup<G, W>, st: State<G, W>, name: string, args: seq<Field>)
    requires Gated(s, st) && (Judge(s, st, name, args).1.allowed || !s.enforced)
    ensures Gated(s, Begun(s, st, name, args))
  {
    JudgeIsGated(s, st, name, args);
  }

  lemma SettleIsGated<G, W>(s: Setup<G, W>, st: State<G, W>, i: nat, at: nat, d: Decision, output: Value)
    requires Gated(s, st)
    ensures Gated(s, Settle(s, st, i, at, d, output))
  {
    AppendOne(st.log, Ended(at, output), s.enforced);
  }

  lemma {:induction false} CallIsGated<G, W>(s: Setup<G, W>, st: State<G, W>, fuel: nat, name: string, args: seq<Field>)
    requires Gated(s, st)
    ensures Gated(s, Call(s, st, fuel, name, args).0)
    decreases fuel, 0
  {
    var d := Judge(s, st, name, args).1;
    if name !in s.tools || !Admitted(s, st) {
      AppendOne(st.log, TurnedAway(name), s.enforced);
    } else if !d.allowed && s.enforced {
      JudgeIsGated(s, st, name, args);
    } else {
      LetThrough(s, st, name, args);
      if fuel > 0 {
        var begun := Begun(s, st, name, args);
        PlayIsGated(s, begun, fuel - 1, s.tools[name](args));
        var (ended, reply) := Play(s, begun, fuel - 1, s.tools[name](args));
        if reply.Returned? { SettleIsGated(s, ended, |st.calls|, |st.log|, d, reply.value); }
      }
    }
  }

  /** Over a whole run, enforcement on starts exactly the calls that were admitted and allowed, off every admitted one. */
  lemma {:induction false} PlayIsGated<G, W>(s: Setup<G, W>, st: State<G, W>, fuel: nat, p: Program<W>)
    requires Gated(s, st)
    ensures Gated(s, Play(s, st, fuel, p).0)
    decreases fuel, 1
  {
    match p
    case CallTool(name, args, resume) =>
      CallIsGated(s, st, fuel, name, args);
      var (st1, reply) := Call(s, st, fuel, name, args);
      if fuel > 0 { PlayIsGated(s, st1, fuel - 1, resume(reply)); }
    case Look(use) => if fuel > 0 { PlayIsGated(s, st, fuel - 1, use(st.world)); }
    case Act(world, next) =>
      ChangeIsGated(s, st, world);
      if fuel > 0 { PlayIsGated(s, Change(st, world), fuel - 1, next); }
    case _ =>
  }

  // ---- the recorder and the kernel's trace ------------------------------------------------------

  function Verdicts<G, W>(s: Setup<G, W>, st: State<G, W>): seq<TraceEvent>
  {
    VerdictEvents(s.kernel.events(st.governor))
  }

  /** One verdict event for each evaluation, saying what was decided; none for an output. */
  ghost predicate RecordsVerdicts<G(!new)>(kernel: Kernel<G>)
  {
    && (forall g, name, args ::
          var (g1, d) := kernel.evaluate(g, name, args);
          exists e ::
            && VerdictEvents(kernel.events(g1)) == VerdictEvents(kernel.events(g)) + [e]
            && e.payload.tool == name && (IsDenial(e) <==> !d.allowed))
    && (forall g, d, output ::
          VerdictEvents(kernel.events(kernel.register(g, d, output))) == VerdictEvents(kernel.events(g)))
  }

  /** Where the log has its verdicts. */
  function Places<G, W>(log: seq<Entry<G, W>>): (ps: seq<nat>)
    ensures forall i :: 0 <= i < |ps| ==> ps[i] < |log| && log[ps[i]].Verdict?
    ensures forall i, j :: 0 <= i < j < |ps| ==> ps[i] < ps[j]
  {
    if log == [] then [] else Places(Init(log)) + if Last(log).Verdict? then [|log| - 1] else []
  }

  /** What came back of the call judged at `place`, if its tool has returned. */
  function OutputOf<G, W>(log: seq<Entry<G, W>>, place: nat): Option<Value>
  {
    if log == [] then None
    else if Last(log).Ended? && Last(log).at == place then Some(Last(log).output)
    else OutputOf(Init(log), place)
  }

  /** An output comes after its verdict. */
  ghost predicate OutputsFollow<G, W>(log: seq<Entry<G, W>>)
  {
    forall j :: 0 <= j < |log| && log[j].Ended? ==> log[j].at < j
  }

  lemma {:induction false} NoOutputYet<G, W>(log: seq<Entry<G, W>>, place: nat)
    requires OutputsFollow(log) && |log| <= place
    ensures OutputOf(log, place) == None
  {
    if log != [] { NoOutputYet(Init(log), place); }
  }

  /** A record and the verdict entry of the log at `place` belong to one call. */
  ghost predicate RecordStands<G, W>(s: Setup<G, W>, st: State<G, W>, i: nat, place: nat)
    requires i < |st.calls| && place < |st.log| && st.log[place].Verdict?
  {
    var v, c, verdicts := st.log[place], st.calls[i], Verdicts(s, st);
    && c.tool == v.tool && c.args == v.args
    && i < |verdicts| && VerdictEvents(s.kernel.events(v.governor)) == verdicts[..i + 1]
    && verdicts[i].payload.tool == v.tool && (IsDenial(verdicts[i]) <==> !v.decision.allowed)
    && (c.executed <==> OutputOf(st.log, place).Some?) && (c.executed ==> c.result == OutputOf(st.log, place).value)
    && (c.executed ==> v.decision.allowed || !s.enforced)
  }

  /**
    Record `i`, verdict event `i` and the `i`-th verdict of the log belong to the same call: the record has
    its tool, its arguments and its output, and the event is the last the kernel had told by then.
   */
  ghost predicate Aligned<G, W>(s: Setup<G, W>, st: State<G, W>)
  {
    && |st.calls| == |Verdicts(s, st)| == |Places(st.log)| && OutputsFollow(st.log)
    && forall i :: 0 <= i < |st.calls| ==> RecordStands(s, st, i, Places(st.log)[i])
  }

  lemma FreshIsAligned<G, W>(s: Setup<G, W>, st: State<G, W>)
    requires st.calls == [] && Verdicts(s, st) == [] && st.log == []
    ensures Aligned(s, st)
  {}

  /** Entries that are neither verdict nor output change nothing about the records. */
  lemma OtherEntriesKeepAligned<G, W>(s: Setup<G, W>, st: State<G, W>, e: Entry<G, W>, st1: State<G, W>)
    requires Aligned(s, st) && !e.Verdict? && !e.Ended?
    requires st1.log == st.log + [e] && st1.calls == st.calls && st1.governor == st.governor
    ensures Aligned(s, st1)
  {
    assert Init(st1.log) == st.log;
    forall i | 0 <= i < |st1.calls| ensures RecordStands(s, st1, i, Places(st1.log)[i]) {
      assert RecordStands(s, st, i, Places(st.log)[i]);
    }
  }

  /** A record stands on as the log and the kernel's trace grow, while its call has not returned anew. */
  lemma RecordStandsOn<G, W>(s: Setup<G, W>, st: State<G, W>, st1: State<G, W>, i: nat, place: nat)
    requires i < |st.calls| && place < |st.log| && st.log[place].Verdict? && RecordStands(s, st, i, place)
    requires i < |st1.calls| && st1.calls[i] == st.calls[i] && place < |st1.log| && st1.log[place] == st.log[place]
    requires Verdicts(s, st) <= Verdicts(s, st1) && OutputOf(st1.log, place) == OutputOf(st.log, place)
    ensures RecordStands(s, st1, i, place)
  {
    var old0, new0 := Verdicts(s, st), Verdicts(s, st1);
    assert new0[..i + 1] == old0[..i + 1] && new0[i] == old0[i];
  }

  /** The record of the call just judged. */
  lemma NewRecordStands<G, W>(s: Setup<G, W>, st: State<G, W>, i: nat, place: nat, e: TraceEvent)
    requires i == |st.calls| - 1 && place == |st.log| - 1 && st.log[place].Verdict?
    requires st.calls[i].tool == st.log[place].tool && st.calls[i].args == st.log[place].args && !st.calls[i].executed
    requires |Verdicts(s, st)| == |st.calls| && Last(Verdicts(s, st)) == e && st.log[place].governor == st.governor
    requires e.payload.tool == st.log[place].tool && (IsDenial(e) <==> !st.log[place].decision.allowed)
    requires OutputOf(st.log, place) == None
    ensures RecordStands(s, st, i, place)
  {
    assert Verdicts(s, st)[..i + 1] == Verdicts(s, st);
  }

  lemma JudgeAligns<G(!new), W>(s: Setup<G, W>, st: State<G, W>, name: string, args: seq<Field>)
    requires RecordsVerdicts(s.kernel) && s.recording && Aligned(s, st)
    ensures var (judged, d) := Judge(s, st, name, args);
            && Aligned(s, judged) && Verdicts(s, st) <= Verdicts(s, judged)
            && Places(judged.log) == Places(st.log) + [|st.log|]
  {
    var (judged, d) := Judge(s, st, name, args);
    var e :| VerdictEvents(s.kernel.events(judged.governor)) == VerdictEvents(s.kernel.events(st.governor)) + [e]
             && e.payload.tool == name && (IsDenial(e) <==> !d.allowed);
    assert Init(judged.log) == st.log;
    NoOutputYet(st.log, |st.log|);
    NewRecordStands(s, judged, |st.calls|, |st.log|, e);
    forall i | 0 <= i < |judged.calls| ensures RecordStands(s, judged, i, Places(judged.log)[i]) {
      if i < |st.calls| { RecordStandsOn(s, st, judged, i, Places(st.log)[i]); }
    }
  }

  lemma SettleKeepsAligned<G(!new), W>(s: Setup<G, W>, st: State<G, W>, i: nat, d: Decision, output: Value)
    requires RecordsVerdicts(s.kernel) && s.recording && Aligned(s, st)
    requires i < |st.calls| && (st.log[Places(st.log)[i]].decision.allowed || !s.enforced)
    ensures var st1 := Settle(s, st, i, Places(st.log)[i], d, output);
            Aligned(s, st1) && Verdicts(s, st1) == Verdicts(s, st) && Places(st1.log) == Places(st.log)
  {
    var places := Places(st.log);
    var st1 := Settle(s, st, i, places[i], d, output);
    assert Verdicts(s, st1) == Verdicts(s, st);
    assert Init(st1.log) == st.log;
    forall j | 0 <= j < |st1.calls| ensures RecordStands(s, st1, j, places[j]) {
      assert RecordStands(s, st, j, places[j]);
      assert j != i ==> places[j] != places[i];
    }
  }

  lemma {:induction false} PlacesOfPrefix<G, W>(log: seq<Entry<G, W>>, more: seq<Entry<G, W>>)
    requires log <= more
    ensures Places(log) <= Places(more)
    decreases |more|
  {
    if |log| < |more| {
      PlacesOfPrefix(log, Init(more));
    } else {
      assert log == more;
    }
  }

  lemma BegunAligns<G(!new), W>(s: Setup<G, W>, st: State<G, W>, name: string, args: seq<Field>)
    requires RecordsVerdicts(s.kernel) && s.recording && Aligned(s, st)
    ensures var begun := Begun(s, st, name, args);
            && Aligned(s, begun) && Verdicts(s, st) <= Verdicts(s, begun) && |st.calls| < |Places(begun.log)|
            && Places(begun.log)[|st.calls|] == |st.log| && begun.log[|st.log|].decision == Judge(s, st, name, args).1
  {
    JudgeAligns(s, st, name, args);
    OtherEntriesKeepAligned(s, Judge(s, st, name, args).0, Started(name, args), Begun(s, st, name, args));
    assert Init(Begun(s, st, name, args).log) == Judge(s, st, name, args).0.log;
  }

  lemma EndedAligns<G(!new), W>(s: Setup<G, W>, begun: State<G, W>, ended: State<G, W>, i: nat, d: Decision, output: Value)
    requires RecordsVerdicts(s.kernel) && s.recording && Aligned(s, ended) && begun.log <= ended.log
    requires i < |Places(begun.log)| && begun.log[Places(begun.log)[i]].decision == d && (d.allowed || !s.enforced)
    ensures var st1 := Settle(s, ended, i, Places(begun.log)[i], d, output);
            Aligned(s, st1) && Verdicts(s, st1) == Verdicts(s, ended)
  {
    PlacesOfPrefix(begun.log, ended.log);
    assert ended.log[Places(begun.log)[i]] == begun.log[Places(begun.log)[i]];
    SettleKeepsAligned(s, ended, i, d, output);
  }

  lemma {:induction false} ThroughKeepsAligned<G(!new), W>(s: Setup<G, W>, st: State<G, W>, fuel: nat, name: string, args: seq<Field>)
    requires RecordsVerdicts(s.kernel) && s.recording && Aligned(s, st) && fuel > 0
    requires name in s.tools && (Judge(s, st, name, args).1.allowed || !s.enforced)
    ensures var begun, d := Begun(s, st, name, args), Judge(s, st, name, args).1;
            var (ended, reply) := Play(s, begun, fuel - 1, s.tools[name](args));
            && Aligned(s, ended) && Verdicts(s, st) <= Verdicts(s, ended)
            && (reply.Returned? ==> var st1 := Settle(s, ended, |st.calls|, |st.log|, d, reply.value);
                                    Aligned(s, st1) && Verdicts(s, st1) == Verdicts(s, ended))
    decreases fuel, 0
  {
    var begun, d := Begun(s, st, name, args), Judge(s, st, name, args).1;
    BegunAligns(s, st, name, args);
    RunKeepsAligned(s, begun, fuel - 1, s.tools[name](args));
    PlayExtends(s, begun, fuel - 1, s.tools[name](args));
    var (ended, reply) := Play(s, begun, fuel - 1, s.tools[name](args));
    if reply.Returned? { EndedAligns(s, begun, ended, |st.calls|, d, reply.value); }
  }

  lemma {:induction false} CallKeepsAligned<G(!new), W>(s: Setup<G, W>, st: State<G, W>, fuel: nat, name: string, args: seq<Field>)
    requires RecordsVerdicts(s.kernel) && s.recording && Aligned(s, st)
    ensures Aligned(s, Call(s, st, fuel, name, args).0)
    ensures Verdicts(s, st) <= Verdicts(s, Call(s, st, fuel, name, args).0)
    decreases fuel, 1
  {
    var d := Judge(s, st, name, args).1;
    if name !in s.tools || !Admitted(s, st) {
      OtherEntriesKeepAligned(s, st, TurnedAway(name), Turn(st, name));
    } else if !d.allowed && s.enforced {
      JudgeAligns(s, st, name, args);
    } else if fuel == 0 {
      BegunAligns(s, st, name, args);
    } else {
      ThroughKeepsAligned(s, st, fuel, name, args);
    }
  }

  /** On every run, with whatever tools raise, re-enter or are refused, records and verdicts stay one to one, call by call. */
  lemma {:induction false} RunKeepsAligned<G(!new), W>(s: Setup<G, W>, st: State<G, W>, fuel: nat, p: Program<W>)
    requires RecordsVerdicts(s.kernel) && s.recording && Aligned(s, st)
    ensures Aligned(s, Play(s, st, fuel, p).0)
    ensures Verdicts(s, st) <= Verdicts(s, Play(s, st, fuel, p).0)
    decreases fuel, 2
  {
    match p
    case CallTool(name, args, resume) =>
      CallKeepsAligned(s, st, fuel, name, args);
      var (st1, reply) := Call(s, st, fuel, name, args);
      if fuel > 0 { RunKeepsAligned(s, st1, fuel - 1, resume(reply)); }
    case Look(use) => if fuel > 0 { RunKeepsAligned(s, st, fuel - 1, use(st.world)); }
    case Act(world, next) =>
      OtherEntriesKeepAligned(s, st, Changed(world), Change(st, world));
      if fuel > 0 { RunKeepsAligned(s, Change(st, world), fuel - 1, next); }
    case _ =>
  }

  // ---- a toolset gated by a plane session -------------------------------------------------------

  predicate TurnsAwayOrChanges<G, W>(e: Entry<G, W>)
  {
    e.TurnedAway? || e.Changed?
  }

  /** Nothing is judged and nothing starts; a call under way may still return. */
  predicate BeginsNothing<G, W>(e: Entry<G, W>)
  {
    !e.Verdict? && !e.Started?
  }

  /** From `st` to `st1` calls were at most turned away: nothing was judged, recorded or started. */
  ghost predicate OnlyTurnedAway<G, W>(st: State<G, W>, st1: State<G, W>)
  {
    && st1.governor == st.governor && st1.calls == st.calls && st.log <= st1.log
    && forall i :: |st.log| <= i < |st1.log| ==> TurnsAwayOrChanges(st1.log[i])
  }

  lemma {:induction false} HeldRunStartsNothing<G, W>(s: Setup<G, W>, st: State<G, W>, fuel: nat, p: Program<W>)
    requires s.admission.Some? && forall w :: !(s.admission.value)(w)
    ensures OnlyTurnedAway(st, Play(s, st, fuel, p).0)
    decreases fuel
  {
    match p
    case CallTool(name, args, resume) =>
      assert !Admitted(s, st);
      var (st1, reply) := Call(s, st, fuel, name, args);
      if fuel > 0 { HeldRunStartsNothing(s, st1, fuel - 1, resume(reply)); }
    case Look(use) => if fuel > 0 { HeldRunStartsNothing(s, st, fuel - 1, use(st.world)); }
    case Act(world, next) => if fuel > 0 { HeldRunStartsNothing(s, Change(st, world), fuel - 1, next); }
    case _ =>
  }

  /** A governed node: its session, and the toolset that polls the session before every call. */
  datatype Governed<G, W> = Governed(node: Node, tools: State<G, W>)

  datatype Activity<!W> = FromPlane(op: PlaneRuns.Op) | AgentRuns(program: Program<W>, fuel: nat)

  function Live<G, W>(h: Host, s: Setup<G, W>, x: Governed<G, W>, a: Activity<W>): Governed<G, W>
  {
    match a
    case FromPlane(op) => x.(node := PlaneRuns.Step(h, x.node, op))
    case AgentRuns(program, fuel) =>
      x.(tools := Play(s.(admission := Some(_ => AdmitIntent(x.node))), x.tools, fuel, program).0)
  }

  function LiveAll<G, W>(h: Host, s: Setup<G, W>, x: Governed<G, W>, acts: seq<Activity<W>>): Governed<G, W>
    decreases |acts|
  {
    if acts == [] then x else LiveAll(h, s, Live(h, s, x, acts[0]), acts[1..])
  }

  /** Once stopped, a gated toolset starts no tool ever again, whatever plane and agent do. */
  lemma {:induction false} StoppedNodeStartsNothing<G, W>(h: Host, s: Setup<G, W>, x: Governed<G, W>, acts: seq<Activity<W>>)
    requires x.node.ctl.stopped
    ensures LiveAll(h, s, x, acts).node.ctl.stopped
    ensures OnlyTurnedAway(x.tools, LiveAll(h, s, x, acts).tools)
    decreases |acts|
  {
    if acts != [] {
      var y := Live(h, s, x, acts[0]);
      match acts[0] {
        case FromPlane(op) =>
          PlaneSafety.StepOnStopped(h, x.node, op);
        case AgentRuns(program, fuel) =>
          HeldRunStartsNothing(s.(admission := Some(_ => AdmitIntent(x.node))), x.tools, fuel, program);
      }
      StoppedNodeStartsNothing(h, s, y, acts[1..]);
    }
  }
}
