/** A stop inside a run: what a toolset that polls a live session still does after it. */
module ToolsetStops {
  import opened Basics
  import opened Json
  import opened Toolset
  import opened ToolsetRuns
  import opened PlaneState
  import PlaneRuns
  import PlaneSafety

  /** The world just before entry `j` of a log that began in `w0`. */
  function WorldAt<G, W>(w0: W, log: seq<Entry<G, W>>, j: nat): W
    requires j <= |log|
  {
    if j == 0 then w0 else if log[j - 1].Changed? then log[j - 1].world else WorldAt(w0, log, j - 1)
  }

  /** A verdict met the world of its time, which admitted it; a tool starts right behind its verdict. */
  ghost predicate EntryStands<G, W>(admits: W -> bool, w0: W, log: seq<Entry<G, W>>, j: nat)
    requires j < |log|
  {
    && (log[j].Verdict? ==> log[j].world == WorldAt(w0, log, j) && admits(log[j].world))
    && (log[j].Started? ==> j > 0 && log[j - 1].Verdict?)
  }

  ghost predicate Stands<G, W>(s: Setup<G, W>, w0: W, st: State<G, W>)
  {
    && s.admission.Some? && st.world == WorldAt(w0, st.log, |st.log|)
    && forall j :: 0 <= j < |st.log| ==> EntryStands(s.admission.value, w0, st.log, j)
  }

  lemma {:induction false} WorldOfPrefix<G, W>(w0: W, log: seq<Entry<G, W>>, e: Entry<G, W>, j: nat)
    requires j <= |log|
    ensures WorldAt(w0, log + [e], j) == WorldAt(w0, log, j)
  {
    if j > 0 { WorldOfPrefix(w0, log, e, j - 1); }
  }

  lemma OneMore<G, W>(s: Setup<G, W>, w0: W, st: State<G, W>, e: Entry<G, W>, st1: State<G, W>)
    requires Stands(s, w0, st) && st1.log == st.log + [e]
    requires st1.world == if e.Changed? then e.world else st.world
    requires e.Verdict? ==> e.world == st.world && (s.admission.value)(e.world)
    requires e.Started? ==> st.log != [] && Last(st.log).Verdict?
    ensures Stands(s, w0, st1)
  {
    forall j | 0 <= j < |st1.log| ensures EntryStands(s.admission.value, w0, st1.log, j) {
      WorldOfPrefix(w0, st.log, e, j);
      assert j < |st.log| ==> EntryStands(s.admission.value, w0, st.log, j);
    }
    WorldOfPrefix(w0, st.log, e, |st.log|);
  }

  lemma {:induction false} CallStands<G, W>(s: Setup<G, W>, w0: W, st: State<G, W>, fuel: nat, name: string, args: seq<Field>)
    requires Stands(s, w0, st)
    ensures Stands(s, w0, Call(s, st, fuel, name, args).0)
    decreases fuel, 0
  {
    if name !in s.tools || !Admitted(s, st) {
      OneMore(s, w0, st, TurnedAway(name), Turn(st, name));
    } else {
      var (judged, d) := Judge(s, st, name, args);
      var begun := Begun(s, st, name, args);
      OneMore(s, w0, st, Last(judged.log), judged);
      OneMore(s, w0, judged, Started(name, args), begun);
      if fuel > 0 && (d.allowed || !s.enforced) {
        PlayStands(s, w0, begun, fuel - 1, s.tools[name](args));
        var (ended, reply) := Play(s, begun, fuel - 1, s.tools[name](args));
        if reply.Returned? {
          OneMore(s, w0, ended, Ended(|st.log|, reply.value), Settle(s, ended, |st.calls|, |st.log|, d, reply.value));
        }
      }
    }
  }

  lemma {:induction false} PlayStands<G, W>(s: Setup<G, W>, w0: W, st: State<G, W>, fuel: nat, p: Program<W>)
    requires Stands(s, w0, st)
    ensures Stands(s, w0, Play(s, st, fuel, p).0)
    decreases fuel, 1
  {
    match p
    case CallTool(name, args, resume) =>
      CallStands(s, w0, st, fuel, name, args);
      var (st1, reply) := Call(s, st, fuel, name, args);
      if fuel > 0 { PlayStands(s, w0, st1, fuel - 1, resume(reply)); }
    case Look(use) => if fuel > 0 { PlayStands(s, w0, st, fuel - 1, use(st.world)); }
    case Act(world, next) =>
      OneMore(s, w0, st, Changed(world), Change(st, world));
      if fuel > 0 { PlayStands(s, w0, Change(st, world), fuel - 1, next); }
    case _ =>
  }

  /** The toolset polls the posture of the node that is in the world. */
  ghost predicate Polls<G, W(!new)>(s: Setup<G, W>, nodeOf: W -> Node)
  {
    s.admission.Some? && forall w :: (s.admission.value)(w) <==> AdmitIntent(nodeOf(w))
  }

  /** However tools and plane change the world, the node in it changes as its session does: by messages, drains and holds. */
  ghost predicate SessionDriven<G, W>(h: Host, nodeOf: W -> Node, w0: W, log: seq<Entry<G, W>>)
  {
    forall j :: 0 <= j < |log| && log[j].Changed? ==> SessionStep(h, nodeOf(WorldAt(w0, log, j)), nodeOf(log[j].world))
  }

  ghost predicate SessionStep(h: Host, n: Node, m: Node)
  {
    exists ops :: m == PlaneRuns.Run(h, n, ops)
  }

  /** On every run, nested calls and all: no verdict is asked for in a world whose node is paused or stopped. */
  lemma VerdictsMeetAdmission<G, W(!new)>(s: Setup<G, W>, nodeOf: W -> Node, st: State<G, W>, fuel: nat, p: Program<W>)
    requires Polls(s, nodeOf) && st.log == []
    ensures var log := Play(s, st, fuel, p).0.log;
            forall j :: 0 <= j < |log| && log[j].Verdict? ==> !nodeOf(log[j].world).ctl.paused && !nodeOf(log[j].world).ctl.stopped
  {
    PlayStands(s, st.world, st, fuel, p);
    var log := Play(s, st, fuel, p).0.log;
    forall j | 0 <= j < |log| && log[j].Verdict?
      ensures !nodeOf(log[j].world).ctl.paused && !nodeOf(log[j].world).ctl.stopped
    {
      assert EntryStands(s.admission.value, st.world, log, j);
    }
  }

  lemma {:induction false} StopStays<G, W>(h: Host, nodeOf: W -> Node, w0: W, log: seq<Entry<G, W>>, i: nat, j: nat)
    requires SessionDriven(h, nodeOf, w0, log) && i <= j <= |log|
    requires nodeOf(WorldAt(w0, log, i)).ctl.stopped
    ensures nodeOf(WorldAt(w0, log, j)).ctl.stopped
  {
    if i < j {
      StopStays(h, nodeOf, w0, log, i, j - 1);
      if log[j - 1].Changed? {
        var n, m := nodeOf(WorldAt(w0, log, j - 1)), nodeOf(log[j - 1].world);
        assert SessionStep(h, n, m);
        var ops :| m == PlaneRuns.Run(h, n, ops);
        PlaneSafety.StopIsFinal(h, n, ops);
      }
    }
  }

  /**
    From the moment the node is stopped, wherever in the run and however deep in nested calls that falls,
    nothing is judged and nothing starts: every further call is turned away, calls under way at most return.
   */
  lemma StopHoldsWithinRuns<G, W(!new)>(h: Host, s: Setup<G, W>, nodeOf: W -> Node, st: State<G, W>, fuel: nat, p: Program<W>, i: nat)
    requires Polls(s, nodeOf) && st.log == []
    requires var log := Play(s, st, fuel, p).0.log;
             SessionDriven(h, nodeOf, st.world, log) && i <= |log| && nodeOf(WorldAt(st.world, log, i)).ctl.stopped
    ensures var log := Play(s, st, fuel, p).0.log;
            forall j :: i <= j < |log| ==> BeginsNothing(log[j])
  {
    var log := Play(s, st, fuel, p).0.log;
    PlayStands(s, st.world, st, fuel, p);
    forall j | i <= j < |log| ensures BeginsNothing(log[j]) {
      StopStays(h, nodeOf, st.world, log, i, j);
      assert EntryStands(s.admission.value, st.world, log, j);
      if j > 0 {
        assert EntryStands(s.admission.value, st.world, log, j - 1);
      }
    }
  }
}
