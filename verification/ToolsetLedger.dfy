/** The governor over a run: what it was asked and what it was told, and what the callers get back. */
module ToolsetLedger {
  import opened Basics
  import opened Json
  import opened KernelEvents
  import opened Toolset
  import opened ToolsetRuns

  /**
    The governor that began as `g0` before entry `from`, after the whole log: asked at every verdict, and
    told every output together with the decision on its call.
   */
  function Governor<G, W>(kernel: Kernel<G>, g0: G, log: seq<Entry<G, W>>, from: nat): G
    requires from <= |log|
    decreases |log|
  {
    if |log| == from then g0
    else
      var g := Governor(kernel, g0, Init(log), from);
      match Last(log)
      case Verdict(tool, args, _, _, _) => kernel.evaluate(g, tool, args).0
      case Ended(at, output) => if at < |log| && log[at].Verdict? then kernel.register(g, log[at].decision, output) else g
      case _ => g
  }

  /** A verdict of the log is what that governor answered, and leaves it as the entry says. */
  ghost predicate VerdictFits<G, W>(kernel: Kernel<G>, g0: G, log: seq<Entry<G, W>>, from: nat, j: nat)
    requires from <= j < |log|
  {
    log[j].Verdict? ==>
      (log[j].governor, log[j].decision) == kernel.evaluate(Governor(kernel, g0, log[..j], from), log[j].tool, log[j].args)
  }

  ghost predicate Follows<G, W>(s: Setup<G, W>, g0: G, from: nat, st: State<G, W>)
  {
    && from <= |st.log| && st.governor == Governor(s.kernel, g0, st.log, from)
    && forall j :: from <= j < |st.log| ==> VerdictFits(s.kernel, g0, st.log, from, j)
  }

  lemma OneEntryOn<G, W>(s: Setup<G, W>, g0: G, from: nat, st: State<G, W>, e: Entry<G, W>, st1: State<G, W>)
    requires Follows(s, g0, from, st) && st1.log == st.log + [e] && st1.governor == Governor(s.kernel, g0, st1.log, from)
    requires e.Verdict? ==> (e.governor, e.decision) == s.kernel.evaluate(st.governor, e.tool, e.args)
    ensures Follows(s, g0, from, st1)
  {
    forall j | from <= j < |st1.log| ensures VerdictFits(s.kernel, g0, st1.log, from, j) {
      if j < |st.log| {
        assert VerdictFits(s.kernel, g0, st.log, from, j) && st1.log[..j] == st.log[..j];
      } else {
        assert st1.log[..j] == st.log;
      }
    }
  }

  lemma JudgeFollows<G, W>(s: Setup<G, W>, g0: G, from: nat, st: State<G, W>, name: string, args: seq<Field>)
    requires Follows(s, g0, from, st)
    ensures Follows(s, g0, from, Begun(s, st, name, args)) && Follows(s, g0, from, Judge(s, st, name, args).0)
  {
    var judged := Judge(s, st, name, args).0;
    assert Init(judged.log) == st.log;
    OneEntryOn(s, g0, from, st, Last(judged.log), judged);
    var begun := Begun(s, st, name, args);
    assert Init(begun.log) == judged.log;
    OneEntryOn(s, g0, from, judged, Started(name, args), begun);
  }

  lemma SettleFollows<G, W>(s: Setup<G, W>, g0: G, from: nat, st: State<G, W>, i: nat, at: nat, d: Decision, output: Value)
    requires Follows(s, g0, from, st) && at < |st.log| && st.log[at].Verdict? && st.log[at].decision == d
    ensures Follows(s, g0, from, Settle(s, st, i, at, d, output))
  {
    var st1 := Settle(s, st, i, at, d, output);
    assert Init(st1.log) == st.log && st1.log[at] == st.log[at];
    OneEntryOn(s, g0, from, st, Ended(at, output), st1);
  }

  lemma OtherFollows<G, W>(s: Setup<G, W>, g0: G, from: nat, st: State<G, W>, e: Entry<G, W>, st1: State<G, W>)
    requires Follows(s, g0, from, st) && st1.log == st.log + [e] && st1.governor == st.governor && (e.TurnedAway? || e.Changed?)
    ensures Follows(s, g0, from, st1)
  {
    assert Init(st1.log) == st.log;
    OneEntryOn(s, g0, from, st, e, st1);
  }

  lemma {:induction false} CallFollows<G, W>(s: Setup<G, W>, g0: G, from: nat, st: State<G, W>, fuel: nat, name: string, args: seq<Field>)
    requires Follows(s, g0, from, st)
    ensures Follows(s, g0, from, Call(s, st, fuel, name, args).0)
    decreases fuel, 0
  {
    var d := Judge(s, st, name, args).1;
    if name !in s.tools || !Admitted(s, st) {
      OtherFollows(s, g0, from, st, TurnedAway(name), Turn(st, name));
    } else {
      JudgeFollows(s, g0, from, st, name, args);
      if fuel > 0 && (d.allowed || !s.enforced) {
        var begun := Begun(s, st, name, args);
        PlayFollows(s, g0, from, begun, fuel - 1, s.tools[name](args));
        PlayExtends(s, begun, fuel - 1, s.tools[name](args));
        var (ended, reply) := Play(s, begun, fuel - 1, s.tools[name](args));
        if reply.Returned? {
          assert ended.log[|st.log|] == begun.log[|st.log|];
          SettleFollows(s, g0, from, ended, |st.calls|, |st.log|, d, reply.value);
        }
      }
    }
  }

  lemma {:induction false} PlayFollows<G, W>(s: Setup<G, W>, g0: G, from: nat, st: State<G, W>, fuel: nat, p: Program<W>)
    requires Follows(s, g0, from, st)
    ensures Follows(s, g0, from, Play(s, st, fuel, p).0)
    decreases fuel, 1
  {
    match p
    case CallTool(name, args, resume) =>
      CallFollows(s, g0, from, st, fuel, name, args);
      var (st1, reply) := Call(s, st, fuel, name, args);
      if fuel > 0 { PlayFollows(s, g0, from, st1, fuel - 1, resume(reply)); }
    case Look(use) => if fuel > 0 { PlayFollows(s, g0, from, st, fuel - 1, use(st.world)); }
    case Act(world, next) =>
      OtherFollows(s, g0, from, st, Changed(world), Change(st, world));
      if fuel > 0 { PlayFollows(s, g0, from, Change(st, world), fuel - 1, next); }
    case _ =>
  }

  /**
    On every run the final governor is the first one, asked at each new verdict and told each new output, in
    the order of the log; and each verdict is the answer of the governor as it was by then.
   */
  lemma RunTellsTheGovernor<G, W>(s: Setup<G, W>, st: State<G, W>, fuel: nat, p: Program<W>)
    ensures var end, from := Play(s, st, fuel, p).0, |st.log|;
            && from <= |end.log| && end.governor == Governor(s.kernel, st.governor, end.log, from)
            && forall j :: from <= j < |end.log| ==> VerdictFits(s.kernel, st.governor, end.log, from, j)
  {
    PlayFollows(s, st.governor, |st.log|, st, fuel, p);
  }

  // ---- replies ----------------------------------------------------------------------------------

  /** Outputs logged from `from` on belong to calls judged from there on. */
  ghost predicate OutputsOfNewCalls<G, W>(log: seq<Entry<G, W>>, from: nat)
  {
    forall j :: from <= j < |log| && log[j].Ended? ==> from <= log[j].at
  }

  lemma {:induction false} CallLogsItsOwn<G, W>(s: Setup<G, W>, st: State<G, W>, fuel: nat, name: string, args: seq<Field>)
    ensures OutputsOfNewCalls(Call(s, st, fuel, name, args).0.log, |st.log|)
    decreases fuel, 0
  {
    var d := Judge(s, st, name, args).1;
    if name in s.tools && Admitted(s, st) && fuel > 0 && (d.allowed || !s.enforced) {
      PlayLogsItsOwn(s, Begun(s, st, name, args), fuel - 1, s.tools[name](args));
      PlayExtends(s, Begun(s, st, name, args), fuel - 1, s.tools[name](args));
    }
  }

  lemma {:induction false} PlayLogsItsOwn<G, W>(s: Setup<G, W>, st: State<G, W>, fuel: nat, p: Program<W>)
    ensures OutputsOfNewCalls(Play(s, st, fuel, p).0.log, |st.log|)
    decreases fuel, 1
  {
    match p
    case CallTool(name, args, resume) =>
      CallLogsItsOwn(s, st, fuel, name, args);
      CallExtends(s, st, fuel, name, args);
      var (st1, reply) := Call(s, st, fuel, name, args);
      if fuel > 0 {
        PlayLogsItsOwn(s, st1, fuel - 1, resume(reply));
        PlayExtends(s, st1, fuel - 1, resume(reply));
      }
    case Look(use) => if fuel > 0 { PlayLogsItsOwn(s, st, fuel - 1, use(st.world)); }
    case Act(world, next) =>
      if fuel > 0 {
        PlayLogsItsOwn(s, Change(st, world), fuel - 1, next);
        PlayExtends(s, Change(st, world), fuel - 1, next);
      }
    case _ =>
  }

  lemma {:induction false} NoneFor<G, W>(log: seq<Entry<G, W>>, place: nat)
    requires forall j :: 0 <= j < |log| && log[j].Ended? ==> log[j].at != place
    ensures OutputOf(log, place) == None
  {
    if log != [] { NoneFor(Init(log), place); }
  }

  /** The call gets as far as the tool. */
  predicate Plays<G, W>(s: Setup<G, W>, st: State<G, W>, fuel: nat, name: string, args: seq<Field>)
  {
    name in s.tools && Admitted(s, st) && fuel > 0 && (Judge(s, st, name, args).1.allowed || !s.enforced)
  }

  /** The reply is the output that the log has for the call judged at `place`, if there is one. */
  ghost predicate RepliesBy<G, W>(log: seq<Entry<G, W>>, place: nat, reply: Reply)
  {
    (reply.Returned? <==> OutputOf(log, place).Some?) && (reply.Returned? ==> reply.value == OutputOf(log, place).value)
  }

  lemma PlayedReplies<G, W>(s: Setup<G, W>, st: State<G, W>, fuel: nat, name: string, args: seq<Field>)
    requires OutputsFollow(st.log) && Plays(s, st, fuel, name, args)
    ensures var (st1, reply) := Call(s, st, fuel, name, args);
            RepliesBy(st1.log, |st.log|, reply)
  {
    var begun := Begun(s, st, name, args);
    PlayLogsItsOwn(s, begun, fuel - 1, s.tools[name](args));
    PlayExtends(s, begun, fuel - 1, s.tools[name](args));
    var (ended, r) := Play(s, begun, fuel - 1, s.tools[name](args));
    assert begun.log[..|st.log|] == st.log && ended.log[|st.log|] == begun.log[|st.log|];
    NoneFor(ended.log, |st.log|);
    if r.Returned? { assert Init(Call(s, st, fuel, name, args).0.log) == ended.log; }
  }

  lemma UnplayedReplies<G, W>(s: Setup<G, W>, st: State<G, W>, fuel: nat, name: string, args: seq<Field>)
    requires OutputsFollow(st.log) && !Plays(s, st, fuel, name, args)
    ensures var (st1, reply) := Call(s, st, fuel, name, args);
            RepliesBy(st1.log, |st.log|, reply)
  {
    NoneFor(Call(s, st, fuel, name, args).0.log, |st.log|);
  }

  /**
    What a caller is handed: the output that the log has for this very call, if it returned; and otherwise
    why not: the tool is unknown, the node does not admit, or the kernel's reason for the denial.
   */
  lemma CallReplies<G, W>(s: Setup<G, W>, st: State<G, W>, fuel: nat, name: string, args: seq<Field>)
    requires OutputsFollow(st.log)
    ensures var (st1, reply) := Call(s, st, fuel, name, args);
            && RepliesBy(st1.log, |st.log|, reply)
            && (name !in s.tools ==> reply == Raised(UnknownTool(name)))
            && (name in s.tools && !Admitted(s, st) ==> reply == Raised(AdmissionHeld))
            && (name in s.tools && Admitted(s, st) ==>
                  && |st.log| < |st1.log| && st1.log[|st.log|].Verdict?
                  && st1.log[|st.log|].tool == name && st1.log[|st.log|].args == args
                  && var d := st1.log[|st.log|].decision;
                     (!d.allowed && s.enforced ==> reply == Raised(ToolDenied(d.reason, d.category))))
  {
    CallExtends(s, st, fuel, name, args);
    if Plays(s, st, fuel, name, args) {
      PlayedReplies(s, st, fuel, name, args);
      PlayExtends(s, Begun(s, st, name, args), fuel - 1, s.tools[name](args));
      var ended := Play(s, Begun(s, st, name, args), fuel - 1, s.tools[name](args)).0;
      assert ended.log[|st.log|] == Begun(s, st, name, args).log[|st.log|];
    } else {
      UnplayedReplies(s, st, fuel, name, args);
    }
  }

  /** A program goes on with exactly that reply. */
  lemma CallerGoesOn<G, W>(s: Setup<G, W>, st: State<G, W>, fuel: nat, name: string, args: seq<Field>, v: Value)
    requires OutputsFollow(st.log) && fuel > 0
    ensures var handOn := (reply: Reply) => if reply.Returned? then Return(reply.value) else Fail("");
            var (st1, reply) := Play(s, st, fuel, CallTool(name, args, handOn));
            reply == Returned(v) <==> OutputOf(st1.log, |st.log|) == Some(v)
  {
    CallReplies(s, st, fuel, name, args);
  }

  // ---- programs ---------------------------------------------------------------------------------

  /** A tool that runs is given the arguments of its call: one that hands them back hands back those. */
  lemma ToolsGetTheirArguments<G, W>(s: Setup<G, W>, st: State<G, W>, fuel: nat, name: string, args: seq<Field>)
    requires name in s.tools && forall given :: s.tools[name](given) == Return(Obj(given))
    requires Admitted(s, st) && fuel > 0
    ensures s.kernel.evaluate(st.governor, name, args).1.allowed || !s.enforced ==> Call(s, st, fuel, name, args).1 == Returned(Obj(args))
  {}

  /** What a program does to the world is what it then sees of it, and is logged as done. */
  lemma ProgramsSeeWhatTheyDid<G, W>(s: Setup<G, W>, st: State<G, W>, fuel: nat, world: W, view: W -> Value)
    requires fuel > 1
    ensures var (st1, reply) := Play(s, st, fuel, Act(world, Look(w => Return(view(w)))));
            reply == Returned(view(world)) && st1 == st.(world := world, log := st.log + [Changed(world)])
  {
    var look: Program<W> := Look(w => Return(view(w)));
    var st1 := Change(st, world);
    assert Play(s, st, fuel, Act(world, look)) == Play(s, st1, fuel - 1, look);
    assert Play(s, st1, fuel - 1, look) == Play(s, st1, fuel - 2, Return(view(world)));
  }
}
