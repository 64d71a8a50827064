/**
  Governed execution: every tool call goes through the kernel, and enforcement only decides whether a
  denial blocks. Agents and tools are programs that may call tools themselves and react to the replies.
 */
module Toolset {
  import opened Basics
  import opened Json
  import opened KernelEvents

  datatype Decision = Decision(allowed: bool, reason: string, category: string)

  datatype Error =
    | UnknownTool(name: string)
    | AdmissionHeld
    | ToolDenied(reason: string, category: string)
    | ToolFailed(what: string)
    | OutOfFuel

  datatype Reply = Returned(value: Value) | Raised(error: Error)

  /** What an agent or a tool does next; `W` is the state of the world the tools act on. */
  datatype Program<!W> =
    | Return(value: Value)
    | Fail(what: string)
    | CallTool(name: string, args: seq<Field>, resume: Reply -> Program<W>)
    | Look(use: W -> Program<W>)
    | Act(world: W, next: Program<W>)

  /** The governor: it judges, it learns outputs, and it keeps its own trace. */
  datatype Kernel<!G> = Kernel(
    evaluate: (G, string, seq<Field>) -> (G, Decision),
    register: (G, Decision, Value) -> G,
    events: G -> seq<TraceEvent>)

  datatype Setup<!G, !W> = Setup(
    kernel: Kernel<G>,
    tools: map<string, seq<Field> -> Program<W>>,
    admission: Option<W -> bool>,
    enforced: bool,
    recording: bool)

  /** One gated call, as the wrapper saw it. */
  datatype RecordedCall = RecordedCall(tool: string, args: seq<Field>, executed: bool, result: Value)

  /**
    What happened, in order; a verdict is stamped with the governor after it and the world it met, an
    output with the place of its call's verdict in the log.
   */
  datatype Entry<G, W> =
    | TurnedAway(name: string)
    | Verdict(tool: string, args: seq<Field>, decision: Decision, governor: G, world: W)
    | Started(tool: string, args: seq<Field>)
    | Changed(world: W)
    | Ended(at: nat, output: Value)

  datatype State<G, W> = State(governor: G, world: W, calls: seq<RecordedCall>, log: seq<Entry<G, W>>)

  predicate Admitted<G, W>(s: Setup<G, W>, st: State<G, W>)
  {
    s.admission.None? || (s.admission.value)(st.world)
  }

  function Turn<G, W>(st: State<G, W>, name: string): State<G, W>
  {
    st.(log := st.log + [TurnedAway(name)])
  }

  function Change<G, W>(st: State<G, W>, world: W): State<G, W>
  {
    st.(world := world, log := st.log + [Changed(world)])
  }

  /** The kernel is consulted and, in the same breath, the call is recorded. */
  function Judge<G, W>(s: Setup<G, W>, st: State<G, W>, name: string, args: seq<Field>): (State<G, W>, Decision)
  {
    var (g, d) := s.kernel.evaluate(st.governor, name, args);
    (State(g, st.world,
           if s.recording then st.calls + [RecordedCall(name, args, false, Null)] else st.calls,
           st.log + [Verdict(name, args, d, g, st.world)]), d)
  }

  /** The output of the call recorded at `i` and judged at `at` flows back into the ledger and the record. */
  function Settle<G, W>(s: Setup<G, W>, st: State<G, W>, i: nat, at: nat, d: Decision, output: Value): State<G, W>
  {
    st.(governor := s.kernel.register(st.governor, d, output),
        calls := if s.recording && i < |st.calls|
                 then st.calls[i := st.calls[i].(executed := true, result := output)] else st.calls,
        log := st.log + [Ended(at, output)])
  }

  /** One gated call. `fuel` bounds the steps of what it sets off; a run cut short raises. */
  function Call<G, W>(s: Setup<G, W>, st: State<G, W>, fuel: nat, name: string, args: seq<Field>): (State<G, W>, Reply)
    decreases fuel, 0
  {
    if name !in s.tools then (Turn(st, name), Raised(UnknownTool(name)))
    else if !Admitted(s, st) then (Turn(st, name), Raised(AdmissionHeld))
    else
      var (judged, d) := Judge(s, st, name, args);
      if !d.allowed && s.enforced then (judged, Raised(ToolDenied(d.reason, d.category)))
      else
        var started := judged.(log := judged.log + [Started(name, args)]);
        if fuel == 0 then (started, Raised(OutOfFuel))
        else
          var (ended, reply) := Play(s, started, fuel - 1, s.tools[name](args));
          if reply.Raised? then (ended, reply)
          else (Settle(s, ended, |st.calls|, |st.log|, d, reply.value), reply)
  }

  /** A program, run to its reply. */
  function Play<G, W>(s: Setup<G, W>, st: State<G, W>, fuel: nat, p: Program<W>): (State<G, W>, Reply)
    decreases fuel, 1
  {
    match p
    case Return(v) => (st, Returned(v))
    case Fail(what) => (st, Raised(ToolFailed(what)))
    case CallTool(name, args, resume) =>
      var (st1, reply) := Call(s, st, fuel, name, args);
      if fuel == 0 then (st1, Raised(OutOfFuel)) else Play(s, st1, fuel - 1, resume(reply))
    case Look(use) => if fuel == 0 then (st, Raised(OutOfFuel)) else Play(s, st, fuel - 1, use(st.world))
    case Act(world, next) =>
      if fuel == 0 then (Change(st, world), Raised(OutOfFuel))
      else Play(s, Change(st, world), fuel - 1, next)
  }

  // ---- what a run adds to the record ------------------------------------------------------------

  /** The log only grows, and recorded calls keep their place, tool and arguments. */
  ghost predicate Extends<G, W>(st: State<G, W>, st1: State<G, W>)
  {
    && st.log <= st1.log
    && |st.calls| <= |st1.calls|
    && forall i :: 0 <= i < |st.calls| ==>
         st1.calls[i].tool == st.calls[i].tool && st1.calls[i].args == st.calls[i].args
  }

  lemma {:induction false} CallExtends<G, W>(s: Setup<G, W>, st: State<G, W>, fuel: nat, name: string, args: seq<Field>)
    ensures Extends(st, Call(s, st, fuel, name, args).0)
    decreases fuel, 0
  {
    if name in s.tools && Admitted(s, st) {
      var (judged, d) := Judge(s, st, name, args);
      var started := judged.(log := judged.log + [Started(name, args)]);
      if fuel > 0 && (d.allowed || !s.enforced) {
        PlayExtends(s, started, fuel - 1, s.tools[name](args));
      }
    }
  }

  lemma {:induction false} PlayExtends<G, W>(s: Setup<G, W>, st: State<G, W>, fuel: nat, p: Program<W>)
    ensures Extends(st, Play(s, st, fuel, p).0)
    decreases fuel, 1
  {
    match p
    case CallTool(name, args, resume) =>
      CallExtends(s, st, fuel, name, args);
      var (st1, reply) := Call(s, st, fuel, name, args);
      if fuel > 0 { PlayExtends(s, st1, fuel - 1, resume(reply)); }
    case Look(use) => if fuel > 0 { PlayExtends(s, st, fuel - 1, use(st.world)); }
    case Act(world, next) => if fuel > 0 { PlayExtends(s, Change(st, world), fuel - 1, next); }
    case _ =>
  }

  // ---- enforcement is the only difference -------------------------------------------------------

  predicate Denied<G, W>(e: Entry<G, W>)
  {
    e.Verdict? && !e.decision.allowed
  }

  /** The first denial logged at or after `from`; the end of the log when there is none. */
  ghost predicate FirstDenial<G, W>(log: seq<Entry<G, W>>, from: nat, k: nat)
  {
    && from <= k <= |log|
    && (forall i :: from <= i < k ==> !Denied(log[i]))
    && (k < |log| ==> Denied(log[k]))
  }

  /** Two runs agree: entirely when nothing was denied, else up to and including the first denial. */
  ghost predicate Agree<G, W>(from: nat, on: (State<G, W>, Reply), off: (State<G, W>, Reply), k: nat)
  {
    && FirstDenial(on.0.log, from, k) && FirstDenial(off.0.log, from, k)
    && (if k == |on.0.log| then on == off else k < |off.0.log| && on.0.log[..k + 1] == off.0.log[..k + 1])
  }

  /** Runs that part at a denial stay parted: what is logged later changes nothing before. */
  lemma AgreeStays<G, W>(from: nat, on: (State<G, W>, Reply), off: (State<G, W>, Reply), k: nat,
                         on': (State<G, W>, Reply), off': (State<G, W>, Reply))
    requires Agree(from, on, off, k) && k < |on.0.log|
    requires on.0.log <= on'.0.log && off.0.log <= off'.0.log
    ensures Agree(from, on', off', k)
  {
    assert on'.0.log[..k + 1] == on.0.log[..k + 1] && off'.0.log[..k + 1] == off.0.log[..k + 1];
    forall i | 0 <= i <= k ensures on'.0.log[i] == on.0.log[i] && off'.0.log[i] == off.0.log[i] {
      assert on'.0.log[..k + 1][i] == on.0.log[..k + 1][i];
    }
  }

  /** A run that starts further on in the same log agrees from here too, when nothing in between was denied. */
  lemma AgreeFromEarlier<G, W>(from: nat, mid: nat, on: (State<G, W>, Reply), off: (State<G, W>, Reply), k: nat)
    requires Agree(mid, on, off, k) && from <= mid
    requires forall i :: from <= i < mid ==> !Denied(on.0.log[i]) && !Denied(off.0.log[i])
    ensures Agree(from, on, off, k)
  {}

  /** Admitted, judged and let through. */
  function Begun<G, W>(s: Setup<G, W>, st: State<G, W>, name: string, args: seq<Field>): State<G, W>
  {
    var judged := Judge(s, st, name, args).0;
    judged.(log := judged.log + [Started(name, args)])
  }

  lemma DeniedCallsAgree<G, W>(s: Setup<G, W>, st: State<G, W>, fuel: nat, name: string, args: seq<Field>)
    requires name in s.tools && Admitted(s, st) && !Judge(s, st, name, args).1.allowed
    ensures Agree(|st.log|, Call(s.(enforced := true), st, fuel, name, args), Call(s.(enforced := false), st, fuel, name, args), |st.log|)
  {
    var on, off := s.(enforced := true), s.(enforced := false);
    var b, judged, started := Call(off, st, fuel, name, args), Judge(s, st, name, args).0, Begun(s, st, name, args);
    if fuel > 0 { PlayExtends(off, started, fuel - 1, s.tools[name](args)); }
    assert started.log <= b.0.log;
    assert started.log[..|st.log| + 1] == judged.log;
  }

  lemma {:induction false} AllowedCallsAgree<G, W>(s: Setup<G, W>, st: State<G, W>, fuel: nat, name: string, args: seq<Field>) returns (k: nat)
    requires name in s.tools && Admitted(s, st) && Judge(s, st, name, args).1.allowed && fuel > 0
    ensures Agree(|st.log|, Call(s.(enforced := true), st, fuel, name, args), Call(s.(enforced := false), st, fuel, name, args), k)
    decreases fuel, 0
  {
    var on, off := s.(enforced := true), s.(enforced := false);
    var a, b := Call(on, st, fuel, name, args), Call(off, st, fuel, name, args);
    var started := Begun(s, st, name, args);
    var a1, b1 := Play(on, started, fuel - 1, s.tools[name](args)), Play(off, started, fuel - 1, s.tools[name](args));
    PlayExtends(on, started, fuel - 1, s.tools[name](args));
    PlayExtends(off, started, fuel - 1, s.tools[name](args));
    k := RunsAgree(s, started, fuel - 1, s.tools[name](args));
    AgreeFromEarlier(|st.log|, |started.log|, a1, b1, k);
    if k < |a1.0.log| {
      AgreeStays(|st.log|, a1, b1, k, a, b);
    } else if a1.1.Returned? {
      k := k + 1;
    }
  }

  lemma {:induction false} CallsAgree<G, W>(s: Setup<G, W>, st: State<G, W>, fuel: nat, name: string, args: seq<Field>) returns (k: nat)
    ensures Agree(|st.log|, Call(s.(enforced := true), st, fuel, name, args), Call(s.(enforced := false), st, fuel, name, args), k)
    decreases fuel, 1
  {
    if name in s.tools && Admitted(s, st) && !Judge(s, st, name, args).1.allowed {
      k := |st.log|;
      DeniedCallsAgree(s, st, fuel, name, args);
    } else if name in s.tools && Admitted(s, st) && fuel > 0 {
      k := AllowedCallsAgree(s, st, fuel, name, args);
    } else {
      k := |Call(s, st, fuel, name, args).0.log|;
    }
  }

  /**
    The two-run theorem. The same program on the same kernel, tools and start state, enforced and not:
    the logs, with every verdict, governor and world on them, are equal up to and including the first
    denial; if there is none, the runs are equal in everything.
   */
  lemma {:induction false} RunsAgree<G, W>(s: Setup<G, W>, st: State<G, W>, fuel: nat, p: Program<W>) returns (k: nat)
    ensures Agree(|st.log|, Play(s.(enforced := true), st, fuel, p), Play(s.(enforced := false), st, fuel, p), k)
    decreases fuel, 2
  {
    var on, off := s.(enforced := true), s.(enforced := false);
    var a, b := Play(on, st, fuel, p), Play(off, st, fuel, p);
    match p
    case Return(_) => k := |st.log|;
    case Fail(_) => k := |st.log|;
    case Look(use) =>
      k := |st.log|;
      if fuel > 0 { k := RunsAgree(s, st, fuel - 1, use(st.world)); }
    case Act(world, next) =>
      k := |st.log| + 1;
      if fuel > 0 {
        k := RunsAgree(s, Change(st, world), fuel - 1, next);
        PlayExtends(on, Change(st, world), fuel - 1, next);
        PlayExtends(off, Change(st, world), fuel - 1, next);
        AgreeFromEarlier(|st.log|, |st.log| + 1, a, b, k);
      }
    case CallTool(name, args, resume) =>
      var a1, b1 := Call(on, st, fuel, name, args), Call(off, st, fuel, name, args);
      k := CallsAgree(s, st, fuel, name, args);
      CallExtends(on, st, fuel, name, args);
      CallExtends(off, st, fuel, name, args);
      if fuel > 0 {
        k := RestsAgree(s, |st.log|, a1, b1, k, fuel - 1, resume);
      }
  }

  /** Runs that agree so far agree to their ends, however each goes on from its own reply. */
  lemma {:induction false} RestsAgree<G, W>(s: Setup<G, W>, from: nat, a: (State<G, W>, Reply), b: (State<G, W>, Reply), k0: nat,
                                            fuel: nat, resume: Reply -> Program<W>) returns (k: nat)
    requires Agree(from, a, b, k0)
    ensures Agree(from, Play(s.(enforced := true), a.0, fuel, resume(a.1)), Play(s.(enforced := false), b.0, fuel, resume(b.1)), k)
    decreases fuel, 3
  {
    var on, off := s.(enforced := true), s.(enforced := false);
    var a1, b1 := Play(on, a.0, fuel, resume(a.1)), Play(off, b.0, fuel, resume(b.1));
    PlayExtends(on, a.0, fuel, resume(a.1));
    PlayExtends(off, b.0, fuel, resume(b.1));
    if k0 == |a.0.log| {
      k := RunsAgree(s, a.0, fuel, resume(a.1));
      AgreeFromEarlier(from, |a.0.log|, a1, b1, k);
    } else {
      k := k0;
      AgreeStays(from, a, b, k, a1, b1);
    }
  }
}
