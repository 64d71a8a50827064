/** The wrapped runtime: the governed execution of `Toolset`, on an object that changes in place. */
module WrappedToolset {
  import opened Basics
  import opened Json
  import opened Toolset

  class Wrapped<G, W> {
    const kernel: Kernel<G>
    const tools: map<string, seq<Field> -> Program<W>>
    const enforced: bool
    const recording: bool

    var admission: Option<W -> bool>
    var governor: G
    var calls: seq<RecordedCall>
    var world: W                          // what the tools act on
    ghost var log: seq<Entry<G, W>>

    ghost function Config(): Setup<G, W>
      reads this
    {
      Setup(kernel, tools, admission, enforced, recording)
    }

    ghost function Now(): State<G, W>
      reads this
    {
      State(governor, world, calls, log)
    }

    constructor (kernel: Kernel<G>, governor: G, world: W, tools: map<string, seq<Field> -> Program<W>>,
                 admission: Option<W -> bool>, enforced: bool, recording: bool)
      ensures Config() == Setup(kernel, tools, admission, enforced, recording)
      ensures Now() == State(governor, world, [], [])
    {
      this.kernel, this.tools, this.enforced, this.recording := kernel, tools, enforced, recording;
      this.admission, this.governor, this.world := admission, governor, world;
      calls, log := [], [];
    }

    method SetAdmission(admission: Option<W -> bool>)
      modifies this`admission
      ensures this.admission == admission
    {
      this.admission := admission;
    }

    method Invoke(fuel: nat, name: string, args: seq<Field>) returns (reply: Reply)
      modifies this`governor, this`calls, this`world, this`log
      ensures (Now(), reply) == Call(Config(), old(Now()), fuel, name, args)
      decreases fuel, 0
    {
      if name !in tools {
        log := log + [TurnedAway(name)];
        return Raised(UnknownTool(name));
      }
      if admission.Some? && !(admission.value)(world) {
        log := log + [TurnedAway(name)];
        return Raised(AdmissionHeld);
      }
      var (g, decision) := kernel.evaluate(governor, name, args);
      governor := g;
      ghost var at := |log|;
      log := log + [Verdict(name, args, decision, g, world)];
      var recorded := |calls|;
      if recording {
        calls := calls + [RecordedCall(name, args, false, Null)];
      }
      if !decision.allowed && enforced {
        return Raised(ToolDenied(decision.reason, decision.category));
      }
      log := log + [Started(name, args)];
      if fuel == 0 {
        return Raised(OutOfFuel);
      }
      ghost var started := Now();
      reply := Run(fuel - 1, tools[name](args));
      PlayExtends(Config(), started, fuel - 1, tools[name](args));
      if reply.Raised? {
        return;
      }
      governor := kernel.register(governor, decision, reply.value);
      log := log + [Ended(at, reply.value)];
      if recording {
        calls := calls[recorded := calls[recorded].(executed := true, result := reply.value)];
      }
    }

    /** An agent, or a tool's own code, run against this toolset. */
    method Run(fuel: nat, program: Program<W>) returns (reply: Reply)
      modifies this`governor, this`calls, this`world, this`log
      ensures (Now(), reply) == Play(Config(), old(Now()), fuel, program)
      decreases fuel, 1
    {
      match program {
        case Return(v) => reply := Returned(v);
        case Fail(what) => reply := Raised(ToolFailed(what));
        case CallTool(name, args, resume) =>
          var r := Invoke(fuel, name, args);
          if fuel == 0 { return Raised(OutOfFuel); }
          reply := Run(fuel - 1, resume(r));
        case Look(use) =>
          if fuel == 0 { return Raised(OutOfFuel); }
          reply := Run(fuel - 1, use(world));
        case Act(w, next) =>
          world := w;
          log := log + [Changed(w)];
          if fuel == 0 { return Raised(OutOfFuel); }
          reply := Run(fuel - 1, next);
      }
    }
  }
}
