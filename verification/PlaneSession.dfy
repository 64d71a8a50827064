/** The session object: the state machine of `PlaneState`, updated in place. */
module PlaneSession {
  import opened Basics
  import opened Json
  import opened PlaneState
  import Sorting

  class Session {
    const host: Host

    var applied_version: int
    var paused: bool
    var stopped: bool
    var budget_cap_calls: Option<int>
    var pending_injection: Option<Injection>
    var pending_excision: Option<Excision>
    var pending_replan: Option<Replan>
    var consumed_ids: set<string>
    var outbox: seq<Ack>

    ghost function State(): Node
      reads this
    {
      Node(applied_version,
           Control(paused, stopped, budget_cap_calls, pending_injection, pending_excision, pending_replan),
           consumed_ids, outbox)
    }

    constructor (host: Host)
      ensures this.host == host
      ensures State() == Fresh(host)
    {
      this.host := host;
      applied_version, paused, stopped := 0, false, false;
      budget_cap_calls := host.config.localCap;
      pending_injection, pending_excision, pending_replan := None, None, None;
      consumed_ids, outbox := {}, [];
    }

    method Report(effect: AppliedEffect, version: int)
      modifies this`outbox
      ensures State() == Reported(old(State()), effect, version)
    {
      if effect != Applied {
        outbox := outbox + [StateApplied(version, effect)];
      }
    }

    /** The pending one-shots of an accepted command, the last part of applying it. */
    method StoreOneShots(state: Dict) returns (effect: AppliedEffect)
      modifies this`pending_replan, this`pending_injection, this`pending_excision
      ensures effect == OneShots(host, old(State().ctl), state).1
      ensures State() == old(State()).(ctl := OneShots(host, old(State().ctl), state).0)
    {
      if TruthyAt(state, "replan") {
        pending_replan := Some(ReadReplan(host, state["replan"]));
      }
      if TruthyAt(state, "pending_injection") {
        var injection := ReadInjection(host, state["pending_injection"]);
        if injection.None? {
          return Raised;
        }
        pending_injection := injection;
      }
      if TruthyAt(state, "pending_excision") {
        var excision := ReadExcision(host, state["pending_excision"]);
        if excision.None? {
          return Raised;
        }
        pending_excision := excision;
      }
      effect := Applied;
    }

    method WriteFlags(state: Dict)
      modifies this`paused, this`stopped
      ensures State() == old(State()).(ctl := Flags(old(State().ctl), state))
    {
      if "stopped" in state {
        stopped := Truthy(state["stopped"]);
      }
      if "paused" in state {
        paused := Truthy(state["paused"]);
      }
    }

    /** The writes of an accepted command, in order; a refusal or an exception keeps the earlier ones. */
    method WriteEffects(state: Dict) returns (effect: AppliedEffect)
      modifies this`paused, this`stopped, this`budget_cap_calls,
               this`pending_replan, this`pending_injection, this`pending_excision
      ensures effect == Effects(host, old(State().ctl), state).1
      ensures State() == old(State()).(ctl := Effects(host, old(State().ctl), state).0)
    {
      WriteFlags(state);
      if "budget_cap_calls" in state && state["budget_cap_calls"] != Null {
        var requested := ToInt(host, state["budget_cap_calls"]);
        if requested.None? {
          return Raised;
        }
        var current := budget_cap_calls;
        if current.Some? && requested.value > current.value {
          return RejectedWidening(requested.value, current.value);
        }
        budget_cap_calls := requested;
      }
      effect := StoreOneShots(state);
    }

    method ApplyState(version: int, state: Dict) returns (effect: AppliedEffect)
      modifies this
      ensures (State(), effect) == Apply(host, old(State()), version, state)
    {
      if version <= applied_version {
        return NoopStale(version);
      }
      applied_version := version;

      if stopped {
        effect := NoopAbsorbed;
        Report(effect, version);
        return;
      }

      effect := WriteEffects(state);
      if effect != Raised {
        Report(effect, version);
      }
    }

    method ApplyDelta(version: int, delta: Dict, operator: Value, timestamp: Value, sig: Value)
      returns (effect: AppliedEffect)
      modifies this
      ensures (State(), effect) == DeltaStep(host, old(State()), version, delta, operator, timestamp, sig)
    {
      effect := ApplyJudged(version, delta, Verify(host, version, delta, operator, timestamp, sig));
    }

    method ApplyJudged(version: int, delta: Dict, verdict: Verdict) returns (effect: AppliedEffect)
      modifies this
      ensures (State(), effect) == DeltaBy(host, old(State()), version, delta, verdict)
    {
      if verdict == Fails {
        return Raised;
      }
      if verdict.Refused? {
        effect := SigInvalid(verdict.why);
        Report(effect, version);
        return;
      }
      effect := ApplyState(version, delta);
    }

    /** The checks of a snapshot's commands, one at a time; they change nothing. */
    method VerifyCommands(raws: seq<Value>) returns (verdict: Verdict, verified: seq<Command>)
      ensures verdict == VerifyAll(host, raws)
      ensures verdict == Trusted ==> verified == Commands(host, raws)
    {
      verified := [];
      for i := 0 to |raws|
        invariant verified == Commands(host, raws[..i])
        invariant VerifyAll(host, raws) == VerifyAll(host, raws[i..])
      {
        var entry := ParseCommand(host, raws[i]);
        verdict := VerifyRaw(host, raws[i]);
        if verdict != Trusted {
          return;
        }
        verified := verified + [entry.value];
        assert raws[i..][1..] == raws[i + 1..];
      }
      assert raws[..|raws|] == raws;
      verdict := Trusted;
    }

    method CheckState(state: seq<Field>, cs: seq<Command>) returns (why: Option<Refusal>)
      ensures why == Unaccounted(state, SignedValues(cs))
    {
      var signed: Dict := map[];
      for i := 0 to |cs|
        invariant signed == SignedValues(cs[..i])
      {
        signed := signed + cs[i].delta;
        assert Init(cs[..i + 1]) == cs[..i];
      }
      assert cs[..|cs|] == cs;
      for i := 0 to |state|
        invariant Unaccounted(state, signed) == Unaccounted(state[i..], signed)
      {
        if state[i].key !in signed {
          return Some(UnsignedKey(state[i].key));
        }
        if !PyEq(signed[state[i].key], state[i].value) {
          return Some(NotWhatWasSigned(state[i].key));
        }
        assert state[i..][1..] == state[i + 1..];
      }
      why := None;
    }

    method ReplayCommands(cs: seq<Command>) returns (effect: AppliedEffect)
      modifies this
      ensures (State(), effect) == Replay(host, old(State()), cs, Applied)
    {
      effect := Applied;
      for i := 0 to |cs|
        invariant Replay(host, old(State()), cs, Applied) == Replay(host, State(), cs[i..], effect)
      {
        assert cs[i..][1..] == cs[i + 1..];
        if applied_version < cs[i].version {
          effect := ApplyState(cs[i].version, cs[i].delta);
          if effect == Raised {
            return;
          }
        }
      }
    }

    method ApplySnapshot(version: int, state: seq<Field>, commands: seq<Value>) returns (effect: AppliedEffect)
      modifies this
      ensures (State(), effect) == SnapshotStep(host, old(State()), version, state, commands)
    {
      if host.config.operatorKeys == map[] {
        effect := ApplyState(version, ToDict(state));
        return;
      }
      var verdict, verified := VerifyCommands(commands);
      if verdict == Fails {
        return Raised;
      }
      if verdict.Refused? {
        effect := SigInvalid(verdict.why);
        Report(effect, version);
        return;
      }
      verified := InOrder(verified);
      var why := CheckState(state, verified);
      if why.Some? {
        effect := SigInvalid(why.value);
        Report(effect, version);
        return;
      }
      effect := ReplayCommands(verified);
      if effect != Raised {
        applied_version := Max(applied_version, version);
      }
    }

    method Admit() returns (admitted: bool)
      ensures admitted == AdmitIntent(State())
    {
      admitted := !(paused || stopped);
    }

    method TakePendingInjection() returns (taken: Option<Injection>)
      modifies this
      ensures (State(), taken) == TakeInjection(host, old(State()))
    {
      taken := None;
      if pending_injection.None? {
        return;
      }
      var inj := pending_injection.value;
      pending_injection := None;
      if inj.id in consumed_ids {
        return;
      }
      if stopped {
        outbox := outbox + [InjectionRefused(inj.id, "stopped")];
        return;
      }
      if !host.config.testBench {
        outbox := outbox + [InjectionRefused(inj.id, "not test-bench")];
        return;
      }
      consumed_ids := consumed_ids + {inj.id};
      outbox := outbox + [InjectionConsumed(inj.id)];
      taken := Some(inj);
    }

    method TakePendingExcision(provenance: map<string, string>) returns (taken: Option<Excision>)
      modifies this
      ensures (State(), taken) == TakeExcision(host, old(State()), provenance)
    {
      taken := None;
      if pending_excision.None? {
        return;
      }
      var exc := pending_excision.value;
      pending_excision := None;
      if exc.id in consumed_ids {
        return;
      }
      var refused := host.py.refusedRefs(exc, provenance);
      if refused != [] {
        outbox := outbox + [ExcisionRefused(exc.id, refused)];
        return;
      }
      consumed_ids := consumed_ids + {exc.id};
      outbox := outbox + [ContextExcision(exc.id, exc.refs, ProvenanceOf(exc.refs, provenance), exc.operator, exc.reason)];
      taken := Some(exc);
    }

    method TakePendingReplan() returns (taken: Option<Replan>)
      modifies this
      ensures (State(), taken) == TakeReplan(old(State()))
    {
      taken := None;
      if pending_replan.None? {
        return;
      }
      var rp := pending_replan.value;
      pending_replan := None;
      if rp.id != "" && rp.id in consumed_ids {
        return;
      }
      if stopped {
        outbox := outbox + [ReplanRefused(rp.id)];
        return;
      }
      if rp.id != "" {
        consumed_ids := consumed_ids + {rp.id};
      }
      outbox := outbox + [ReplanApplied(rp.id)];
      taken := Some(rp);
    }
  }
}
