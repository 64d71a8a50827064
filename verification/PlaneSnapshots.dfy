/** Snapshots: when one is accepted, and why taking one is the same as having listened all along. */
module PlaneSnapshots {
  import opened Basics
  import opened Json
  import opened PlaneState
  import opened PlaneRuns
  import opened PlaneRaising
  import Sorting

  predicate Accepts(h: Host, state: seq<Field>, raws: seq<Value>)
  {
    VerifyAll(h, raws) == Trusted && Unaccounted(state, SignedValues(InOrder(Commands(h, raws)))).None?
  }

  // ---- acceptance -------------------------------------------------------------------------------

  /** Command `i` is the last one, in version order, that writes `key`. */
  predicate LastWriter(cs: seq<Command>, i: nat, key: string)
  {
    i < |cs| && key in cs[i].delta && forall j :: i < j < |cs| ==> key !in cs[j].delta
  }

  lemma {:induction false} SignedValuesMeaning(cs: seq<Command>, key: string)
    ensures key in SignedValues(cs) <==> exists i: nat :: LastWriter(cs, i, key)
    ensures forall i: nat :: LastWriter(cs, i, key) ==> key in SignedValues(cs) && SignedValues(cs)[key] == cs[i].delta[key]
  {
    if cs != [] {
      SignedValuesMeaning(Init(cs), key);
      if key in Last(cs).delta {
        assert LastWriter(cs, |cs| - 1, key);
      } else {
        forall i: nat ensures LastWriter(cs, i, key) <==> LastWriter(Init(cs), i, key) {}
      }
    }
  }

  lemma {:induction false} AccountedFor(state: seq<Field>, signed: Dict)
    ensures Unaccounted(state, signed).None? <==>
            forall k :: 0 <= k < |state| ==> state[k].key in signed && PyEq(signed[state[k].key], state[k].value)
  {
    if state != [] {
      AccountedFor(state[1..], signed);
      assert forall k :: 0 < k < |state| ==> state[k] == state[1..][k - 1];
    }
  }

  ghost predicate SignedLast(cs: seq<Command>, f: Field)
  {
    exists i: nat :: LastWriter(cs, i, f.key) && PyEq(cs[i].delta[f.key], f.value)
  }

  /** Accepted exactly when every entry is a verified command and every key is what was signed last. */
  lemma SnapshotAcceptedIff(h: Host, state: seq<Field>, raws: seq<Value>)
    ensures Accepts(h, state, raws) <==>
      && (forall i :: 0 <= i < |raws| ==> VerifyRaw(h, raws[i]) == Trusted)
      && (forall k :: 0 <= k < |state| ==> SignedLast(InOrder(Commands(h, raws)), state[k]))
  {
    var cs := InOrder(Commands(h, raws));
    VerifiedAll(h, raws);
    AccountedFor(state, SignedValues(cs));
    forall k | 0 <= k < |state|
      ensures SignedLast(cs, state[k]) <==>
              state[k].key in SignedValues(cs) && PyEq(SignedValues(cs)[state[k].key], state[k].value)
    {
      SignedValuesMeaning(cs, state[k].key);
    }
  }

  /** The entry is a command that one of the configured operators signed for this node. */
  ghost predicate AuthenticEntry(h: Host, issued: iset<Signature>, raw: Value)
  {
    ParseCommand(h, raw).Some? && Authentic(h, issued, ParseCommand(h, raw).value.version, ParseCommand(h, raw).value.delta)
  }

  /** A delta nobody signed, or a snapshot with an entry nobody signed or a key nobody signed last. */
  ghost predicate Forged(h: Host, issued: iset<Signature>, op: Op)
  {
    match op
    case Delta(version, delta, _, _, _) => !Authentic(h, issued, version, delta)
    case Snapshot(_, state, raws) =>
      || (exists i :: 0 <= i < |raws| && !AuthenticEntry(h, issued, raws[i]))
      || (exists k :: 0 <= k < |state| && !SignedLast(InOrder(Commands(h, raws)), state[k]))
    case _ => false
  }

  /** A forged message, delta or snapshot, moves nothing: at most one report tells of it. */
  lemma ForgeryMovesNothing(h: Host, issued: iset<Signature>, n: Node, op: Op)
    requires SigningWorks(h, issued)
    requires Forged(h, issued, op)
    ensures Step(h, n, op) == n
         || exists why :: Step(h, n, op) == n.(outbox := n.outbox + [StateApplied(op.version, SigInvalid(why))])
  {
    match op
    case Delta(version, delta, operator, timestamp, sig) =>
      if Verify(h, version, delta, operator, timestamp, sig) == Trusted {
        TrustedIsAuthentic(h, issued, version, delta, operator, timestamp, sig);
      }
    case Snapshot(version, state, raws) =>
      if Accepts(h, state, raws) {
        SnapshotAcceptedIff(h, state, raws);
        forall i | 0 <= i < |raws| ensures AuthenticEntry(h, issued, raws[i]) {
          assert VerifyRaw(h, raws[i]) == Trusted;
          var c := ParseCommand(h, raws[i]).value;
          TrustedIsAuthentic(h, issued, c.version, c.delta, Str(c.operator), Str(c.timestamp), Str(c.sig));
        }
      }
  }

  // ---- a snapshot is its commands, delivered live -----------------------------------------------

  /** The commands pushed one by one as deltas, until one of them raises. */
  function PushAll(h: Host, n: Node, cs: seq<Command>): (Node, bool)
    decreases |cs|
  {
    if cs == [] then (n, false)
    else
      var (n1, effect) := DeltaOf(h, n, cs[0]);
      if effect == Raised then (n1, true) else PushAll(h, n1, cs[1..])
  }

  lemma {:induction false} ReplayIsPushing(h: Host, n: Node, cs: seq<Command>, last: AppliedEffect)
    requires forall c :: c in cs ==> VerifyCommand(h, c) == Trusted
    requires last != Raised
    ensures PushAll(h, n, cs) == (Replay(h, n, cs, last).0, Replay(h, n, cs, last).1 == Raised)
    decreases |cs|
  {
    if cs != [] {
      assert VerifyCommand(h, cs[0]) == Trusted;
      var (n1, effect) := Apply(h, n, cs[0].version, cs[0].delta);
      if cs[0].version <= n.version {
        ReplayIsPushing(h, n, cs[1..], last);
      } else if effect != Raised {
        ReplayIsPushing(h, n1, cs[1..], effect);
      }
    }
  }

  /** From any state: the commands as deltas in stable version order, then the version at least the snapshot's. */
  lemma SnapshotIsItsDeltas(h: Host, n: Node, version: int, state: seq<Field>, raws: seq<Value>)
    requires h.config.operatorKeys != map[] && Accepts(h, state, raws)
    ensures var (m, raised) := PushAll(h, n, InOrder(Commands(h, raws)));
            SnapshotStep(h, n, version, state, raws).0 == if raised then m else RaisedTo(m, version)
  {
    OrderedAreVerified(h, raws);
    ReplayIsPushing(h, n, InOrder(Commands(h, raws)), Applied);
  }

  predicate VersionsIdentify(cs: seq<Command>)
  {
    forall c, c' :: c in cs && c' in cs && c.version == c'.version ==> c == c'
  }

  lemma PermutedMembers<T>(s: seq<T>, t: seq<T>)
    requires multiset(s) == multiset(t)
    ensures forall x :: x in s <==> x in t
  {
    forall x ensures x in s <==> x in t {
      assert x in multiset(s) <==> x in multiset(t);
    }
  }

  lemma SortedAlike(cs: seq<Command>, cs': seq<Command>)
    requires multiset(cs) == multiset(cs') && VersionsIdentify(cs)
    ensures InOrder(cs) == InOrder(cs')
  {
    ByVersionIsTotal();
    Sorting.SortIgnoresOrder(ByVersion, cs, cs');
  }

  /** The order on the wire, of the commands and of the state's keys, decides nothing. */
  lemma WireOrderIsIrrelevant(h: Host, n: Node, version: int, state: seq<Field>, state': seq<Field>, raws: seq<Value>, raws': seq<Value>)
    requires h.config.operatorKeys != map[]
    requires multiset(raws) == multiset(raws') && multiset(state) == multiset(state')
    requires VersionsIdentify(Commands(h, raws))
    ensures Accepts(h, state, raws) <==> Accepts(h, state', raws')
    ensures Accepts(h, state, raws) ==>
            SnapshotStep(h, n, version, state, raws) == SnapshotStep(h, n, version, state', raws')
  {
    MapPermuted(ParsedCommand(h), raws, raws');
    SortedAlike(Commands(h, raws), Commands(h, raws'));
    AcceptsAlike(h, state, state', raws, raws');
    AcceptsAlike(h, state', state, raws', raws);
  }

  lemma AcceptsAlike(h: Host, state: seq<Field>, state': seq<Field>, raws: seq<Value>, raws': seq<Value>)
    requires multiset(raws) == multiset(raws') && multiset(state) == multiset(state')
    requires InOrder(Commands(h, raws)) == InOrder(Commands(h, raws'))
    ensures Accepts(h, state, raws) ==> Accepts(h, state', raws')
  {
    if !Accepts(h, state, raws) { return; }
    SnapshotAcceptedIff(h, state, raws);
    SnapshotAcceptedIff(h, state', raws');
    PermutedMembers(raws, raws');
    PermutedMembers(state, state');
    forall i | 0 <= i < |raws'| ensures VerifyRaw(h, raws'[i]) == Trusted {
      assert raws'[i] in raws;
    }
    forall k | 0 <= k < |state'| ensures SignedLast(InOrder(Commands(h, raws')), state'[k]) {
      assert state'[k] in state;
    }
  }

  lemma {:induction false} ReplayCatchesUp(h: Host, n: Node, cs: seq<Command>, last: AppliedEffect)
    ensures n.version <= Replay(h, n, cs, last).0.version
    ensures Replay(h, n, cs, last).1 != Raised ==> forall c :: c in cs ==> c.version <= Replay(h, n, cs, last).0.version
    decreases |cs|
  {
    if cs != [] {
      var (n1, effect) := Apply(h, n, cs[0].version, cs[0].delta);
      if cs[0].version <= n.version {
        ReplayCatchesUp(h, n, cs[1..], last);
      } else if effect != Raised {
        ReplayCatchesUp(h, n1, cs[1..], effect);
      }
      assert forall c :: c in cs ==> c == cs[0] || c in cs[1..];
    }
  }

  lemma {:induction false} ReplayOfOldCommands(h: Host, n: Node, cs: seq<Command>, last: AppliedEffect)
    requires forall c :: c in cs ==> c.version <= n.version
    ensures Replay(h, n, cs, last) == (n, last)
    decreases |cs|
  {
    if cs != [] {
      ReplayOfOldCommands(h, n, cs[1..], last);
    }
  }

  /** After an exception, taking the snapshot again goes on behind the command that raised. */
  lemma AgainResumes(h: Host, n: Node, version: int, state: seq<Field>, raws: seq<Value>)
    requires h.config.operatorKeys != map[] && Accepts(h, state, raws)
    requires Halt(h, n.ctl, n.version, InOrder(Commands(h, raws))).Some?
    ensures var cs := InOrder(Commands(h, raws));
            var v := Halt(h, n.ctl, n.version, cs).value;
            var m := SnapshotStep(h, n, version, state, raws).0;
            var (k, effect) := Replay(h, m, Later(cs, v), Applied);
            && m.version == v
            && SnapshotStep(h, m, version, state, raws) == (if effect == Raised then k else RaisedTo(k, version), effect)
  {
    var cs := InOrder(Commands(h, raws));
    ReplayRaisesIff(h, n, cs, Applied);
    var m := SnapshotStep(h, n, version, state, raws).0;
    ReplaySkipsOld(h, m, cs, m.version, Applied);
  }

  /**
    Taking the same accepted snapshot again changes nothing exactly when its replay raises nowhere, or
    raises at its very last command and the snapshot's own version is no later.
   */
  lemma SnapshotIsIdempotentIff(h: Host, n: Node, version: int, state: seq<Field>, raws: seq<Value>)
    requires h.config.operatorKeys != map[] && Accepts(h, state, raws)
    ensures var cs := InOrder(Commands(h, raws));
            var m := SnapshotStep(h, n, version, state, raws).0;
            SnapshotStep(h, m, version, state, raws).0 == m <==>
              match Halt(h, n.ctl, n.version, cs)
              case None => true
              case Some(v) => version <= v && forall c :: c in cs ==> c.version <= v
    ensures Halt(h, n.ctl, n.version, InOrder(Commands(h, raws))).None? ==>
            var m := SnapshotStep(h, n, version, state, raws).0;
            SnapshotStep(h, m, version, state, raws) == (m, Applied)
  {
    var cs := InOrder(Commands(h, raws));
    var m := SnapshotStep(h, n, version, state, raws).0;
    ReplayRaisesIff(h, n, cs, Applied);
    ReplayCatchesUp(h, n, cs, Applied);
    ReplayCatchesUp(h, m, cs, Applied);
    ReplayRaisesIff(h, m, cs, Applied);
    HaltIsNew(h, m.ctl, m.version, cs);
    if forall c :: c in cs ==> c.version <= m.version {
      ReplayOfOldCommands(h, m, cs, Applied);
    }
  }

  // ---- snapshots that raise ---------------------------------------------------------------------

  /**
    A snapshot entry raises out of its check, instead of being refused, exactly when its version is infinite
    and it is an object, or it is shaped like a command and its signature cannot even be checked: the command
    has no canonical form, or the operator is known and the key or signature cannot be read.
   */
  lemma EntryRaisesIff(h: Host, raw: Value)
    ensures VerifyRaw(h, raw) == Fails <==>
      match ParseCommand(h, raw)
      case None => Overflows(h, raw)
      case Some(c) =>
        && h.config.operatorKeys != map[]
        && match h.py.canonical(Message(h.config.nodeId, c.version, c.delta, Str(c.timestamp)))
           case None => true
           case Some(bytes) => c.operator in h.config.operatorKeys
                               && h.py.check(h.config.operatorKeys[c.operator], bytes, Str(c.sig)) == Unreadable
  {}

  /** The first entry that is not a verified command raises. */
  predicate SomeEntryRaises(h: Host, raws: seq<Value>)
  {
    exists i :: 0 <= i < |raws| && FirstToRaise(h, raws, i)
  }

  predicate FirstToRaise(h: Host, raws: seq<Value>, i: nat)
    requires i < |raws|
  {
    VerifyRaw(h, raws[i]) == Fails && forall j :: 0 <= j < i ==> VerifyRaw(h, raws[j]) == Trusted
  }

  lemma {:induction false} ChecksRaiseIff(h: Host, raws: seq<Value>)
    ensures VerifyAll(h, raws) == Fails <==> SomeEntryRaises(h, raws)
  {
    if raws != [] {
      ChecksRaiseIff(h, raws[1..]);
      if i :| 0 <= i < |raws[1..]| && FirstToRaise(h, raws[1..], i) {
        if VerifyRaw(h, raws[0]) == Trusted {
          assert forall j :: 0 < j < i + 1 ==> raws[j] == raws[1..][j - 1];
          assert FirstToRaise(h, raws, i + 1);
        }
      }
      if i :| 0 <= i < |raws| && FirstToRaise(h, raws, i) {
        if i > 0 {
          assert VerifyRaw(h, raws[0]) == Trusted;
          assert forall j :: 0 <= j < i - 1 ==> raws[1..][j] == raws[j + 1];
          assert FirstToRaise(h, raws[1..], i - 1);
        }
      }
      if VerifyRaw(h, raws[0]) == Fails { assert FirstToRaise(h, raws, 0); }
    }
  }

  /** A snapshot raises out of the session exactly when one of its entries does, or one of its accepted commands. */
  lemma SnapshotRaisesIff(h: Host, n: Node, version: int, state: seq<Field>, raws: seq<Value>)
    ensures SnapshotStep(h, n, version, state, raws).1 == Raised <==>
      if h.config.operatorKeys == map[] then n.version < version && Raises(h, n.ctl, ToDict(state))
      else SomeEntryRaises(h, raws)
           || (Accepts(h, state, raws) && Halt(h, n.ctl, n.version, InOrder(Commands(h, raws))).Some?)
  {
    ChecksRaiseIff(h, raws);
    ReplayRaisesIff(h, n, InOrder(Commands(h, raws)), Applied);
  }

  /** An entry that is nothing but an infinite version: whatever the node, its snapshot raises and leaves no report. */
  lemma InfiniteVersionRaises(h: Host, n: Node, version: int, state: seq<Field>)
    requires h.config.operatorKeys != map[]
    ensures SnapshotStep(h, n, version, state, [Obj([Field("version", Infinity(false))])]) == (n, Raised)
  {
    var raw := Obj([Field("version", Infinity(false))]);
    assert Get(raw.fields, "version") == Some(Infinity(false));
    assert Overflows(h, raw) && ParseCommand(h, raw).None?;
    assert VerifyAll(h, [raw]) == Fails;
  }
}
