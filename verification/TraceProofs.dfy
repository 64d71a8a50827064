/** What every trace that gets built satisfies. */
module TraceProofs {
  import opened Basics
  import opened Json
  import opened Decimals
  import opened KernelEvents
  import opened Pairing
  import opened ValueLedger
  import opened Trace

  // ---- growth -----------------------------------------------------------------------------------

  predicate Dense(items: seq<Item>)
  {
    forall k :: 0 <= k < |items| ==> items[k].seqNo == k
  }

  lemma CallKeepsLedger(s: Setting, b: Built, c: nat, p: Pair)
    requires WellFormed(b.ledger) && BuildCall(s, b, c, p).Some?
    ensures var b1 := BuildCall(s, b, c, p).value;
            WellFormed(b1.ledger) && b.ledger.values <= b1.ledger.values
  {
    MintAllKeepsWellFormed(s.views, b.ledger, ArgumentsOf(p));
    MintAllKeepsWellFormed(s.views, WithArguments(s, b, p), ReadsOf(s, p));
  }

  lemma CallKeepsItems(s: Setting, b: Built, c: nat, p: Pair)
    requires Dense(b.items) && BuildCall(s, b, c, p).Some?
    ensures var b1 := BuildCall(s, b, c, p).value;
            Dense(b1.items) && b.items <= b1.items
  {}

  /** What is built after the first `c` calls. */
  function After(s: Setting, pairs: seq<Pair>, c: nat): Option<Built>
    requires c <= |pairs|
  {
    Build(s, pairs[..c])
  }

  lemma AfterNext(s: Setting, pairs: seq<Pair>, c: nat)
    requires c < |pairs|
    ensures After(s, pairs, c + 1) ==
            if After(s, pairs, c).None? then None else BuildCall(s, After(s, pairs, c).value, c, pairs[c])
  {
    assert Init(pairs[..c + 1]) == pairs[..c] && Last(pairs[..c + 1]) == pairs[c];
  }

  lemma AfterAll(s: Setting, pairs: seq<Pair>)
    ensures After(s, pairs, |pairs|) == Build(s, pairs)
  {
    assert pairs[..|pairs|] == pairs;
  }

  /** A trace under way is well formed, and a prefix of the finished one. */
  lemma {:induction false} Grows(s: Setting, pairs: seq<Pair>, c: nat, d: nat)
    requires c <= d <= |pairs| && After(s, pairs, d).Some?
    ensures After(s, pairs, c).Some?
    ensures WellFormed(After(s, pairs, c).value.ledger) && Dense(After(s, pairs, c).value.items)
    ensures After(s, pairs, c).value.ledger.values <= After(s, pairs, d).value.ledger.values
    ensures After(s, pairs, c).value.items <= After(s, pairs, d).value.items
    decreases d, d - c
  {
    if d > 0 {
      AfterNext(s, pairs, d - 1);
      Grows(s, pairs, d - 1, d - 1);
      CallKeepsLedger(s, After(s, pairs, d - 1).value, d - 1, pairs[d - 1]);
      CallKeepsItems(s, After(s, pairs, d - 1).value, d - 1, pairs[d - 1]);
      if c < d {
        Grows(s, pairs, c, d - 1);
      }
    }
  }

  /** `seq` is dense from 0, and the ledger is well formed: numbered, its lineage exact. */
  lemma TraceIsWellFormed(s: Setting, pairs: seq<Pair>, b: Built)
    requires Build(s, pairs) == Some(b)
    ensures WellFormed(b.ledger)
    ensures forall k :: 0 <= k < |b.items| ==> b.items[k].seqNo == k
  {
    AfterAll(s, pairs);
    Grows(s, pairs, |pairs|, |pairs|);
  }

  predicate HasCategory(p: Pair)
  {
    IsDenial(p.event) ==> p.event.payload.category.Some?
  }

  lemma LastCallDecides(s: Setting, pairs: seq<Pair>)
    requires pairs != []
    ensures Build(s, pairs).Some? <==> Build(s, Init(pairs)).Some? && HasCategory(Last(pairs))
  {}

  /** A paired run becomes a trace exactly when every denial names its category. */
  lemma {:induction false} BuildSucceedsIff(s: Setting, pairs: seq<Pair>)
    ensures Build(s, pairs).Some? <==>
            forall i :: 0 <= i < |pairs| ==> HasCategory(pairs[i])
  {
    if pairs != [] {
      BuildSucceedsIff(s, Init(pairs));
      LastCallDecides(s, pairs);
      AllHaveCategories(pairs);
    }
  }

  lemma AllHaveCategories(pairs: seq<Pair>)
    requires pairs != []
    ensures (forall i :: 0 <= i < |pairs| ==> HasCategory(pairs[i]))
       <==> (forall i :: 0 <= i < |Init(pairs)| ==> HasCategory(Init(pairs)[i])) && HasCategory(Last(pairs))
  {
    assert forall i :: 0 <= i < |Init(pairs)| ==> pairs[i] == Init(pairs)[i];
    assert Last(pairs) == pairs[|pairs| - 1];
  }

  // ---- the items of a call ----------------------------------------------------------------------

  /** The decision for a verdict: its outcome, its gate, and a driving value that is bound, or the reason why none is. */
  ghost predicate DecisionFits(s: Setting, e: TraceEvent, bindings: map<string, string>, d: GateDecision)
  {
    var driving := e.payload.drivingArgs;
    && (d.denied <==> IsDenial(e)) && d.enforced == s.enforced
    && (d.denied ==> e.payload.category.Some? && d.gate == s.gateOf(e.payload.category.value))
    && (!d.denied ==> d.gate == "taint_floor")
    && d.reason == e.reason && (d.projected <==> IsDenial(e))
    && (d.driving.Some? <==> driving != [] && driving[0] in bindings)
    && (d.driving.Some? ==> d.driving.value == bindings[driving[0]])
    && (d.unresolved.Some? <==> d.driving.None?)
    && (d.driving.None? ==> d.unresolved.value == if driving == [] then NoDrivingArgs else UnresolvedArgument(driving[0]))
  }

  /**
    A call stands in the trace as one intent, then one decision under the same call id, then a result iff
    the tool ran, right behind what was there; `b0` and `b1` are the trace before and after the call.
   */
  ghost predicate CallStands(s: Setting, p: Pair, c: nat, b0: Built, b1: Built)
  {
    var n := |b0.items|;
    && b0.items <= b1.items && |b1.items| == n + (if Executed(p) then 3 else 2)
    && b1.items[n].Intent? && b1.items[n].callId == "call_root_" + Decimal(c)
    && b1.items[n].tool == (if p.call.Some? then p.call.value.tool else p.event.payload.tool)
    && b1.items[n + 1].Gate? && b1.items[n + 1].callId == b1.items[n].callId
    && DecisionFits(s, p.event, b1.items[n].bindings, b1.items[n + 1].decision)
    && (Executed(p) ==> b1.items[n + 2].ResultOf? && b1.items[n + 2].tool == ToolOf(p))
  }

  lemma BuiltCallStands(s: Setting, p: Pair, c: nat, b0: Built)
    requires BuildCall(s, b0, c, p).Some?
    ensures CallStands(s, p, c, b0, BuildCall(s, b0, c, p).value)
  {}

  lemma {:induction false} BindingsMeaning(args: seq<Field>, ids: seq<string>, name: string) returns (i: nat)
    requires |ids| == |args|
    ensures name in Bindings(args, ids) <==> exists j :: 0 <= j < |args| && args[j].key == name
    ensures name in Bindings(args, ids) ==> i < |args| && args[i].key == name && Bindings(args, ids)[name] == ids[i]
    ensures name in Bindings(args, ids) ==> forall j :: i < j < |args| ==> args[j].key != name
  {
    i := 0;
    if args != [] {
      i := BindingsMeaning(Init(args), Init(ids), name);
      assert forall j :: 0 <= j < |args| ==> args[j] == if j == |args| - 1 then Last(args) else Init(args)[j];
      if name == Last(args).key {
        i := |args| - 1;
        assert args[i].key == name;
      }
    }
  }

  /** Every argument has its entry, in the order of the arguments, right behind the values before the call. */
  ghost predicate ArgumentsStand(s: Setting, p: Pair, b0: Built, b1: Built)
  {
    var from := |b0.ledger.values|;
    && from + |ArgsOf(p)| <= |b1.ledger.values|
    && forall i :: 0 <= i < |ArgsOf(p)| ==> EntryFor(s.views, b1.ledger.values[from + i], ArgumentsOf(p)[i])
  }

  lemma BuiltArgumentsStand(s: Setting, p: Pair, c: nat, b0: Built)
    requires WellFormed(b0.ledger) && BuildCall(s, b0, c, p).Some?
    ensures ArgumentsStand(s, p, b0, BuildCall(s, b0, c, p).value)
  {
    var l1 := MintAll(s.views, b0.ledger, ArgumentsOf(p));
    var l2 := MintAll(s.views, l1, ReadsOf(s, p));
    forall i | 0 <= i < |ArgsOf(p)|
      ensures EntryFor(s.views, l2.values[|b0.ledger.values| + i], ArgumentsOf(p)[i])
    {
      MintAllFits(s.views, b0.ledger, ArgumentsOf(p), i);
      assert l2.values[|b0.ledger.values| + i] == l1.values[|b0.ledger.values| + i];
    }
  }

  /** The call's bindings name its arguments, each by the id of its own entry. */
  ghost predicate BindingStands(p: Pair, b0: Built, b1: Built, name: string)
    requires |b0.items| < |b1.items| && b1.items[|b0.items|].Intent?
    requires |b0.ledger.values| + |ArgsOf(p)| <= |b1.ledger.values|
  {
    var bindings := b1.items[|b0.items|].bindings;
    && (name in bindings <==> exists j :: 0 <= j < |ArgsOf(p)| && ArgsOf(p)[j].key == name)
    && (name in bindings ==> exists i :: 0 <= i < |ArgsOf(p)| && ArgsOf(p)[i].key == name
                                         && bindings[name] == b1.ledger.values[|b0.ledger.values| + i].id)
  }

  lemma BuiltBindingStands(s: Setting, p: Pair, c: nat, b0: Built, name: string)
    requires BuildCall(s, b0, c, p).Some?
    ensures BindingStands(p, b0, BuildCall(s, b0, c, p).value, name)
  {
    var l1 := MintAll(s.views, b0.ledger, ArgumentsOf(p));
    var l2 := MintAll(s.views, l1, ReadsOf(s, p));
    var i := BindingsMeaning(ArgsOf(p), Since(l1, |b0.ledger.values|), name);
    if i < |ArgsOf(p)| {
      assert l2.values[|b0.ledger.values| + i] == l1.values[|b0.ledger.values| + i];
    }
  }

  /** The values from `from` on are those offered, one by one, and `produced` names them. */
  ghost predicate ReadsStand(x: Views, offered: seq<Wanted>, produced: seq<string>, values: seq<Minted>, from: nat)
  {
    && |produced| == |offered| && from + |produced| == |values|
    && forall i :: 0 <= i < |produced| ==> produced[i] == values[from + i].id && EntryFor(x, values[from + i], offered[i])
  }

  /** What the call produced: one id for each untrusted field present in its result, of the entry minted for it. */
  ghost predicate ResultStands(s: Setting, p: Pair, b0: Built, b1: Built)
    requires Executed(p) ==> |b0.items| + 2 < |b1.items| && b1.items[|b0.items| + 2].ResultOf?
  {
    Executed(p) ==>
      ReadsStand(s.views, ReadsOf(s, p), b1.items[|b0.items| + 2].produced, b1.ledger.values, |b0.ledger.values| + |ArgsOf(p)|)
  }

  lemma FittingReadsStand(x: Views, offered: seq<Wanted>, m: Ledger, from: nat)
    requires |m.values| == from + |offered|
    requires forall i :: 0 <= i < |offered| ==> EntryFor(x, m.values[from + i], offered[i])
    ensures ReadsStand(x, offered, Since(m, from), m.values, from)
  {}

  lemma MintedReadsFit(x: Views, l: Ledger, offered: seq<Wanted>, m: Ledger)
    requires WellFormed(l) && m == MintAll(x, l, offered)
    ensures |m.values| == |l.values| + |offered|
    ensures forall i :: 0 <= i < |offered| ==> EntryFor(x, m.values[|l.values| + i], offered[i])
  {
    forall i | 0 <= i < |offered| ensures EntryFor(x, m.values[|l.values| + i], offered[i]) {
      MintAllFits(x, l, offered, i);
    }
  }

  lemma MintedReadsStand(x: Views, l: Ledger, offered: seq<Wanted>, m: Ledger)
    requires WellFormed(l) && m == MintAll(x, l, offered)
    ensures ReadsStand(x, offered, Since(m, |l.values|), m.values, |l.values|)
  {
    MintedReadsFit(x, l, offered, m);
    FittingReadsStand(x, offered, m, |l.values|);
  }

  lemma BuiltResultStands(s: Setting, p: Pair, c: nat, b0: Built)
    requires WellFormed(b0.ledger) && BuildCall(s, b0, c, p).Some?
    ensures ResultStands(s, p, b0, BuildCall(s, b0, c, p).value)
  {
    MintAllKeepsWellFormed(s.views, b0.ledger, ArgumentsOf(p));
    BuiltProduces(s, p, c, b0);
    MintedReadsStand(s.views, WithArguments(s, b0, p), ReadsOf(s, p), BuildCall(s, b0, c, p).value.ledger);
    ResultIsReads(s, p, b0, BuildCall(s, b0, c, p).value, ReadsOf(s, p), WithArguments(s, b0, p));
  }

  lemma ResultIsReads(s: Setting, p: Pair, b0: Built, b1: Built, offered: seq<Wanted>, l1: Ledger)
    requires offered == ReadsOf(s, p) && |l1.values| == |b0.ledger.values| + |ArgsOf(p)| <= |b1.ledger.values|
    requires ReadsStand(s.views, offered, Since(b1.ledger, |l1.values|), b1.ledger.values, |l1.values|)
    requires Executed(p) ==> |b0.items| + 2 < |b1.items| && b1.items[|b0.items| + 2].ResultOf?
                             && b1.items[|b0.items| + 2].produced == Since(b1.ledger, |l1.values|)
    ensures ResultStands(s, p, b0, b1)
  {}

  lemma BuiltProduces(s: Setting, p: Pair, c: nat, b0: Built)
    requires BuildCall(s, b0, c, p).Some?
    ensures var l1, b1 := WithArguments(s, b0, p), BuildCall(s, b0, c, p).value;
            && b1.ledger == MintAll(s.views, l1, ReadsOf(s, p))
            && (Executed(p) ==> |b0.items| + 2 < |b1.items| && b1.items[|b0.items| + 2].ResultOf?
                                && b1.items[|b0.items| + 2].produced == Since(b1.ledger, |l1.values|))
  {}

  lemma StageExists(s: Setting, pairs: seq<Pair>, b: Built, c: nat) returns (b0: Built)
    requires Build(s, pairs) == Some(b) && c <= |pairs|
    ensures After(s, pairs, c) == Some(b0)
    ensures b0.ledger.values <= b.ledger.values && b0.items <= b.items
  {
    AfterAll(s, pairs);
    Grows(s, pairs, c, |pairs|);
    b0 := After(s, pairs, c).value;
  }

  lemma StageIsWellFormed(s: Setting, pairs: seq<Pair>, c: nat, b0: Built)
    requires c <= |pairs| && After(s, pairs, c) == Some(b0)
    ensures WellFormed(b0.ledger)
  {
    Grows(s, pairs, c, c);
  }

  lemma StageFollows(s: Setting, pairs: seq<Pair>, c: nat, b0: Built, b1: Built)
    requires c < |pairs| && After(s, pairs, c) == Some(b0) && After(s, pairs, c + 1) == Some(b1)
    ensures BuildCall(s, b0, c, pairs[c]) == Some(b1)
    ensures b0.ledger.values <= b1.ledger.values && b0.items <= b1.items
  {
    AfterNext(s, pairs, c);
    Grows(s, pairs, c, c + 1);
  }

  /** The trace before and after call `c`: both stages are prefixes of the finished trace. */
  lemma Stages(s: Setting, pairs: seq<Pair>, b: Built, c: nat) returns (b0: Built, b1: Built)
    requires Build(s, pairs) == Some(b) && c < |pairs|
    ensures After(s, pairs, c) == Some(b0) && After(s, pairs, c + 1) == Some(b1)
    ensures BuildCall(s, b0, c, pairs[c]) == Some(b1) && WellFormed(b0.ledger)
    ensures b0.ledger.values <= b1.ledger.values <= b.ledger.values
    ensures b0.items <= b1.items <= b.items
  {
    b0 := StageExists(s, pairs, b, c);
    b1 := StageExists(s, pairs, b, c + 1);
    StageFollows(s, pairs, c, b0, b1);
    StageIsWellFormed(s, pairs, c, b0);
  }

  /**
    Every call of the run stands in the finished trace, its values in the finished ledger: `b0` and `b1`
    are the stages around it, `b1` of one call being `b0` of the next, the first stage empty, the last the trace.
   */
  lemma EveryCallStands(s: Setting, pairs: seq<Pair>, b: Built, c: nat) returns (b0: Built, b1: Built)
    requires Build(s, pairs) == Some(b) && c < |pairs|
    ensures After(s, pairs, c) == Some(b0) && After(s, pairs, c + 1) == Some(b1)
    ensures (c == 0 ==> b0 == Built(EMPTY, [])) && (c + 1 == |pairs| ==> b1 == b)
    ensures b1.items <= b.items && b1.ledger.values <= b.ledger.values
    ensures CallStands(s, pairs[c], c, b0, b1) && ArgumentsStand(s, pairs[c], b0, b1) && ResultStands(s, pairs[c], b0, b1)
    ensures forall name :: BindingStands(pairs[c], b0, b1, name)
  {
    b0, b1 := Stages(s, pairs, b, c);
    BuiltCallStands(s, pairs[c], c, b0);
    BuiltArgumentsStand(s, pairs[c], c, b0);
    BuiltResultStands(s, pairs[c], c, b0);
    forall name ensures BindingStands(pairs[c], b0, b1, name) {
      BuiltBindingStands(s, pairs[c], c, b0, name);
    }
    AfterAll(s, pairs);
  }

  // ---- lineage across calls ---------------------------------------------------------------------

  lemma ReadsAreReads(s: Setting, p: Pair, k: nat)
    requires k < |ReadsOf(s, p)|
    ensures ReadsOf(s, p)[k].FromResult?
  {}

  lemma OfferedIsTainted(x: Views, offered: seq<Wanted>, produced: seq<string>, values: seq<Minted>, from: nat, k: nat)
    requires ReadsStand(x, offered, produced, values, from) && k < |offered| && offered[k].FromResult?
    ensures produced[k] == values[from + k].id && Tainted(values[from + k])
  {
    assert EntryFor(x, values[from + k], offered[k]);
  }

  /** The result of call `c` is an item of the finished trace. */
  lemma ResultItem(s: Setting, p: Pair, c: nat, b0: Built, b1: Built, b: Built) returns (n: nat)
    requires Executed(p) && CallStands(s, p, c, b0, b1) && b1.items <= b.items
    ensures n == |b0.items| + 2 < |b1.items| && n < |b.items| && b.items[n] == b1.items[n] && b.items[n].ResultOf?
  {
    n := |b0.items| + 2;
    assert b.items[n] == b1.items[n];
  }

  /** What a result names is tainted, in the ledger as it was and in the finished one. */
  lemma NamedIsTainted(x: Views, offered: seq<Wanted>, produced: seq<string>, values: seq<Minted>, all: seq<Minted>, from: nat, k: nat)
    returns (root: nat)
    requires ReadsStand(x, offered, produced, values, from) && values <= all && k < |offered| && offered[k].FromResult?
    ensures k < |produced| && root < |values| && root < |all| && produced[k] == all[root].id && Tainted(all[root])
  {
    OfferedIsTainted(x, offered, produced, values, from, k);
    root := from + k;
    assert all[root] == values[root];
  }

  lemma RootIn(s: Setting, p: Pair, c: nat, b0: Built, b1: Built, b: Built, k: nat) returns (n: nat, root: nat)
    requires Executed(p) && CallStands(s, p, c, b0, b1) && ResultStands(s, p, b0, b1)
    requires b1.items <= b.items && b1.ledger.values <= b.ledger.values
    requires k < |ReadsOf(s, p)| && ReadsOf(s, p)[k].FromResult?
    ensures n == |b0.items| + 2 < |b.items| && b.items[n].ResultOf? && k < |b.items[n].produced|
    ensures root < |b1.ledger.values|
    ensures root < |b.ledger.values| && b.items[n].produced[k] == b.ledger.values[root].id && Tainted(b.ledger.values[root])
  {
    n := ResultItem(s, p, c, b0, b1, b);
    root := NamedIsTainted(s.views, ReadsOf(s, p), b1.items[n].produced, b1.ledger.values, b.ledger.values,
                           |b0.ledger.values| + |ArgsOf(p)|, k);
  }

  /** Field `k` of what call `c` produced is a tainted value, minted before the next call. */
  lemma ProducedRoot(s: Setting, pairs: seq<Pair>, b: Built, c: nat, k: nat) returns (n: nat, root: nat)
    requires Build(s, pairs) == Some(b) && c < |pairs| && Executed(pairs[c]) && k < |ReadsOf(s, pairs[c])|
    ensures After(s, pairs, c).Some? && After(s, pairs, c + 1).Some? && n == |After(s, pairs, c).value.items| + 2
    ensures n < |b.items| && b.items[n].ResultOf? && k < |b.items[n].produced|
    ensures root < |After(s, pairs, c + 1).value.ledger.values| <= |b.ledger.values|
    ensures b.items[n].produced[k] == b.ledger.values[root].id && Tainted(b.ledger.values[root])
  {
    var b0, b1 := Stages(s, pairs, b, c);
    BuiltCallStands(s, pairs[c], c, b0);
    BuiltResultStands(s, pairs[c], c, b0);
    ReadsAreReads(s, pairs[c], k);
    n, root := RootIn(s, pairs[c], c, b0, b1, b, k);
  }

  /** The kernel found taint in argument `i`. */
  predicate TaintedArgument(p: Pair, i: nat)
  {
    && i < |ArgsOf(p)| && ArgsOf(p)[i].key in p.event.payload.provenance
    && p.event.payload.provenance[ArgsOf(p)[i].key].sources != []
  }

  lemma TaintedArgumentIsExtracted(s: Setting, p: Pair, b0: Built, b1: Built, i: nat)
    requires ArgumentsStand(s, p, b0, b1) && TaintedArgument(p, i)
    ensures |b0.ledger.values| + i < |b1.ledger.values| && b1.ledger.values[|b0.ledger.values| + i].extracted
  {
    assert EntryFor(s.views, b1.ledger.values[|b0.ledger.values| + i], ArgumentsOf(p)[i]);
  }

  lemma ArgumentStage(s: Setting, pairs: seq<Pair>, b: Built, c: nat) returns (b0: Built, b1: Built)
    requires Build(s, pairs) == Some(b) && c < |pairs|
    ensures After(s, pairs, c) == Some(b0) && ArgumentsStand(s, pairs[c], b0, b1) && b1.ledger.values <= b.ledger.values
  {
    b0, b1 := Stages(s, pairs, b, c);
    BuiltArgumentsStand(s, pairs[c], c, b0);
  }

  lemma ExtractedStays(s: Setting, p: Pair, b0: Built, b1: Built, b: Built, i: nat)
    requires ArgumentsStand(s, p, b0, b1) && TaintedArgument(p, i) && b1.ledger.values <= b.ledger.values
    ensures |b0.ledger.values| + i < |b.ledger.values| && b.ledger.values[|b0.ledger.values| + i].extracted
  {
    TaintedArgumentIsExtracted(s, p, b0, b1, i);
    assert b.ledger.values[|b0.ledger.values| + i] == b1.ledger.values[|b0.ledger.values| + i];
  }

  lemma ExtractedAtStage(s: Setting, pairs: seq<Pair>, b: Built, c: nat, i: nat) returns (b0: Built)
    requires Build(s, pairs) == Some(b) && c < |pairs|
    requires TaintedArgument(pairs[c], i)
    ensures After(s, pairs, c) == Some(b0)
    ensures |b0.ledger.values| + i < |b.ledger.values| && b.ledger.values[|b0.ledger.values| + i].extracted
  {
    var b1;
    b0, b1 := ArgumentStage(s, pairs, b, c);
    ExtractedStays(s, pairs[c], b0, b1, b, i);
  }

  lemma ExtractedArgument(s: Setting, pairs: seq<Pair>, b: Built, c: nat, i: nat) returns (argument: nat)
    requires Build(s, pairs) == Some(b) && c < |pairs|
    requires TaintedArgument(pairs[c], i)
    ensures After(s, pairs, c).Some? && argument == |After(s, pairs, c).value.ledger.values| + i
    ensures argument < |b.ledger.values| && b.ledger.values[argument].extracted
  {
    var b0 := ExtractedAtStage(s, pairs, b, c, i);
    argument := |b0.ledger.values| + i;
  }

  /** A tainted argument derives from every untrusted field that an earlier call produced. */
  lemma TaintedArgumentsReachEarlierResults(s: Setting, pairs: seq<Pair>, b: Built, c1: nat, c2: nat, i: nat, k: nat)
    returns (n: nat, argument: nat)
    requires Build(s, pairs) == Some(b) && c1 < c2 < |pairs|
    requires Executed(pairs[c1]) && k < |ReadsOf(s, pairs[c1])|
    requires TaintedArgument(pairs[c2], i)
    ensures After(s, pairs, c1).Some? && n == |After(s, pairs, c1).value.items| + 2
    ensures After(s, pairs, c2).Some? && argument == |After(s, pairs, c2).value.ledger.values| + i
    ensures n < |b.items| && b.items[n].ResultOf? && k < |b.items[n].produced|
    ensures argument < |b.ledger.values| && b.items[n].produced[k] in b.ledger.values[argument].derivedFrom
  {
    var root;
    n, root := ProducedRoot(s, pairs, b, c1, k);
    argument := ExtractedArgument(s, pairs, b, c2, i);
    TraceIsWellFormed(s, pairs, b);
    Grows(s, pairs, c1 + 1, c2);
    LineageIsSound(b.ledger, argument, root);
  }
}
