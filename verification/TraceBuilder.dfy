/** The trace builder: one pass over the pairs, minting into a ledger that changes in place. */
module TraceBuilder {
  import opened Basics
  import opened Json
  import opened KernelEvents
  import opened Toolset
  import opened Fields
  import opened Pairing
  import opened ValueLedger
  import opened Trace
  import TraceProofs

  class Book {
    var values: seq<Minted>
    var counter: nat
    var untrustedIds: seq<string>

    ghost function Contents(): Ledger
      reads this
    {
      Ledger(values, counter, untrustedIds)
    }

    constructor ()
      ensures Contents() == EMPTY
    {
      values, counter, untrustedIds := [], 0, [];
    }

    method MintValue(x: Views, v: Value, h: Hint, labels: seq<Label>, sources: seq<Source>, sensitive: bool,
                     extracted: bool, derivedFrom: seq<string>) returns (id: string)
      modifies this
      ensures Contents() == Mint(x, old(Contents()), v, h, labels, sources, sensitive, extracted, derivedFrom)
      ensures id == Last(values).id
    {
      counter := counter + 1;
      id := ValueId(h, counter);
      var preview, shown := x.preview(v), Some(v);
      if sensitive {
        preview, shown := REDACTED, None;
      }
      values := values + [Minted(id, x.hash(v), labels, sources, shown, preview, extracted, derivedFrom)];
      if UntrustedDerived in labels {
        untrustedIds := untrustedIds + [id];
      }
    }

    method MintArgument(x: Views, tool: string, name: string, v: Value, p: ArgProvenance) returns (id: string)
      modifies this
      ensures Contents() == MintOne(x, old(Contents()), Argument(tool, name, v, p))
      ensures id == Last(values).id
    {
      if p.sources == [] {
        id := MintValue(x, v, Const, [PromptGiven], [ArgumentGiven(tool, name)], p.sensitive, false, []);
        return;
      }
      var labels := [UntrustedDerived] + (if p.sensitive then [Sensitive] else []);
      id := MintValue(x, v, Model, labels, TaintSources(p.sources), p.sensitive, true, untrustedIds);
    }

    method MintFieldRead(x: Views, tool: string, path: string, v: Value, sensitive: bool) returns (id: string)
      modifies this
      ensures Contents() == MintOne(x, old(Contents()), FromResult(tool, path, v, sensitive))
      ensures id == Last(values).id
    {
      var labels := [UntrustedDerived] + (if sensitive then [Sensitive] else []);
      id := MintValue(x, v, Ext, labels, [ResultRead(tool, path)], sensitive, false, []);
    }
  }

  // ---- arguments --------------------------------------------------------------------------------

  function Bound(x: Views, l: Ledger, tool: string, args: seq<Field>, p: Payload): map<string, string>
  {
    Bindings(args, Since(MintAll(x, l, Arguments(tool, args, p)), |l.values|))
  }

  lemma MintNext(x: Views, l: Ledger, ws: seq<Wanted>, w: Wanted)
    ensures MintAll(x, l, ws + [w]) == MintOne(x, MintAll(x, l, ws), w)
    ensures Since(MintAll(x, l, ws + [w]), |l.values|)
         == Since(MintAll(x, l, ws), |l.values|) + [Last(MintAll(x, l, ws + [w]).values).id]
  {
    assert Init(ws + [w]) == ws;
  }

  lemma BindNext(args: seq<Field>, arg: Field, ids: seq<string>, id: string)
    requires |ids| == |args|
    ensures Bindings(args + [arg], ids + [id]) == Bindings(args, ids)[arg.key := id]
  {
    assert Init(args + [arg]) == args && Init(ids + [id]) == ids;
  }

  lemma ArgumentNext(x: Views, l: Ledger, tool: string, args: seq<Field>, p: Payload, i: nat)
    requires i < |args|
    ensures var w := ArgumentAt(tool, args[i], p);
            var m := MintAll(x, l, Arguments(tool, args[..i + 1], p));
            && m == MintOne(x, MintAll(x, l, Arguments(tool, args[..i], p)), w)
            && Bound(x, l, tool, args[..i + 1], p) == Bound(x, l, tool, args[..i], p)[args[i].key := Last(m.values).id]
  {
    var w, ws := ArgumentAt(tool, args[i], p), Arguments(tool, args[..i], p);
    assert Arguments(tool, args[..i + 1], p) == ws + [w];
    MintNext(x, l, ws, w);
    BindNext(args[..i], args[i], Since(MintAll(x, l, ws), |l.values|), Last(MintAll(x, l, ws + [w]).values).id);
    assert args[..i + 1] == args[..i] + [args[i]];
  }

  method MintArguments(x: Views, book: Book, tool: string, args: seq<Field>, p: Payload) returns (bindings: map<string, string>)
    modifies book
    ensures book.Contents() == MintAll(x, old(book.Contents()), Arguments(tool, args, p))
    ensures bindings == Bound(x, old(book.Contents()), tool, args, p)
  {
    ghost var l := book.Contents();
    bindings := map[];
    for i := 0 to |args|
      invariant book.Contents() == MintAll(x, l, Arguments(tool, args[..i], p))
      invariant bindings == Bound(x, l, tool, args[..i], p)
    {
      ArgumentNext(x, l, tool, args, p, i);
      var id := book.MintArgument(x, tool, args[i].key, args[i].value, ProvenanceOf(p, args[i].key));
      bindings := bindings[args[i].key := id];
    }
    assert args[..|args|] == args;
  }

  // ---- results ----------------------------------------------------------------------------------

  lemma {:induction false} MintAllAppend(x: Views, l: Ledger, ws: seq<Wanted>, vs: seq<Wanted>)
    ensures MintAll(x, l, ws + vs) == MintAll(x, MintAll(x, l, ws), vs)
    decreases |vs|
  {
    if vs == [] {
      assert ws + vs == ws;
    } else {
      MintAllAppend(x, l, ws, Init(vs));
      assert Init(ws + vs) == ws + Init(vs);
    }
  }

  lemma ReadNext(x: Views, l: Ledger, tool: string, rs: seq<Read>, j: nat)
    requires j < |rs|
    ensures var m0, m1 := MintAll(x, l, Wants(tool, rs[..j])), MintAll(x, l, Wants(tool, rs[..j + 1]));
            && m1 == MintOne(x, m0, FromResult(tool, rs[j].path, rs[j].value, rs[j].sensitive))
            && Since(m1, |l.values|) == Since(m0, |l.values|) + [Last(m1.values).id]
  {
    var ws, w := Wants(tool, rs[..j]), FromResult(tool, rs[j].path, rs[j].value, rs[j].sensitive);
    assert Wants(tool, rs[..j + 1]) == ws + [w];
    MintNext(x, l, ws, w);
  }

  lemma AppendNext(x: Views, l: Ledger, ws: seq<Wanted>, vs: seq<Wanted>)
    ensures var m0, m1 := MintAll(x, l, ws), MintAll(x, l, ws + vs);
            m1 == MintAll(x, m0, vs) && Since(m1, |l.values|) == Since(m0, |l.values|) + Since(m1, |m0.values|)
  {
    MintAllAppend(x, l, ws, vs);
    SinceSplits(l, MintAll(x, l, ws), MintAll(x, MintAll(x, l, ws), vs));
  }

  lemma SinceSplits(l: Ledger, m0: Ledger, m1: Ledger)
    requires |l.values| <= |m0.values| && m0.values <= m1.values
    ensures Since(m1, |l.values|) == Since(m0, |l.values|) + Since(m1, |m0.values|)
  {}

  lemma ReadsNext(x: Views, l: Ledger, tool: string, before: seq<Read>, more: seq<Read>)
    ensures var m0, m1 := MintAll(x, l, Wants(tool, before)), MintAll(x, l, Wants(tool, before + more));
            && m1 == MintAll(x, m0, Wants(tool, more))
            && Since(m1, |l.values|) == Since(m0, |l.values|) + Since(m1, |m0.values|)
  {
    assert Wants(tool, before + more) == Wants(tool, before) + Wants(tool, more);
    AppendNext(x, l, Wants(tool, before), Wants(tool, more));
  }

  method MintReads(x: Views, book: Book, tool: string, rs: seq<Read>) returns (produced: seq<string>)
    modifies book
    ensures book.Contents() == MintAll(x, old(book.Contents()), Wants(tool, rs))
    ensures produced == Since(book.Contents(), |old(book.values)|)
  {
    ghost var l := book.Contents();
    produced := [];
    for j := 0 to |rs|
      invariant book.Contents() == MintAll(x, l, Wants(tool, rs[..j]))
      invariant produced == Since(MintAll(x, l, Wants(tool, rs[..j])), |l.values|)
    {
      ReadNext(x, l, tool, rs, j);
      var id := book.MintFieldRead(x, tool, rs[j].path, rs[j].value, rs[j].sensitive);
      produced := produced + [id];
    }
    assert rs[..|rs|] == rs;
  }

  method MintPattern(x: Views, book: Book, m: Manifest, tool: string, pattern: string, result: Value) returns (produced: seq<string>)
    modifies book
    ensures book.Contents() == MintAll(x, old(book.Contents()), Wants(tool, PatternReads(m, pattern, result)))
    ensures produced == Since(book.Contents(), |old(book.values)|)
  {
    produced := MintReads(x, book, tool, PatternReads(m, pattern, result));
  }

  lemma NextPattern(m: Manifest, patterns: seq<string>, i: nat, result: Value)
    requires i < |patterns|
    ensures UntrustedReads(m, patterns[..i + 1], result) == UntrustedReads(m, patterns[..i], result) + PatternReads(m, patterns[i], result)
  {
    assert Init(patterns[..i + 1]) == patterns[..i] && Last(patterns[..i + 1]) == patterns[i];
  }

  method MintUntrustedFields(x: Views, book: Book, m: Manifest, tool: string, result: Value) returns (produced: seq<string>)
    modifies book
    ensures book.Contents() == MintAll(x, old(book.Contents()), Wants(tool, UntrustedReads(m, m.untrustedFields, result)))
    ensures produced == Since(book.Contents(), |old(book.values)|)
  {
    ghost var l := book.Contents();
    ghost var found: seq<Read> := [];
    var patterns := m.untrustedFields;
    produced := [];
    for i := 0 to |patterns|
      invariant book.Contents() == MintAll(x, l, Wants(tool, found))
      invariant produced == Since(MintAll(x, l, Wants(tool, found)), |l.values|)
      invariant found == UntrustedReads(m, patterns[..i], result)
    {
      ReadsNext(x, l, tool, found, PatternReads(m, patterns[i], result));
      NextPattern(m, patterns, i, result);
      var more := MintPattern(x, book, m, tool, patterns[i], result);
      produced := produced + more;
      found := found + PatternReads(m, patterns[i], result);
    }
    assert patterns[..|patterns|] == patterns;
  }

  // ---- the document -----------------------------------------------------------------------------

  /** One turn of the loop: the call's items, or nothing when its decision cannot be written. */
  method AddCall(s: Setting, ms: seq<Manifest>, book: Book, c: nat, p: Pair, items: seq<Item>) returns (more: Option<seq<Item>>)
    requires s.offers == Declared(ms)
    modifies book
    ensures BuildCall(s, old(Built(book.Contents(), items)), c, p)
         == if more.None? then None else Some(Built(book.Contents(), more.value))
  {
    ghost var l := book.Contents();
    var bindings := MintArguments(s.views, book, ToolOf(p), ArgsOf(p), p.event.payload);
    assert bindings == BindingsOf(s.views, l, p);
    var decision := DecisionOf(s, p.event, bindings);
    if decision.None? {
      return None;
    }
    var n := |items|;
    var grown := items + [Intent(n, ToolOf(p), CallId(c), bindings), Gate(n + 1, CallId(c), decision.value)];
    if Executed(p) {
      var tool := ToolOf(p);
      var produced := MintUntrustedFields(s.views, book, ManifestOf(ms, tool), tool, p.call.value.result);
      grown := grown + [ResultOf(n + 2, tool, produced)];
    }
    ghost var l1 := MintAll(s.views, l, ArgumentsOf(p));
    assert grown == items + ItemsOf(p, c, n, bindings, decision.value, Since(book.Contents(), |l1.values|));
    more := Some(grown);
  }

  /** `build_trace`: the document's events and values, or why it cannot be built. */
  method BuildDocument(views: Views, gateOf: string -> string, ms: seq<Manifest>, enforced: bool,
                       calls: seq<RecordedCall>, events: seq<TraceEvent>, observes: Observes)
    returns (built: Result<Built, BuildError>)
    ensures built == BuildTrace(Setting(views, gateOf, Declared(ms), enforced), calls, events, observes)
  {
    var s := Setting(views, gateOf, Declared(ms), enforced);
    var paired := PairUp(calls, VerdictEvents(events), observes);
    if paired.Err? {
      return Err(NotPaired(paired.error));
    }
    var pairs := paired.value;
    var book := new Book();
    var items: seq<Item> := [];
    for c := 0 to |pairs|
      invariant TraceProofs.After(s, pairs, c) == Some(Built(book.Contents(), items))
    {
      TraceProofs.AfterNext(s, pairs, c);
      var more := AddCall(s, ms, book, c, pairs[c], items);
      if more.None? {
        NeverBuilt(s, pairs, c + 1);
        return Err(MissingCategory);
      }
      items := more.value;
    }
    TraceProofs.AfterAll(s, pairs);
    built := Ok(Built(Ledger(book.values, book.counter, book.untrustedIds), items));
  }

  lemma NeverBuilt(s: Setting, pairs: seq<Pair>, c: nat)
    requires c <= |pairs| && TraceProofs.After(s, pairs, c).None?
    ensures Build(s, pairs).None?
  {
    TraceProofs.AfterAll(s, pairs);
    if Build(s, pairs).Some? {
      TraceProofs.Grows(s, pairs, c, |pairs|);
    }
  }
}
