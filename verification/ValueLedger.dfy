/** The value ledger of a trace: every value minted once, with its labels, its redaction and its lineage. */
module ValueLedger {
  import opened Basics
  import opened Json
  import opened Decimals
  import opened KernelEvents
  import opened Fields

  datatype Hint = Const | Model | Ext

  function HintText(h: Hint): string
  {
    match h
    case Const => "const"
    case Model => "model"
    case Ext => "ext"
  }

  datatype Label = PromptGiven | UntrustedDerived | Sensitive

  datatype Source =
    | ArgumentGiven(tool: string, name: string)      // constant, arg:<tool>:<name>
    | Taint(source: string)                          // external_read, taint:<source>
    | ResultRead(tool: string, path: string)         // external_read, tool_result:<tool>:<path>

  /** `shown` and `preview` carry the content; a redacted value has neither. */
  datatype Minted = Minted(
    id: string,
    hash: string,
    labels: seq<Label>,
    sources: seq<Source>,
    shown: Option<Value>,
    preview: string,
    extracted: bool,                                 // transformations == ["model_extraction"]
    derivedFrom: seq<string>)

  const REDACTED := "[redacted]"

  /** Hashing and previewing of values, left open. */
  datatype Views = Views(hash: Value -> string, preview: Value -> string)

  datatype Ledger = Ledger(values: seq<Minted>, counter: nat, untrusted: seq<string>)

  const EMPTY := Ledger([], 0, [])

  function ValueId(h: Hint, n: nat): string
  {
    "v_" + HintText(h) + "_" + Decimal(n)
  }

  function Mint(x: Views, l: Ledger, v: Value, h: Hint, labels: seq<Label>, sources: seq<Source>, sensitive: bool,
                extracted: bool, derivedFrom: seq<string>): Ledger
  {
    var id := ValueId(h, l.counter + 1);
    var e := Minted(id, x.hash(v), labels, sources, if sensitive then None else Some(v),
                   if sensitive then REDACTED else x.preview(v), extracted, derivedFrom);
    Ledger(l.values + [e], l.counter + 1, if UntrustedDerived in labels then l.untrusted + [id] else l.untrusted)
  }

  function TaintSources(sources: seq<string>): seq<Source>
  {
    if sources == [] then [] else [Taint(sources[0])] + TaintSources(sources[1..])
  }

  /** A value to be minted: an argument with the kernel's own reading of it, or a field read from a result. */
  datatype Wanted =
    | Argument(tool: string, name: string, value: Value, provenance: ArgProvenance)
    | FromResult(tool: string, path: string, value: Value, sensitive: bool)

  function MintOne(x: Views, l: Ledger, w: Wanted): (m: Ledger)
    ensures m.values != [] && Init(m.values) == l.values
  {
    match w
    case Argument(tool, name, v, p) =>
      if p.sources == [] then Mint(x, l, v, Const, [PromptGiven], [ArgumentGiven(tool, name)], p.sensitive, false, [])
      else Mint(x, l, v, Model, [UntrustedDerived] + (if p.sensitive then [Sensitive] else []),
                TaintSources(p.sources), p.sensitive, true, l.untrusted)
    case FromResult(tool, path, v, sensitive) =>
      Mint(x, l, v, Ext, [UntrustedDerived] + (if sensitive then [Sensitive] else []), [ResultRead(tool, path)],
           sensitive, false, [])
  }

  function MintAll(x: Views, l: Ledger, ws: seq<Wanted>): (m: Ledger)
    ensures |m.values| == |l.values| + |ws| && l.values <= m.values
    decreases |ws|
  {
    if ws == [] then l else MintOne(x, MintAll(x, l, Init(ws)), Last(ws))
  }

  // ---- what every ledger keeps ------------------------------------------------------------------

  predicate Tainted(e: Minted)
  {
    UntrustedDerived in e.labels
  }

  function UntrustedIds(values: seq<Minted>): seq<string>
  {
    if values == [] then []
    else UntrustedIds(Init(values)) + (if Tainted(Last(values)) then [Last(values).id] else [])
  }

  predicate Numbered(e: Minted, n: nat)
  {
    e.id == ValueId(Const, n) || e.id == ValueId(Model, n) || e.id == ValueId(Ext, n)
  }

  function HintOf(e: Minted, n: nat): (h: Hint)
    requires Numbered(e, n)
    ensures e.id == ValueId(h, n)
  {
    if e.id == ValueId(Const, n) then Const else if e.id == ValueId(Model, n) then Model else Ext
  }

  /** What the model derived names exactly the tainted values before it; everything is numbered as it came. */
  predicate Grown(values: seq<Minted>)
  {
    values == [] ||
    (&& Grown(Init(values))
     && Numbered(Last(values), |values|)
     && Last(values).derivedFrom == if Last(values).extracted then UntrustedIds(Init(values)) else [])
  }

  predicate WellFormed(l: Ledger)
  {
    l.counter == |l.values| && l.untrusted == UntrustedIds(l.values) && Grown(l.values)
  }

  lemma {:induction false} GrownAt(values: seq<Minted>, i: nat)
    requires Grown(values) && i < |values|
    ensures Numbered(values[i], i + 1)
    ensures values[i].derivedFrom == if values[i].extracted then UntrustedIds(values[..i]) else []
  {
    assert Init(values) == values[..|values| - 1];
    if i < |values| - 1 {
      GrownAt(Init(values), i);
      assert Init(values)[..i] == values[..i];
    }
  }

  lemma MintKeepsWellFormed(x: Views, l: Ledger, v: Value, h: Hint, labels: seq<Label>, sources: seq<Source>, sensitive: bool,
                            extracted: bool, derivedFrom: seq<string>)
    requires WellFormed(l) && derivedFrom == if extracted then l.untrusted else []
    ensures WellFormed(Mint(x, l, v, h, labels, sources, sensitive, extracted, derivedFrom))
  {
    assert Init(Mint(x, l, v, h, labels, sources, sensitive, extracted, derivedFrom).values) == l.values;
  }

  predicate IsSensitiveWanted(w: Wanted)
  {
    if w.Argument? then w.provenance.sensitive else w.sensitive
  }

  /** Arguments are tainted where the kernel found taint; what is read from an untrusted field always is. */
  predicate IsTaintedWanted(w: Wanted)
  {
    w.Argument? ==> w.provenance.sources != []
  }

  /** The entry of a value: its hash always, its content only if it is not sensitive, its label as found. */
  predicate EntryFor(x: Views, e: Minted, w: Wanted)
  {
    && e.hash == x.hash(w.value)
    && e.shown == (if IsSensitiveWanted(w) then None else Some(w.value))
    && e.preview == (if IsSensitiveWanted(w) then REDACTED else x.preview(w.value))
    && (Tainted(e) <==> IsTaintedWanted(w))
    && (e.extracted <==> w.Argument? && IsTaintedWanted(w))
    && (Sensitive in e.labels <==> IsTaintedWanted(w) && IsSensitiveWanted(w))
    && (PromptGiven in e.labels <==> !IsTaintedWanted(w))
    && (w.FromResult? ==> e.sources == [ResultRead(w.tool, w.path)])
    && (w.Argument? && !IsTaintedWanted(w) ==> e.sources == [ArgumentGiven(w.tool, w.name)])
    && (w.Argument? && IsTaintedWanted(w) ==> Names(e.sources, w.provenance.sources))
  }

  /** One taint after the other. */
  predicate Names(sources: seq<Source>, taints: seq<string>)
  {
    |sources| == |taints| && forall i :: 0 <= i < |taints| ==> sources[i] == Taint(taints[i])
  }

  lemma {:induction false} TaintSourcesName(taints: seq<string>)
    ensures Names(TaintSources(taints), taints)
  {
    if taints != [] { TaintSourcesName(taints[1..]); }
  }

  /** The id of the `n`-th value tells how it came: read from outside, derived by the model, or given in the prompt. */
  predicate IdFor(e: Minted, w: Wanted, n: nat)
  {
    e.id == (if w.FromResult? then "v_ext_" else if w.provenance.sources != [] then "v_model_" else "v_const_") + Decimal(n)
  }

  lemma {:induction false} MintAllNumbers(x: Views, l: Ledger, ws: seq<Wanted>, i: nat)
    requires WellFormed(l) && i < |ws|
    ensures IdFor(MintAll(x, l, ws).values[|l.values| + i], ws[i], |l.values| + i + 1)
    decreases |ws|
  {
    var m := MintAll(x, l, Init(ws));
    MintAllKeepsWellFormed(x, l, Init(ws));
    if i < |ws| - 1 {
      MintAllNumbers(x, l, Init(ws), i);
      assert MintAll(x, l, ws).values[|l.values| + i] == Init(MintAll(x, l, ws).values)[|l.values| + i];
    } else {
      MintOneNumbers(x, m, Last(ws));
    }
  }

  lemma MintOneNumbers(x: Views, l: Ledger, w: Wanted)
    requires WellFormed(l)
    ensures IdFor(Last(MintOne(x, l, w).values), w, |l.values| + 1)
  {
    assert forall h :: ValueId(h, |l.values| + 1) == "v_" + HintText(h) + "_" + Decimal(|l.values| + 1);
    assert "v_" + "ext" + "_" == "v_ext_" && "v_" + "model" + "_" == "v_model_" && "v_" + "const" + "_" == "v_const_";
  }

  lemma MintOneFits(x: Views, l: Ledger, w: Wanted)
    requires WellFormed(l)
    ensures var m := MintOne(x, l, w);
            WellFormed(m) && EntryFor(x, Last(m.values), w)
  {
    match w
    case Argument(tool, name, v, p) =>
      if p.sources == [] {
        MintKeepsWellFormed(x, l, v, Const, [PromptGiven], [ArgumentGiven(tool, name)], p.sensitive, false, []);
      } else {
        TaintSourcesName(p.sources);
        MintKeepsWellFormed(x, l, v, Model, [UntrustedDerived] + (if p.sensitive then [Sensitive] else []),
                            TaintSources(p.sources), p.sensitive, true, l.untrusted);
      }
    case FromResult(tool, path, v, sensitive) =>
      MintKeepsWellFormed(x, l, v, Ext, [UntrustedDerived] + (if sensitive then [Sensitive] else []),
                          [ResultRead(tool, path)], sensitive, false, []);
  }

  lemma {:induction false} MintAllKeepsWellFormed(x: Views, l: Ledger, ws: seq<Wanted>)
    requires WellFormed(l)
    ensures WellFormed(MintAll(x, l, ws))
    decreases |ws|
  {
    if ws != [] {
      MintAllKeepsWellFormed(x, l, Init(ws));
      MintOneFits(x, MintAll(x, l, Init(ws)), Last(ws));
    }
  }

  /** The wanted values get their entries, in order, behind what was there. */
  lemma {:induction false} MintAllFits(x: Views, l: Ledger, ws: seq<Wanted>, i: nat)
    requires WellFormed(l) && i < |ws|
    ensures EntryFor(x, MintAll(x, l, ws).values[|l.values| + i], ws[i])
    decreases |ws|
  {
    var m := MintAll(x, l, Init(ws));
    MintAllKeepsWellFormed(x, l, Init(ws));
    MintOneFits(x, m, Last(ws));
    if i < |ws| - 1 {
      MintAllFits(x, l, Init(ws), i);
      assert MintAll(x, l, ws).values[|l.values| + i] == Init(MintAll(x, l, ws).values)[|l.values| + i];
    }
  }

  lemma {:induction false} UntrustedIdsMeaning(values: seq<Minted>, id: string)
    ensures id in UntrustedIds(values) <==> exists j :: 0 <= j < |values| && Tainted(values[j]) && values[j].id == id
  {
    if values != [] {
      UntrustedIdsMeaning(Init(values), id);
      assert forall j :: 0 <= j < |values| ==> values[j] == if j == |values| - 1 then Last(values) else Init(values)[j];
    }
  }

  // ---- ids --------------------------------------------------------------------------------------

  lemma ValueIdIsInjective(h: Hint, n: nat, g: Hint, m: nat)
    requires ValueId(h, n) == ValueId(g, m)
    ensures h == g && n == m
  {
    var a, b := ValueId(h, n), ValueId(g, m);
    assert a[2] == HintText(h)[0] && b[2] == HintText(g)[0];
    assert h == g;
    var prefix := "v_" + HintText(h) + "_";
    assert a == prefix + Decimal(n) && b == prefix + Decimal(m);
    assert a[|prefix|..] == Decimal(n) && b[|prefix|..] == Decimal(m);
    DecimalReadsBack(n);
    DecimalReadsBack(m);
  }

  /** No id is minted twice. */
  lemma IdsAreUnique(l: Ledger, i: nat, j: nat)
    requires WellFormed(l) && i < |l.values| && j < |l.values|
    ensures l.values[i].id == l.values[j].id ==> i == j
  {
    if l.values[i].id == l.values[j].id {
      GrownAt(l.values, i);
      GrownAt(l.values, j);
      ValueIdIsInjective(HintOf(l.values[i], i + 1), i + 1, HintOf(l.values[j], j + 1), j + 1);
    }
  }

  /**
    Lineage: a value derives from nothing minted at or after it, so the graph has no cycle; and what the
    model derived goes back to exactly the tainted values minted before it.
   */
  lemma LineageIsSound(l: Ledger, i: nat, j: nat)
    requires WellFormed(l) && i < |l.values| && j < |l.values|
    ensures l.values[j].id in l.values[i].derivedFrom <==> j < i && l.values[i].extracted && Tainted(l.values[j])
  {
    GrownAt(l.values, i);
    UntrustedIdsMeaning(l.values[..i], l.values[j].id);
    if l.values[j].id in l.values[i].derivedFrom {
      var k :| 0 <= k < i && Tainted(l.values[k]) && l.values[k].id == l.values[j].id;
      IdsAreUnique(l, k, j);
    } else if j < i {
      assert l.values[..i][j] == l.values[j];
    }
  }

  /** Every name in a lineage is a value of the ledger. */
  lemma LineageIsClosed(l: Ledger, i: nat, id: string)
    requires WellFormed(l) && i < |l.values| && id in l.values[i].derivedFrom
    ensures exists j :: 0 <= j < i && l.values[j].id == id
  {
    GrownAt(l.values, i);
    UntrustedIdsMeaning(l.values[..i], id);
  }
}
