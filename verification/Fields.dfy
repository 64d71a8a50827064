/** Untrusted-field patterns such as `transactions[].description`, and the values they find in a result. */
module Fields {
  import opened Basics
  import opened Json
  import opened Decimals

  // ---- paths ------------------------------------------------------------------------------------

  /** `path.partition(".")`: the text before the first dot, and after it. */
  function Head(path: string): (head: string)
    ensures '.' !in head
  {
    if path == [] || path[0] == '.' then [] else [path[0]] + Head(path[1..])
  }

  function Rest(path: string): (rest: string)
    ensures path != [] ==> |rest| < |path|
  {
    if path == [] then [] else if path[0] == '.' then path[1..] else Rest(path[1..])
  }

  predicate IsList(head: string)
  {
    |head| >= 2 && head[|head| - 2..] == "[]"
  }

  function ListKey(head: string): string
    requires IsList(head)
  {
    head[..|head| - 2]
  }

  /** One step into a result: a key, or an item of the list under a key. */
  datatype Step = Key(name: string) | Item(name: string, index: nat)

  function Label(s: Step): string
  {
    match s
    case Key(name) => name
    case Item(name, index) => name + "[" + Decimal(index) + "]"
  }

  /** The concrete path, as it is printed. */
  function Render(steps: seq<Step>): string
  {
    if steps == [] then ""
    else Label(steps[0]) + (if Render(steps[1..]) == "" then "" else "." + Render(steps[1..]))
  }

  datatype Match = Match(steps: seq<Step>, value: Value)

  function StripResult(path: string): string
  {
    if "result." <= path then path[|"result."|..] else path
  }

  /** The zeros of the decimal digits beyond ASCII (category Nd of Unicode 15.0); nine digits follow each. */
  function WideZeros(): string
  {
    "\U{660}\U{6F0}\U{7C0}\U{966}\U{9E6}\U{A66}\U{AE6}\U{B66}\U{BE6}\U{C66}\U{CE6}\U{D66}\U{DE6}\U{E50}"
    + "\U{ED0}\U{F20}\U{1040}\U{1090}\U{17E0}\U{1810}\U{1946}\U{19D0}\U{1A80}\U{1A90}\U{1B50}\U{1BB0}"
    + "\U{1C40}\U{1C50}\U{A620}\U{A8D0}\U{A900}\U{A9D0}\U{A9F0}\U{AA50}\U{ABF0}\U{FF10}\U{104A0}\U{10D30}"
    + "\U{11066}\U{110F0}\U{11136}\U{111D0}\U{112F0}\U{11450}\U{114D0}\U{11650}\U{116C0}\U{11730}\U{118E0}"
    + "\U{11950}\U{11C50}\U{11D50}\U{11DA0}\U{11F50}\U{16A60}\U{16AC0}\U{16B50}\U{1D7CE}\U{1D7D8}\U{1D7E2}"
    + "\U{1D7EC}\U{1D7F6}\U{1E140}\U{1E2F0}\U{1E4F0}\U{1E950}\U{1FBF0}"
  }

  predicate InTens(c: char, zeros: string)
  {
    zeros != [] && (zeros[0] as int <= c as int < zeros[0] as int + 10 || InTens(c, zeros[1..]))
  }

  /** `\d` */
  predicate IsAnyDigit(c: char)
  {
    IsDigit(c) || (c > '~' && InTens(c, WideZeros()))
  }

  function AfterDigits(s: string): (t: string)
    ensures |t| <= |s|
  {
    if s != [] && IsAnyDigit(s[0]) then AfterDigits(s[1..]) else s
  }

  predicate Closes(s: string)
  {
    AfterDigits(s) != [] && AfterDigits(s)[0] == ']'
  }

  /** The first piece of a substitution: an index, erased, or one character. */
  function Piece(s: string): string
    requires s != []
  {
    if s[0] == '[' && Closes(s[1..]) then "[]" else [s[0]]
  }

  function AfterPiece(s: string): (t: string)
    requires s != []
    ensures |t| < |s|
  {
    if s[0] == '[' && Closes(s[1..]) then AfterDigits(s[1..])[1..] else s[1..]
  }

  /** `re.sub(r"\[\d*\]", "[]", s)` */
  function Erase(s: string): string
    decreases |s|
  {
    if s == [] then [] else Piece(s) + Erase(AfterPiece(s))
  }

  function Normalize(path: string): string
  {
    Erase(StripResult(path))
  }

  // ---- expansion --------------------------------------------------------------------------------

  predicate Scalar(v: Value)
  {
    v.Str? || v.Int? || v.Float? || v.Infinity? || v.Bool?
  }

  /** A text, a number or a truth value is a scalar; nothing, a list or an object is none. */
  lemma ScalarsAre(v: Value)
    ensures Scalar(v) <==> v != Null && !v.Arr? && !v.Obj?
  {}

  function Under(s: Step, ms: seq<Match>): (r: seq<Match>)
    ensures |r| == |ms| && forall i :: 0 <= i < |ms| ==> r[i] == Match([s] + ms[i].steps, ms[i].value)
  {
    if ms == [] then [] else [Match([s] + ms[0].steps, ms[0].value)] + Under(s, ms[1..])
  }

  function ItemsAt(node: Value, key: string): seq<Value>
  {
    if node.Obj? && Get(node.fields, key).Some? && Get(node.fields, key).value.Arr?
    then Get(node.fields, key).value.items else []
  }

  /** The matches of a pattern. Below a plain key the loop returns at the first one. */
  function Expand(node: Value, path: string): seq<Match>
    decreases |path|, 0
  {
    if path == "" then if Scalar(node) then [Match([], node)] else []
    else if IsList(Head(path)) then ExpandItems(ItemsAt(node, ListKey(Head(path))), 0, ListKey(Head(path)), Rest(path))
    else if !node.Obj? || Get(node.fields, Head(path)).None? then []
    else
      var found := Expand(Get(node.fields, Head(path)).value, Rest(path));
      if found == [] then [] else Under(Key(Head(path)), [found[0]])
  }

  function ExpandItems(items: seq<Value>, i: nat, key: string, rest: string): seq<Match>
    decreases |rest|, 1, |items|
  {
    if items == [] then []
    else Under(Item(key, i), Expand(items[0], rest)) + ExpandItems(items[1..], i + 1, key, rest)
  }

  // ---- what a pattern means ---------------------------------------------------------------------

  /** The steps are an instance of the pattern. */
  predicate Fits(steps: seq<Step>, path: string)
    decreases |path|
  {
    if path == "" then steps == []
    else
      && steps != []
      && (if IsList(Head(path)) then steps[0].Item? && steps[0].name == ListKey(Head(path))
          else steps[0] == Key(Head(path)))
      && Fits(steps[1..], Rest(path))
  }

  /** The value at the end of the steps. */
  function At(node: Value, steps: seq<Step>): Option<Value>
    decreases |steps|
  {
    if steps == [] then Some(node)
    else match steps[0]
      case Key(name) =>
        if node.Obj? && Get(node.fields, name).Some? then At(Get(node.fields, name).value, steps[1..]) else None
      case Item(name, index) =>
        if index < |ItemsAt(node, name)| then At(ItemsAt(node, name)[index], steps[1..]) else None
  }

  predicate Matches(node: Value, path: string, m: Match)
  {
    Fits(m.steps, path) && At(node, m.steps) == Some(m.value) && Scalar(m.value)
  }

  lemma {:induction false} ExpandIsSound(node: Value, path: string, m: Match)
    requires m in Expand(node, path)
    ensures Fits(m.steps, path) && At(node, m.steps) == Some(m.value) && Scalar(m.value)
    decreases |path|, 0
  {
    if path != "" {
      var head, rest := Head(path), Rest(path);
      if IsList(head) {
        ItemsAreSound(ItemsAt(node, ListKey(head)), 0, ListKey(head), rest, m);
      } else {
        var child := Get(node.fields, head).value;
        var found := Expand(child, rest);
        assert m == Match([Key(head)] + found[0].steps, found[0].value);
        ExpandIsSound(child, rest, found[0]);
        assert m.steps[1..] == found[0].steps;
      }
    }
  }

  lemma {:induction false} ItemsAreSound(items: seq<Value>, i: nat, key: string, rest: string, m: Match)
    requires m in ExpandItems(items, i, key, rest)
    ensures m.steps != [] && m.steps[0].Item? && m.steps[0].name == key && i <= m.steps[0].index < i + |items|
    ensures Fits(m.steps[1..], rest) && At(items[m.steps[0].index - i], m.steps[1..]) == Some(m.value) && Scalar(m.value)
    decreases |rest|, 1, |items|
  {
    if m in Under(Item(key, i), Expand(items[0], rest)) {
      UnderTail(Item(key, i), Expand(items[0], rest), m);
      ExpandIsSound(items[0], rest, Match(m.steps[1..], m.value));
    } else {
      ItemsAreSound(items[1..], i + 1, key, rest, m);
    }
  }

  lemma UnderTail(s: Step, ms: seq<Match>, m: Match)
    ensures m in Under(s, ms) ==> m.steps != [] && m.steps[0] == s && Match(m.steps[1..], m.value) in ms
  {
    if m in Under(s, ms) {
      var j :| 0 <= j < |ms| && Under(s, ms)[j] == m;
      assert m.steps[1..] == ms[j].steps;
    }
  }

  // ---- distinct paths ---------------------------------------------------------------------------

  function Tail(steps: seq<Step>): string
    requires steps != []
  {
    if Render(steps[1..]) == "" then "" else "." + Render(steps[1..])
  }

  lemma LabelsAgree(a: Step, b: Step, ta: string, tb: string)
    requires a.name == b.name && a.Item? == b.Item?
    requires Label(a) + ta == Label(b) + tb
    ensures a == b && ta == tb
  {
    if a.Item? {
      var prefix, da, db := a.name + "[", Decimal(a.index), Decimal(b.index);
      assert Label(a) + ta == prefix + (da + ("]" + ta));
      assert Label(b) + tb == prefix + (db + ("]" + tb));
      SameRemainder(prefix, da + ("]" + ta), db + ("]" + tb));
      NumeralsAgree(da, "]" + ta, db, "]" + tb);
      SameRemainder("]", ta, tb);
      DecimalReadsBack(a.index);
      DecimalReadsBack(b.index);
    } else {
      SameRemainder(a.name, ta, tb);
    }
  }

  lemma SameRemainder(prefix: string, s: string, t: string)
    requires prefix + s == prefix + t
    ensures s == t
  {
    assert s == (prefix + s)[|prefix|..] && t == (prefix + t)[|prefix|..];
  }

  /** Instances of one pattern that print alike are the same. */
  lemma {:induction false} RenderIsInjective(path: string, a: seq<Step>, b: seq<Step>)
    requires Fits(a, path) && Fits(b, path) && Render(a) == Render(b)
    ensures a == b
    decreases |path|
  {
    if path != "" {
      SameLabels(path, a, b);
      LabelsAgree(a[0], b[0], Tail(a), Tail(b));
      TailsAgree(a, b);
      RenderIsInjective(Rest(path), a[1..], b[1..]);
      assert a == [a[0]] + a[1..] && b == [b[0]] + b[1..];
    }
  }

  lemma SameLabels(path: string, a: seq<Step>, b: seq<Step>)
    requires path != "" && Fits(a, path) && Fits(b, path)
    ensures a != [] && b != [] && a[0].name == b[0].name && a[0].Item? == b[0].Item?
  {}

  lemma TailsAgree(a: seq<Step>, b: seq<Step>)
    requires a != [] && b != [] && Tail(a) == Tail(b)
    ensures Render(a[1..]) == Render(b[1..])
  {
    if Tail(a) != "" {
      SameRemainder(".", Render(a[1..]), Render(b[1..]));
    }
  }

  ghost predicate Distinct(ms: seq<Match>)
  {
    forall i, j :: 0 <= i < j < |ms| ==> ms[i].steps != ms[j].steps
  }

  lemma {:induction false} ExpandIsDistinct(node: Value, path: string)
    ensures Distinct(Expand(node, path))
    decreases |path|, 0
  {
    if path != "" && IsList(Head(path)) {
      ItemsAreDistinct(ItemsAt(node, ListKey(Head(path))), 0, ListKey(Head(path)), Rest(path));
    }
  }

  lemma {:induction false} ItemsAreDistinct(items: seq<Value>, i: nat, key: string, rest: string)
    ensures Distinct(ExpandItems(items, i, key, rest))
    decreases |rest|, 1, |items|
  {
    if items != [] {
      var found := Expand(items[0], rest);
      var here, there := Under(Item(key, i), found), ExpandItems(items[1..], i + 1, key, rest);
      ExpandIsDistinct(items[0], rest);
      ItemsAreDistinct(items[1..], i + 1, key, rest);
      forall p, q | 0 <= p < q < |here| ensures here[p].steps != here[q].steps {
        assert here[p].steps[1..] == found[p].steps && here[q].steps[1..] == found[q].steps;
      }
      forall p, q | 0 <= p < |here| && 0 <= q < |there| ensures here[p].steps != there[q].steps {
        assert there[q] in there;
        ItemsAreSound(items[1..], i + 1, key, rest, there[q]);
      }
    }
  }

  /** No two matches of one expansion print the same path. */
  lemma PathsAreDistinct(node: Value, path: string)
    ensures forall i, j :: 0 <= i < j < |Expand(node, path)| ==>
              Render(Expand(node, path)[i].steps) != Render(Expand(node, path)[j].steps)
  {
    var ms := Expand(node, path);
    ExpandIsDistinct(node, path);
    forall i, j | 0 <= i < j < |ms| ensures Render(ms[i].steps) != Render(ms[j].steps) {
      ExpandIsSound(node, path, ms[i]);
      ExpandIsSound(node, path, ms[j]);
      if Render(ms[i].steps) == Render(ms[j].steps) {
        RenderIsInjective(path, ms[i].steps, ms[j].steps);
      }
    }
  }

  // ---- erasing the indices gives back the pattern -----------------------------------------------

  lemma {:induction false} AfterDigitsAppend(s: string, t: string)
    requires t == [] || !IsAnyDigit(t[0])
    ensures AfterDigits(s + t) == AfterDigits(s) + t
  {
    if s == [] {
      assert s + t == t;
    } else {
      assert (s + t)[1..] == s[1..] + t;
      if IsAnyDigit(s[0]) { AfterDigitsAppend(s[1..], t); }
    }
  }

  lemma PieceAppend(s: string, t: string)
    requires s != [] && (t == [] || (!IsAnyDigit(t[0]) && t[0] != ']'))
    ensures Piece(s + t) == Piece(s) && AfterPiece(s + t) == AfterPiece(s) + t
  {
    assert (s + t)[0] == s[0] && (s + t)[1..] == s[1..] + t;
    AfterDigitsAppend(s[1..], t);
    var u := AfterDigits(s[1..]);
    assert u != [] ==> (u + t)[1..] == u[1..] + t;
  }

  /** Erasing works piece by piece, where the second text cannot finish an index begun in the first. */
  lemma {:induction false} EraseAppend(s: string, t: string)
    requires t == [] || (!IsAnyDigit(t[0]) && t[0] != ']')
    ensures Erase(s + t) == Erase(s) + Erase(t)
    decreases |s|
  {
    if s == [] {
      assert s + t == t;
    } else {
      PieceAppend(s, t);
      EraseAppend(AfterPiece(s), t);
    }
  }

  lemma EraseIndex(s: string, digits: string)
    requires s != [] && s[0] == '[' && s[1..] == digits + [']']
    requires forall i :: 0 <= i < |digits| ==> IsDigit(digits[i])
    ensures Erase(s) == "[]"
  {
    AllDigits(digits);
    AfterDigitsAppend(digits, [']']);
    assert AfterDigits(s[1..]) == [']'];
    assert AfterPiece(s) == [];
  }

  lemma {:induction false} AllDigits(s: string)
    requires forall i :: 0 <= i < |s| ==> IsDigit(s[i])
    ensures AfterDigits(s) == []
  {
    if s != [] { AllDigits(s[1..]); }
  }

  lemma EraseIndexed(name: string, digits: string)
    requires forall i :: 0 <= i < |digits| ==> IsDigit(digits[i])
    ensures Erase(name + (['['] + digits + [']'])) == Erase(name) + "[]"
  {
    var index := ['['] + digits + [']'];
    assert index[1..] == digits + [']'];
    EraseAppend(name, index);
    EraseIndex(index, digits);
  }

  lemma EraseLabel(s: Step)
    ensures Erase(Label(s)) == Erase(if s.Item? then s.name + "[]" else s.name)
  {
    if s.Item? {
      assert Label(s) == s.name + (['['] + Decimal(s.index) + [']']);
      EraseIndexed(s.name, Decimal(s.index));
      assert s.name + "[]" == s.name + (['['] + [] + [']']);
      EraseIndexed(s.name, []);
    }
  }

  lemma EraseDot(s: string)
    ensures Erase("." + s) == "." + Erase(s)
  {
    assert ("." + s)[1..] == s;
  }

  function TrimDots(s: string): string
  {
    if s != [] && Last(s) == '.' then TrimDots(Init(s)) else s
  }

  lemma {:induction false} HeadAndRest(path: string)
    ensures path == Head(path) || path == Head(path) + "." + Rest(path)
    ensures path == Head(path) ==> Rest(path) == ""
  {
    if path != [] && path[0] != '.' {
      HeadAndRest(path[1..]);
      assert path == [path[0]] + path[1..];
    }
  }

  lemma {:induction false} TrimAppend(s: string, t: string)
    ensures TrimDots(s + t) == if TrimDots(t) == "" then TrimDots(s) else s + TrimDots(t)
  {
    if t == [] {
      assert s + t == s;
    } else {
      assert Last(s + t) == Last(t) && Init(s + t) == s + Init(t);
      if Last(t) == '.' { TrimAppend(s, Init(t)); }
    }
  }

  /** The pattern without trailing dots is its head, then its rest. */
  lemma TrimmedPath(path: string)
    requires path != ""
    ensures TrimDots(path) == Head(path) + (if TrimDots(Rest(path)) == "" then "" else "." + TrimDots(Rest(path)))
  {
    HeadAndRest(path);
    var head, rest := Head(path), Rest(path);
    assert head != [] ==> Last(head) in head;
    assert TrimDots(head) == head;
    if path != head {
      assert path == head + ("." + rest);
      TrimAppend(".", rest);
      TrimAppend(head, "." + rest);
      assert Init(".") == [] && TrimDots(".") == TrimDots([]);
      assert head + [] == head;
    } else {
      assert TrimDots(rest) == "" && head + "" == head;
    }
  }

  lemma EraseBehindDot(a: string, b: string, s: string, t: string)
    requires Erase(a) == Erase(b) && Erase(s) == Erase(t)
    ensures Erase(a + ("." + s)) == Erase(b + ("." + t))
  {
    EraseAppend(a, "." + s);
    EraseAppend(b, "." + t);
    EraseDot(s);
    EraseDot(t);
  }

  lemma EraseHead(steps: seq<Step>, path: string)
    requires path != "" && Fits(steps, path)
    ensures steps != [] && Erase(Label(steps[0])) == Erase(Head(path)) && (Label(steps[0]) == "" <==> Head(path) == "")
  {
    EraseLabel(steps[0]);
    assert IsList(Head(path)) ==> ListKey(Head(path)) + "[]" == Head(path);
    assert steps[0].Item? ==> |Label(steps[0])| >= 2;
  }

  lemma RenderFirst(steps: seq<Step>)
    requires steps != []
    ensures Render(steps) == if Render(steps[1..]) == "" then Label(steps[0]) else Label(steps[0]) + ("." + Render(steps[1..]))
  {
    assert Label(steps[0]) + "" == Label(steps[0]);
  }

  /** A printed path with its indices erased is the pattern with its indices erased, up to trailing dots. */
  lemma {:induction false} ErasingGivesThePattern(steps: seq<Step>, path: string)
    requires Fits(steps, path)
    ensures Erase(Render(steps)) == Erase(TrimDots(path))
    ensures Render(steps) == "" <==> TrimDots(path) == ""
    decreases |path|
  {
    if path != "" {
      var head, rest := Head(path), TrimDots(Rest(path));
      EraseHead(steps, path);
      ErasingGivesThePattern(steps[1..], Rest(path));
      TrimmedPath(path);
      RenderFirst(steps);
      if rest != "" {
        EraseBehindDot(Label(steps[0]), head, Render(steps[1..]), rest);
      } else {
        assert head + "" == head;
      }
    }
  }
}
