/** What a trace shows of fields and arguments, told by the manifests' own patterns and the kernel's own findings. */
module TraceMeaning {
  import opened Basics
  import opened Json
  import opened Decimals
  import opened KernelEvents
  import opened Toolset
  import opened Fields
  import opened Pairing
  import opened ValueLedger
  import opened Trace
  import opened TraceProofs

  // ---- patterns that name the same place --------------------------------------------------------

  /** A pattern taken apart: letters as they are, and indices `[digits]`. */
  datatype Part = Letter(c: char) | Index(digits: string)

  function WrittenPart(p: Part): string
  {
    match p
    case Letter(c) => [c]
    case Index(digits) => "[" + digits + "]"
  }

  function Written(parts: seq<Part>): string
  {
    if parts == [] then "" else WrittenPart(parts[0]) + Written(parts[1..])
  }

  predicate Proper(p: Part)
  {
    p.Index? ==> forall i :: 0 <= i < |p.digits| ==> IsAnyDigit(p.digits[i])
  }

  /** The same letter, or an index each. */
  predicate AlikePart(p: Part, q: Part)
  {
    Proper(p) && Proper(q) && (p == q || (p.Index? && q.Index?))
  }

  predicate AlikeParts(a: seq<Part>, b: seq<Part>)
  {
    |a| == |b| && forall i :: 0 <= i < |a| ==> AlikePart(a[i], b[i])
  }

  /** The texts are the same except for the digits of their indices. */
  ghost predicate SameUpToIndices(s: string, t: string)
  {
    exists a, b :: AlikeParts(a, b) && s == Written(a) && t == Written(b)
  }

  /** The pattern without its leading `result.`. */
  predicate Bare(pattern: string, bare: string)
  {
    pattern == "result." + bare || (pattern == bare && !("result." <= pattern))
  }

  ghost predicate SamePlace(p: string, q: string)
  {
    exists u, v :: Bare(p, u) && Bare(q, v) && SameUpToIndices(u, v)
  }

  lemma {:induction false} DigitsEnd(digits: string, rest: string)
    requires forall i :: 0 <= i < |digits| ==> IsAnyDigit(digits[i])
    ensures AfterDigits(digits + ("]" + rest)) == "]" + rest
  {
    if digits == [] {
      assert digits + ("]" + rest) == "]" + rest;
    } else {
      assert (digits + ("]" + rest))[1..] == digits[1..] + ("]" + rest);
      DigitsEnd(digits[1..], rest);
    }
  }

  lemma EraseIndexInFront(digits: string, rest: string)
    requires forall i :: 0 <= i < |digits| ==> IsAnyDigit(digits[i])
    ensures Erase("[" + digits + "]" + rest) == "[]" + Erase(rest)
  {
    var s := "[" + digits + "]" + rest;
    assert s[1..] == digits + ("]" + rest);
    DigitsEnd(digits, rest);
    assert ("]" + rest)[1..] == rest;
  }

  function Letters(s: string): (parts: seq<Part>)
    ensures |parts| == |s| && forall i :: 0 <= i < |s| ==> parts[i] == Letter(s[i])
  {
    seq(|s|, i requires 0 <= i < |s| => Letter(s[i]))
  }

  /** The parts begin with the letters of `u`, and go on with an index if at all. */
  predicate BeginsWith(a: seq<Part>, u: string)
  {
    && |u| <= |a| && a[..|u|] == Letters(u) && (|u| < |a| ==> a[|u|].Index?)
    && Written(a) == u + Written(a[|u|..])
  }

  lemma OneMoreLetter(a: seq<Part>, v: string)
    requires a != [] && a[0].Letter? && BeginsWith(a[1..], v)
    ensures BeginsWith(a, [a[0].c] + v)
  {
    var c, u, rest := [a[0].c], [a[0].c] + v, a[1..];
    assert a == [a[0]] + rest;
    assert a[|u|..] == rest[|v|..];
    assert Letters(u) == [a[0]] + Letters(v);
    Associate(c, v, Written(rest[|v|..]));
  }

  lemma NoLetter(a: seq<Part>)
    requires a == [] || a[0].Index?
    ensures BeginsWith(a, "")
  {
    assert a[0..] == a && "" + Written(a) == Written(a);
  }

  /** The letters both begin with, up to the first index. */
  lemma {:induction false} LeadingLetters(a: seq<Part>, b: seq<Part>) returns (u: string)
    requires AlikeParts(a, b)
    ensures BeginsWith(a, u) && BeginsWith(b, u)
  {
    u := "";
    if a == [] || a[0].Index? {
      NoLetter(a);
      NoLetter(b);
    } else {
      u := LeadingLetters(a[1..], b[1..]);
      OneMoreLetter(a, u);
      OneMoreLetter(b, u);
      u := [a[0].c] + u;
    }
  }

  lemma {:induction false} AlikeErase(a: seq<Part>, b: seq<Part>)
    requires AlikeParts(a, b)
    ensures Erase(Written(a)) == Erase(Written(b))
    decreases |a|
  {
    var u := LeadingLetters(a, b);
    var k := |u|;
    if k < |a| {
      AlikeErase(a[k + 1..], b[k + 1..]);
      IndexedErase(a[k].digits, a[k..]);
      IndexedErase(b[k].digits, b[k..]);
      EraseAppend(u, Written(a[k..]));
      EraseAppend(u, Written(b[k..]));
    } else {
      assert a[k..] == [] && b[k..] == [];
    }
  }

  lemma IndexedErase(digits: string, parts: seq<Part>)
    requires parts != [] && parts[0] == Index(digits) && Proper(parts[0])
    ensures Written(parts) != "" && Written(parts)[0] == '['
    ensures !IsAnyDigit('[') && Erase(Written(parts)) == "[]" + Erase(Written(parts[1..]))
  {
    EraseIndexInFront(digits, Written(parts[1..]));
  }

  lemma EraseFirst(s: string)
    ensures (Erase(s) == "") == (s == "")
    ensures s != "" ==> Erase(s)[0] == s[0]
  {}

  /** Where the erased texts agree, both begin with an index or both with the same letter. */
  lemma SamePieces(s: string, t: string)
    requires s != "" && t != "" && Erase(s) == Erase(t)
    ensures Piece(s) == Piece(t) && Erase(AfterPiece(s)) == Erase(AfterPiece(t))
    ensures |Piece(s)| == 2 <==> s[0] == '[' && Closes(s[1..])
    ensures |Piece(t)| == 2 <==> t[0] == '[' && Closes(t[1..])
  {
    EraseFirst(s);
    EraseFirst(t);
    if |Piece(s)| != |Piece(t)| {
      var letter := if |Piece(s)| == 1 then s else t;
      assert letter[0] == '[' && Erase(letter) == "[" + Erase(letter[1..]) && Erase(letter)[1] == ']';
      EraseFirst(letter[1..]);
    }
    assert Erase(s)[|Piece(s)|..] == Erase(AfterPiece(s)) && Erase(t)[|Piece(t)|..] == Erase(AfterPiece(t));
  }

  lemma {:induction false} DigitsBefore(s: string) returns (digits: string)
    ensures s == digits + AfterDigits(s) && forall i :: 0 <= i < |digits| ==> IsAnyDigit(digits[i])
  {
    digits := "";
    if s != [] && IsAnyDigit(s[0]) {
      var more := DigitsBefore(s[1..]);
      digits := [s[0]] + more;
      Associate([s[0]], more, AfterDigits(s));
    }
  }

  lemma FirstIndex(s: string) returns (digits: string)
    requires s != "" && s[0] == '[' && Closes(s[1..])
    ensures Proper(Index(digits)) && s == "[" + digits + "]" + AfterPiece(s)
  {
    var tail := s[1..];
    digits := DigitsBefore(tail);
    var rest := AfterDigits(tail);
    assert rest == "]" + rest[1..] && AfterPiece(s) == rest[1..];
    assert s == "[" + (digits + ("]" + AfterPiece(s)));
    Associate("[", digits, "]" + AfterPiece(s));
    Associate("[" + digits, "]", AfterPiece(s));
  }

  lemma FirstPart(s: string) returns (p: Part)
    requires s != ""
    ensures Proper(p) && s == WrittenPart(p) + AfterPiece(s)
    ensures if s[0] == '[' && Closes(s[1..]) then p.Index? else p == Letter(s[0])
  {
    if s[0] == '[' && Closes(s[1..]) {
      var digits := FirstIndex(s);
      p := Index(digits);
    } else {
      p := Letter(s[0]);
    }
  }

  lemma {:induction false} ErasedAlike(s: string, t: string) returns (a: seq<Part>, b: seq<Part>)
    requires Erase(s) == Erase(t)
    ensures AlikeParts(a, b) && s == Written(a) && t == Written(b)
    decreases |s|
  {
    EraseFirst(s);
    EraseFirst(t);
    a, b := [], [];
    if s != "" {
      SamePieces(s, t);
      var p := FirstPart(s);
      var q := FirstPart(t);
      a, b := ErasedAlike(AfterPiece(s), AfterPiece(t));
      a, b := [p] + a, [q] + b;
    }
  }

  lemma SameErasureIff(s: string, t: string)
    ensures Erase(s) == Erase(t) <==> SameUpToIndices(s, t)
  {
    if Erase(s) == Erase(t) {
      var a, b := ErasedAlike(s, t);
    }
    if SameUpToIndices(s, t) {
      var a, b :| AlikeParts(a, b) && s == Written(a) && t == Written(b);
      AlikeErase(a, b);
    }
  }

  lemma BareIsStripped(pattern: string, bare: string)
    ensures Bare(pattern, bare) <==> bare == StripResult(pattern)
  {
    if "result." <= pattern {
      assert pattern == "result." + pattern[|"result."|..];
    }
    assert ("result." + bare)[|"result."|..] == bare;
  }

  /** Two patterns are taken for each other exactly when they differ in a leading `result.` and in indices only. */
  lemma SamePlaceIff(p: string, q: string)
    ensures Normalize(p) == Normalize(q) <==> SamePlace(p, q)
  {
    SameErasureIff(StripResult(p), StripResult(q));
    BareIsStripped(p, StripResult(p));
    BareIsStripped(q, StripResult(q));
    if SamePlace(p, q) {
      var u, v :| Bare(p, u) && Bare(q, v) && SameUpToIndices(u, v);
      BareIsStripped(p, u);
      BareIsStripped(q, v);
    }
  }

  // ---- what a manifest declares -----------------------------------------------------------------

  /** The last manifest with the tool's id is the one that speaks for it. */
  predicate Speaks(ms: seq<Manifest>, tool: string, m: Manifest)
  {
    m.id == tool && exists k :: 0 <= k < |ms| && ms[k] == m && forall j :: k < j < |ms| ==> ms[j].id != tool
  }

  ghost predicate DeclaredSensitive(m: Manifest, pattern: string)
  {
    exists j :: 0 <= j < |m.sensitiveFields| && SamePlace(m.sensitiveFields[j], pattern)
  }

  /** The pattern expands to that value at that path. */
  ghost predicate Expands(result: Value, pattern: string, path: string, value: Value)
  {
    exists bare, n :: Bare(pattern, bare) && n in Expand(result, bare) && path == Render(n.steps) && value == n.value
  }

  ghost predicate Offers(m: Manifest, result: Value, r: Read)
  {
    exists i :: 0 <= i < |m.untrustedFields| && Expands(result, m.untrustedFields[i], r.path, r.value)
                && (r.sensitive <==> DeclaredSensitive(m, m.untrustedFields[i]))
  }

  ghost predicate DeclaredFor(ms: seq<Manifest>, tool: string, result: Value, r: Read)
  {
    exists m :: Speaks(ms, tool, m) && Offers(m, result, r)
  }

  lemma {:induction false} TheLastSpeaks(ms: seq<Manifest>, tool: string)
    ensures var m := ManifestOf(ms, tool);
            if exists k :: 0 <= k < |ms| && ms[k].id == tool then Speaks(ms, tool, m) else m == Manifest(tool, [], [])
    ensures forall m :: Speaks(ms, tool, m) ==> m == ManifestOf(ms, tool)
  {
    if ms != [] {
      TheLastSpeaks(Init(ms), tool);
      if Last(ms).id == tool {
        assert ms[|ms| - 1] == Last(ms);
      } else {
        SpeaksBefore(ms, tool);
        assert forall k :: 0 <= k < |ms| - 1 ==> ms[k] == Init(ms)[k];
      }
    }
  }

  lemma SpeaksBefore(ms: seq<Manifest>, tool: string)
    requires ms != [] && Last(ms).id != tool
    ensures forall m :: Speaks(ms, tool, m) <==> Speaks(Init(ms), tool, m)
  {
    forall m ensures Speaks(ms, tool, m) <==> Speaks(Init(ms), tool, m) {
      if Speaks(ms, tool, m) { SpeaksWithoutLast(ms, tool, m); }
      if Speaks(Init(ms), tool, m) { SpeaksWithLast(ms, tool, m); }
    }
  }

  lemma SpeaksWithoutLast(ms: seq<Manifest>, tool: string, m: Manifest)
    requires ms != [] && Last(ms).id != tool && Speaks(ms, tool, m)
    ensures Speaks(Init(ms), tool, m)
  {
    var k :| 0 <= k < |ms| && ms[k] == m && m.id == tool && forall j :: k < j < |ms| ==> ms[j].id != tool;
    assert Init(ms)[k] == m;
  }

  lemma SpeaksWithLast(ms: seq<Manifest>, tool: string, m: Manifest)
    requires ms != [] && Last(ms).id != tool && Speaks(Init(ms), tool, m)
    ensures Speaks(ms, tool, m)
  {
    var k :| 0 <= k < |Init(ms)| && Init(ms)[k] == m && forall j :: k < j < |Init(ms)| ==> Init(ms)[j].id != tool;
    assert ms[k] == m;
    forall j | k < j < |ms| ensures ms[j].id != tool {
      assert ms[j] == if j == |ms| - 1 then Last(ms) else Init(ms)[j];
    }
  }

  lemma SensitiveIff(m: Manifest, pattern: string)
    ensures IsSensitive(m, pattern) <==> DeclaredSensitive(m, pattern)
  {
    forall i | 0 <= i < |m.sensitiveFields|
      ensures Normalize(m.sensitiveFields[i]) == Normalize(pattern) <==> SamePlace(m.sensitiveFields[i], pattern)
    {
      SamePlaceIff(m.sensitiveFields[i], pattern);
    }
  }

  lemma ExpandsIff(result: Value, pattern: string, path: string, value: Value)
    ensures Expands(result, pattern, path, value)
       <==> exists n :: n in Expand(result, StripResult(pattern)) && path == Render(n.steps) && value == n.value
  {
    var bare := StripResult(pattern);
    BareIsStripped(pattern, bare);
    if Expands(result, pattern, path, value) {
      var u, n :| Bare(pattern, u) && n in Expand(result, u) && path == Render(n.steps) && value == n.value;
      BareIsStripped(pattern, u);
    }
  }

  lemma FieldReadsIff(found: seq<Match>, sensitive: bool, r: Read)
    ensures r in FieldReads(found, sensitive)
       <==> r.sensitive == sensitive && exists n :: n in found && r.path == Render(n.steps) && r.value == n.value
  {
    var rs := FieldReads(found, sensitive);
    if r in rs {
      var i :| 0 <= i < |rs| && rs[i] == r;
      assert found[i] in found;
    }
    if r.sensitive == sensitive && exists n :: n in found && r.path == Render(n.steps) && r.value == n.value {
      var n :| n in found && r.path == Render(n.steps) && r.value == n.value;
      var i :| 0 <= i < |found| && found[i] == n;
      assert rs[i] == r;
    }
  }

  lemma PatternReadsIff(m: Manifest, pattern: string, result: Value, r: Read)
    ensures r in PatternReads(m, pattern, result)
       <==> Expands(result, pattern, r.path, r.value) && (r.sensitive <==> DeclaredSensitive(m, pattern))
  {
    FieldReadsIff(Expand(result, StripResult(pattern)), IsSensitive(m, pattern), r);
    ExpandsIff(result, pattern, r.path, r.value);
    SensitiveIff(m, pattern);
  }

  ghost predicate ReadUnder(m: Manifest, patterns: seq<string>, result: Value, r: Read)
  {
    exists i :: 0 <= i < |patterns| && r in PatternReads(m, patterns[i], result)
  }

  lemma ReadUnderLast(m: Manifest, patterns: seq<string>, result: Value, r: Read)
    requires patterns != []
    ensures ReadUnder(m, patterns, result, r)
       <==> ReadUnder(m, Init(patterns), result, r) || r in PatternReads(m, Last(patterns), result)
  {
    if ReadUnder(m, patterns, result, r) {
      var i :| 0 <= i < |patterns| && r in PatternReads(m, patterns[i], result);
      if i < |patterns| - 1 { assert Init(patterns)[i] == patterns[i]; }
    }
    if ReadUnder(m, Init(patterns), result, r) {
      var i :| 0 <= i < |Init(patterns)| && r in PatternReads(m, Init(patterns)[i], result);
      assert patterns[i] == Init(patterns)[i];
    }
    if r in PatternReads(m, Last(patterns), result) { assert patterns[|patterns| - 1] == Last(patterns); }
  }

  lemma LastReads(m: Manifest, patterns: seq<string>, result: Value)
    requires patterns != []
    ensures UntrustedReads(m, patterns, result) == UntrustedReads(m, Init(patterns), result) + PatternReads(m, Last(patterns), result)
  {}

  lemma {:induction false} UntrustedReadsIff(m: Manifest, patterns: seq<string>, result: Value, r: Read)
    ensures r in UntrustedReads(m, patterns, result) <==> ReadUnder(m, patterns, result, r)
    decreases |patterns|
  {
    if patterns != [] {
      UntrustedReadsIff(m, Init(patterns), result, r);
      ReadUnderLast(m, patterns, result, r);
      LastReads(m, patterns, result);
    }
  }

  lemma OffersIff(m: Manifest, result: Value, r: Read)
    ensures r in UntrustedReads(m, m.untrustedFields, result) <==> Offers(m, result, r)
  {
    UntrustedReadsIff(m, m.untrustedFields, result, r);
    forall i | 0 <= i < |m.untrustedFields|
      ensures r in PatternReads(m, m.untrustedFields[i], result)
         <==> Expands(result, m.untrustedFields[i], r.path, r.value) && (r.sensitive <==> DeclaredSensitive(m, m.untrustedFields[i]))
    {
      PatternReadsIff(m, m.untrustedFields[i], result, r);
    }
  }

  /**
    A field is read from a tool's result exactly when an untrusted pattern of the last manifest with that id
    expands to it, and it is taken as sensitive exactly when a sensitive pattern there names the same place.
   */
  lemma DeclaredIff(ms: seq<Manifest>, tool: string, result: Value, r: Read)
    ensures r in Declared(ms)(tool, result) <==> DeclaredFor(ms, tool, result, r)
  {
    var m := ManifestOf(ms, tool);
    TheLastSpeaks(ms, tool);
    OffersIff(m, result, r);
    if r in Declared(ms)(tool, result) {
      assert Offers(m, result, r);
      assert Speaks(ms, tool, m);
    }
  }

  // ---- in which order ---------------------------------------------------------------------------

  /** How many fields the patterns find. */
  function Found(result: Value, patterns: seq<string>): nat
    decreases |patterns|
  {
    if patterns == [] then 0 else Found(result, Init(patterns)) + |Expand(result, StripResult(Last(patterns)))|
  }

  /** `here` stands in `all` from `from` on. */
  predicate StandsAt(all: seq<Read>, here: seq<Read>, from: nat)
  {
    from + |here| <= |all| && forall k :: 0 <= k < |here| ==> all[from + k] == here[k]
  }

  lemma StandsInMore(before: seq<Read>, last: seq<Read>, here: seq<Read>, from: nat)
    requires (StandsAt(before, here, from)) || (from == |before| && here == last)
    ensures StandsAt(before + last, here, from)
  {}

  lemma {:induction false} UntrustedReadsInOrder(m: Manifest, patterns: seq<string>, result: Value, i: nat, here: seq<Read>)
    requires i < |patterns| && here == PatternReads(m, patterns[i], result)
    ensures StandsAt(UntrustedReads(m, patterns, result), here, Found(result, patterns[..i]))
    decreases |patterns|
  {
    LastReads(m, patterns, result);
    var before, last := UntrustedReads(m, Init(patterns), result), PatternReads(m, Last(patterns), result);
    ReadsAreFound(m, Init(patterns), result);
    if i == |patterns| - 1 {
      assert patterns[..i] == Init(patterns);
    } else {
      assert Init(patterns)[i] == patterns[i];
      UntrustedReadsInOrder(m, Init(patterns), result, i, here);
      assert Init(patterns)[..i] == patterns[..i];
    }
    StandsInMore(before, last, here, Found(result, patterns[..i]));
  }

  lemma {:induction false} ReadsAreFound(m: Manifest, patterns: seq<string>, result: Value)
    ensures |UntrustedReads(m, patterns, result)| == Found(result, patterns)
    decreases |patterns|
  {
    if patterns != [] { ReadsAreFound(m, Init(patterns), result); }
  }

  lemma ReadIsMatch(found: seq<Match>, sensitive: bool, here: seq<Read>, k: nat)
    requires here == FieldReads(found, sensitive) && k < |found|
    ensures |here| == |found| && here[k] == Read(Render(found[k].steps), found[k].value, sensitive)
  {}

  lemma PatternReadAt(m: Manifest, pattern: string, bare: string, result: Value, k: nat)
    requires Bare(pattern, bare) && k < |Expand(result, bare)|
    ensures var here, n := PatternReads(m, pattern, result), Expand(result, bare)[k];
            k < |here| && here[k].path == Render(n.steps) && here[k].value == n.value
            && (here[k].sensitive <==> DeclaredSensitive(m, pattern))
  {
    BareIsStripped(pattern, bare);
    SensitiveIff(m, pattern);
    ReadIsMatch(Expand(result, bare), IsSensitive(m, pattern), PatternReads(m, pattern, result), k);
  }

  lemma TakenAt(all: seq<Read>, here: seq<Read>, from: nat, k: nat)
    requires StandsAt(all, here, from) && k < |here|
    ensures from + k < |all| && all[from + k] == here[k]
  {}

  /** The read is match `k` of the bare pattern. */
  ghost predicate ReadOfMatch(m: Manifest, pattern: string, bare: string, result: Value, k: nat, r: Read)
  {
    k < |Expand(result, bare)|
    && r.path == Render(Expand(result, bare)[k].steps) && r.value == Expand(result, bare)[k].value
    && (r.sensitive <==> DeclaredSensitive(m, pattern))
  }

  lemma StandingReadAt(m: Manifest, pattern: string, bare: string, result: Value, k: nat, rs: seq<Read>, here: seq<Read>, from: nat)
    requires Bare(pattern, bare) && k < |Expand(result, bare)|
    requires here == PatternReads(m, pattern, result) && StandsAt(rs, here, from)
    ensures from + k < |rs| && ReadOfMatch(m, pattern, bare, result, k, rs[from + k])
  {
    PatternReadAt(m, pattern, bare, result, k);
    TakenAt(rs, here, from, k);
  }

  lemma ManifestReadsInOrder(m: Manifest, result: Value, i: nat, bare: string, k: nat)
    requires i < |m.untrustedFields| && Bare(m.untrustedFields[i], bare) && k < |Expand(result, bare)|
    ensures var rs, n := UntrustedReads(m, m.untrustedFields, result), Found(result, m.untrustedFields[..i]) + k;
            n < |rs| == Found(result, m.untrustedFields) && ReadOfMatch(m, m.untrustedFields[i], bare, result, k, rs[n])
  {
    var rs := UntrustedReads(m, m.untrustedFields, result);
    var here, from := PatternReads(m, m.untrustedFields[i], result), Found(result, m.untrustedFields[..i]);
    UntrustedReadsInOrder(m, m.untrustedFields, result, i, here);
    StandingReadAt(m, m.untrustedFields[i], bare, result, k, rs, here, from);
    ReadsAreFound(m, m.untrustedFields, result);
  }

  /** The reads come pattern by pattern as declared, and in the order of the matches under each. */
  lemma DeclaredInOrder(ms: seq<Manifest>, tool: string, result: Value, m: Manifest, i: nat, bare: string, k: nat)
    requires Speaks(ms, tool, m) && i < |m.untrustedFields| && Bare(m.untrustedFields[i], bare)
    requires k < |Expand(result, bare)|
    ensures var rs, n := Declared(ms)(tool, result), Found(result, m.untrustedFields[..i]) + k;
            n < |rs| == Found(result, m.untrustedFields) && ReadOfMatch(m, m.untrustedFields[i], bare, result, k, rs[n])
  {
    TheLastSpeaks(ms, tool);
    ManifestReadsInOrder(m, result, i, bare, k);
  }

  // ---- what the document shows ------------------------------------------------------------------

  /** A sensitive value has neither content nor preview, and its label; every other one has both. */
  predicate Shows(x: Views, e: Minted, value: Value, hidden: bool)
  {
    && e.hash == x.hash(value)
    && e.shown == (if hidden then None else Some(value))
    && e.preview == (if hidden then "[redacted]" else x.preview(value))
  }

  predicate ShowsField(x: Views, e: Minted, tool: string, r: Read)
  {
    && Shows(x, e, r.value, r.sensitive) && e.sources == [ResultRead(tool, r.path)]
    && UntrustedDerived in e.labels && (Sensitive in e.labels <==> r.sensitive)
  }

  predicate ShowsArgument(x: Views, e: Minted, tool: string, arg: Field, p: Payload)
  {
    var known := arg.key in p.provenance;
    var tainted, hidden := known && p.provenance[arg.key].sources != [], known && p.provenance[arg.key].sensitive;
    && Shows(x, e, arg.value, hidden)
    && (UntrustedDerived in e.labels <==> tainted) && (PromptGiven in e.labels <==> !tainted)
    && (Sensitive in e.labels <==> tainted && hidden) && (e.extracted <==> tainted)
    && (if tainted then Names(e.sources, p.provenance[arg.key].sources) else e.sources == [ArgumentGiven(tool, arg.key)])
  }

  lemma ArgumentEntryShows(x: Views, e: Minted, tool: string, arg: Field, p: Payload)
    requires EntryFor(x, e, ArgumentAt(tool, arg, p))
    ensures ShowsArgument(x, e, tool, arg, p)
  {}

  lemma FieldEntryShows(x: Views, e: Minted, tool: string, r: Read)
    requires EntryFor(x, e, FromResult(tool, r.path, r.value, r.sensitive))
    ensures ShowsField(x, e, tool, r)
  {}

  /** Argument `i` of the call has its entry at that place of the ledger, showing what the kernel found of it. */
  ghost predicate ArgumentShown(x: Views, p: Pair, i: nat, values: seq<Minted>, at: nat)
  {
    p.call.Some? && i < |p.call.value.args| ==>
      at < |values| && ShowsArgument(x, values[at], p.call.value.tool, p.call.value.args[i], p.event.payload)
  }

  lemma ArgumentWanted(p: Pair, i: nat)
    requires p.call.Some? && i < |p.call.value.args|
    ensures i < |ArgsOf(p)| && ArgumentsOf(p)[i] == ArgumentAt(p.call.value.tool, p.call.value.args[i], p.event.payload)
  {}

  lemma ArgumentStandsShown(s: Setting, p: Pair, b0: Built, b1: Built, i: nat)
    requires ArgumentsStand(s, p, b0, b1)
    ensures ArgumentShown(s.views, p, i, b1.ledger.values, |b0.ledger.values| + i)
  {
    if p.call.Some? && i < |p.call.value.args| {
      var e := b1.ledger.values[|b0.ledger.values| + i];
      ArgumentWanted(p, i);
      assert EntryFor(s.views, e, ArgumentsOf(p)[i]);
      ArgumentEntryShows(s.views, e, p.call.value.tool, p.call.value.args[i], p.event.payload);
    }
  }

  lemma ArgumentKept(x: Views, p: Pair, i: nat, values: seq<Minted>, all: seq<Minted>, at: nat)
    requires ArgumentShown(x, p, i, values, at) && values <= all
    ensures ArgumentShown(x, p, i, all, at)
  {
    assert forall k :: 0 <= k < |values| ==> all[k] == values[k];
  }

  lemma ArgumentInAll(s: Setting, p: Pair, i: nat, b0: Built, b1: Built, b: Built)
    requires ArgumentsStand(s, p, b0, b1) && b1.ledger.values <= b.ledger.values
    ensures ArgumentShown(s.views, p, i, b.ledger.values, |b0.ledger.values| + i)
  {
    ArgumentStandsShown(s, p, b0, b1, i);
    ArgumentKept(s.views, p, i, b1.ledger.values, b.ledger.values, |b0.ledger.values| + i);
  }

  /**
    Argument `i` of call `c` is the value `i` places behind those before the call; it is shown unless the kernel
    found it sensitive, and labelled tainted exactly when the kernel named sources for it.
   */
  lemma ArgumentsAreShown(s: Setting, pairs: seq<Pair>, b: Built, c: nat, i: nat) returns (b0: Built)
    requires Build(s, pairs) == Some(b) && c < |pairs|
    ensures After(s, pairs, c) == Some(b0)
    ensures ArgumentShown(s.views, pairs[c], i, b.ledger.values, |b0.ledger.values| + i)
  {
    var b1;
    b0, b1 := ArgumentStage(s, pairs, b, c);
    ArgumentInAll(s, pairs[c], i, b0, b1, b);
  }

  /** The produced ids are those of `rs`, one by one, each of an entry that shows its read. */
  ghost predicate AllShown(x: Views, tool: string, rs: seq<Read>, produced: seq<string>, values: seq<Minted>, from: nat)
  {
    && |produced| == |rs| && from + |rs| <= |values|
    && forall k :: 0 <= k < |rs| ==> produced[k] == values[from + k].id && ShowsField(x, values[from + k], tool, rs[k])
  }

  lemma StandingReadsShow(x: Views, tool: string, rs: seq<Read>, produced: seq<string>, values: seq<Minted>, from: nat)
    requires ReadsStand(x, Wants(tool, rs), produced, values, from)
    ensures AllShown(x, tool, rs, produced, values, from)
  {
    forall k | 0 <= k < |rs| ensures produced[k] == values[from + k].id && ShowsField(x, values[from + k], tool, rs[k]) {
      assert Wants(tool, rs)[k] == FromResult(tool, rs[k].path, rs[k].value, rs[k].sensitive);
      assert EntryFor(x, values[from + k], Wants(tool, rs)[k]);
      FieldEntryShows(x, values[from + k], tool, rs[k]);
    }
  }

  lemma ShownInMore(x: Views, tool: string, rs: seq<Read>, produced: seq<string>, values: seq<Minted>, all: seq<Minted>, from: nat)
    requires AllShown(x, tool, rs, produced, values, from) && values <= all
    ensures AllShown(x, tool, rs, produced, all, from)
  {
    assert forall k :: 0 <= k < |values| ==> all[k] == values[k];
  }

  lemma ResultStandsShown(s: Setting, p: Pair, c: nat, b0: Built, b1: Built, tool: string, rs: seq<Read>)
    requires Executed(p) && CallStands(s, p, c, b0, b1) && ResultStands(s, p, b0, b1)
    requires ReadsOf(s, p) == Wants(tool, rs)
    ensures AllShown(s.views, tool, rs, b1.items[|b0.items| + 2].produced, b1.ledger.values, |b0.ledger.values| + |ArgsOf(p)|)
  {
    StandingReadsShow(s.views, tool, rs, b1.items[|b0.items| + 2].produced, b1.ledger.values, |b0.ledger.values| + |ArgsOf(p)|);
  }

  lemma ResultKept(s: Setting, p: Pair, c: nat, b0: Built, b1: Built, b: Built, tool: string, rs: seq<Read>) returns (n: nat, from: nat)
    requires Executed(p) && CallStands(s, p, c, b0, b1) && ResultStands(s, p, b0, b1)
    requires ReadsOf(s, p) == Wants(tool, rs) && b1.items <= b.items && b1.ledger.values <= b.ledger.values
    ensures n == |b0.items| + 2 < |b.items| && b.items[n].ResultOf? && b.items[n].tool == ToolOf(p)
    ensures AllShown(s.views, tool, rs, b.items[n].produced, b.ledger.values, from)
  {
    n := ResultItem(s, p, c, b0, b1, b);
    from := |b0.ledger.values| + |ArgsOf(p)|;
    ResultStandsShown(s, p, c, b0, b1, tool, rs);
    ShownInMore(s.views, tool, rs, b1.items[n].produced, b1.ledger.values, b.ledger.values, from);
  }

  /** What an executed call produced stands in the finished trace, one value for each of its reads. */
  lemma ReadsAreShown(s: Setting, pairs: seq<Pair>, b: Built, c: nat) returns (n: nat, from: nat)
    requires Build(s, pairs) == Some(b) && c < |pairs| && pairs[c].call.Some? && pairs[c].call.value.executed
    ensures After(s, pairs, c).Some? && n == |After(s, pairs, c).value.items| + 2
    ensures n < |b.items| && b.items[n].ResultOf? && b.items[n].tool == pairs[c].call.value.tool
    ensures var call := pairs[c].call.value;
            AllShown(s.views, call.tool, s.offers(call.tool, call.result), b.items[n].produced, b.ledger.values, from)
  {
    var b0, b1 := Stages(s, pairs, b, c);
    BuiltCallStands(s, pairs[c], c, b0);
    BuiltResultStands(s, pairs[c], c, b0);
    var call := pairs[c].call.value;
    n, from := ResultKept(s, pairs[c], c, b0, b1, b, call.tool, s.offers(call.tool, call.result));
  }

  /** Some value that the ids name shows the read. */
  ghost predicate Shown(x: Views, tool: string, r: Read, produced: seq<string>, values: seq<Minted>)
  {
    exists k, at :: 0 <= k < |produced| && 0 <= at < |values| && produced[k] == values[at].id && ShowsField(x, values[at], tool, r)
  }

  lemma EachIsShown(x: Views, tool: string, rs: seq<Read>, produced: seq<string>, values: seq<Minted>, from: nat, r: Read)
    requires AllShown(x, tool, rs, produced, values, from) && r in rs
    ensures Shown(x, tool, r, produced, values)
  {
    var k :| 0 <= k < |rs| && rs[k] == r;
    assert produced[k] == values[from + k].id && ShowsField(x, values[from + k], tool, r);
  }

  /**
    End to end: every field the manifests declare for an executed call is shown, without content and labelled if
    it is declared sensitive, with its content if not; and whatever the call is said to have produced is such a field.
   */
  lemma DeclaredFieldsAreShown(s: Setting, ms: seq<Manifest>, pairs: seq<Pair>, b: Built, c: nat, r: Read) returns (n: nat)
    requires s.offers == Declared(ms) && Build(s, pairs) == Some(b)
    requires c < |pairs| && pairs[c].call.Some? && pairs[c].call.value.executed
    ensures After(s, pairs, c).Some? && n == |After(s, pairs, c).value.items| + 2 < |b.items| && b.items[n].ResultOf?
    ensures var call := pairs[c].call.value;
            DeclaredFor(ms, call.tool, call.result, r) ==> Shown(s.views, call.tool, r, b.items[n].produced, b.ledger.values)
  {
    var call := pairs[c].call.value;
    var from;
    n, from := ReadsAreShown(s, pairs, b, c);
    DeclaredIff(ms, call.tool, call.result, r);
    if DeclaredFor(ms, call.tool, call.result, r) {
      EachIsShown(s.views, call.tool, s.offers(call.tool, call.result), b.items[n].produced, b.ledger.values, from, r);
    }
  }

  lemma ProducedFieldsAreDeclared(s: Setting, ms: seq<Manifest>, pairs: seq<Pair>, b: Built, c: nat, n: nat, k: nat)
    returns (r: Read, at: nat)
    requires s.offers == Declared(ms) && Build(s, pairs) == Some(b)
    requires c < |pairs| && pairs[c].call.Some? && pairs[c].call.value.executed
    requires After(s, pairs, c).Some? && n == |After(s, pairs, c).value.items| + 2 < |b.items|
    requires b.items[n].ResultOf? && k < |b.items[n].produced|
    ensures DeclaredFor(ms, pairs[c].call.value.tool, pairs[c].call.value.result, r)
    ensures at < |b.ledger.values| && b.items[n].produced[k] == b.ledger.values[at].id
    ensures ShowsField(s.views, b.ledger.values[at], pairs[c].call.value.tool, r)
  {
    var call := pairs[c].call.value;
    var n1, from := ReadsAreShown(s, pairs, b, c);
    r, at := s.offers(call.tool, call.result)[k], from + k;
    DeclaredIff(ms, call.tool, call.result, r);
  }

  /** The same for the whole build: the calls that could be paired, and the manifests as given. */
  lemma DocumentsShowDeclaredFields(views: Views, gateOf: string -> string, ms: seq<Manifest>, enforced: bool,
                                    calls: seq<RecordedCall>, events: seq<TraceEvent>, observes: Observes, b: Built, c: nat, r: Read)
    returns (pairs: seq<Pair>, n: nat)
    requires BuildTrace(Setting(views, gateOf, Declared(ms), enforced), calls, events, observes) == Ok(b)
    ensures Paired(calls, VerdictEvents(events), observes) == Ok(pairs)
    ensures c < |pairs| && pairs[c].call.Some? && pairs[c].call.value.executed ==>
              && n < |b.items| && b.items[n].ResultOf?
              && (DeclaredFor(ms, pairs[c].call.value.tool, pairs[c].call.value.result, r) ==>
                    Shown(views, pairs[c].call.value.tool, r, b.items[n].produced, b.ledger.values))
  {
    var s := Setting(views, gateOf, Declared(ms), enforced);
    pairs, n := Paired(calls, VerdictEvents(events), observes).value, 0;
    if c < |pairs| && pairs[c].call.Some? && pairs[c].call.value.executed {
      n := DeclaredFieldsAreShown(s, ms, pairs, b, c, r);
    }
  }
}
