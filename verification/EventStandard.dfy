/**
  The client beside section 9.2.6 of the WHATWG HTML Standard, as far as events and data go: how a stream
  falls into lines, how a line is read, what a blank line does, and exactly when the client differs.
 */
module EventStandard {
  import opened Basics
  import opened EventStream
  import opened EventText

  // ---- the standard -----------------------------------------------------------------------------

  /** The field name: what stands before the first colon. */
  function FieldName(line: string): (name: string)
    ensures name <= line && ':' !in name && (|name| < |line| ==> line[|name|] == ':')
  {
    if line == [] || line[0] == ':' then [] else [line[0]] + FieldName(line[1..])
  }

  /** One space goes, if it comes first; everything else stays. */
  function OneSpaceOff(s: string): string
  {
    if s != [] && s[0] == ' ' then s[1..] else s
  }

  /** The field value: what stands behind the colon, if there is one. */
  function FieldValue(line: string): string
  {
    var n := |FieldName(line)|;
    if n == |line| then "" else OneSpaceOff(line[n + 1..])
  }

  function ReadLine(line: string): Kind
  {
    if line == "" then Blank
    else if FieldName(line) == "event" then Name(FieldValue(line))
    else if FieldName(line) == "data" then Data(FieldValue(line))
    else Other
  }

  /** A blank line ends the event, name and all, and dispatches it if there was data. */
  function FeedByTheStandard(open: Frame, kind: Kind): (Frame, Option<Frame>)
  {
    if kind.Blank? then (Frame("", []), if open.data != [] then Some(open) else None) else Feed(open, kind)
  }

  function DoneByTheStandard(open: Frame, lines: seq<string>): seq<Frame>
    decreases |lines|
  {
    if lines == [] then []
    else
      var (next, done) := FeedByTheStandard(open, ReadLine(lines[0]));
      AsSeq(done) + DoneByTheStandard(next, lines[1..])
  }

  // ---- one line ---------------------------------------------------------------------------------

  lemma {:induction false} NameInFront(name: string, rest: string)
    requires ':' !in name && (rest == [] || rest[0] == ':')
    ensures FieldName(name + rest) == name
  {
    if name == [] {
      assert name + rest == rest;
    } else {
      NameInFront(name[1..], rest);
      assert (name + rest)[0] == name[0] && (name + rest)[1..] == name[1..] + rest;
    }
  }

  lemma FieldNameIs(line: string, name: string)
    requires ':' !in name
    ensures FieldName(line) == name <==> line == name || name + ":" <= line
  {
    if line == name {
      NameInFront(name, []);
      assert name + [] == name;
    }
    if name + ":" <= line {
      assert line[|name|] == (name + ":")[|name|] && line[..|name|] == (name + ":")[..|name|];
      NameInFront(name, line[|name|..]);
      assert name + line[|name|..] == line;
    }
    if FieldName(line) == name && |name| < |line| {
      assert line[..|name| + 1] == name + ":";
    }
  }

  lemma {:induction false} NothingToDrop(line: string)
    requires Unbroken(line)
    ensures DropNewlines(line) == line
  {}

  /** The two readings of a line of a kind: only bare names and what surrounds a value can tell them apart. */
  lemma LineIsRead(line: string)
    requires Unbroken(line)
    ensures Classify(line).Blank? <==> line == ""
    ensures ReadLine(line).Blank? <==> line == ""
    ensures EVENT <= line ==> Classify(line) == Name(Strip(line[6..])) && ReadLine(line) == Name(OneSpaceOff(line[6..]))
    ensures DATA <= line ==> Classify(line) == Data(Strip(line[5..])) && ReadLine(line) == Data(OneSpaceOff(line[5..]))
    ensures line == "event" ==> Classify(line) == Other && ReadLine(line) == Name("")
    ensures line == "data" ==> Classify(line) == Other && ReadLine(line) == Data("")
    ensures line != "" && line != "event" && line != "data" && !(EVENT <= line) && !(DATA <= line) ==>
            Classify(line) == Other && ReadLine(line) == Other
  {
    NothingToDrop(line);
    FieldNameIs(line, "event");
    FieldNameIs(line, "data");
    assert EVENT == "event" + ":" && DATA == "data" + ":";
    assert EVENT <= line ==> line[0] == 'e' && line != "event";
    assert DATA <= line ==> line[0] == 'd' && line != "data";
  }

  /** A line reads alike exactly when it is no bare `event` or `data`, and its value has one space before it at most. */
  lemma ReadsAlikeIff(line: string)
    requires Unbroken(line)
    ensures Classify(line) == ReadLine(line) <==>
      && line != "event" && line != "data"
      && (EVENT <= line ==> Strip(line[6..]) == OneSpaceOff(line[6..]))
      && (DATA <= line ==> Strip(line[5..]) == OneSpaceOff(line[5..]))
  {
    LineIsRead(line);
  }

  // ---- whole streams ----------------------------------------------------------------------------

  /**
    In every event that a blank line completes, each data line reads alike, and the name the client has is
    the one given since the last blank line. The client has the name `name` open, the standard `std`; `data`
    says that a data line came, and `faulty` that one did not read alike.
   */
  predicate Meets(name: string, std: string, data: bool, faulty: bool, lines: seq<string>)
    decreases |lines|
  {
    lines == [] ||
    if lines[0] == "" then !faulty && (if data then name == std && Meets("", "", false, false, lines[1..])
                                       else Meets(name, "", false, false, lines[1..]))
    else
      var c, d := Classify(lines[0]), ReadLine(lines[0]);
      Meets(if c.Name? then c.name else name, if d.Name? then d.name else std, data || c.Data?,
            faulty || c.Data? != d.Data? || (c.Data? && c != d), lines[1..])
  }

  /** The standard has at least the data lines that the client has. */
  ghost predicate Behind(open: Frame, std: Frame)
  {
    |open.data| <= |std.data|
  }

  lemma FedBehind(open: Frame, std: Frame, line: string)
    requires Unbroken(line) && Behind(open, std)
    ensures Behind(Feed(open, Classify(line)).0, FeedByTheStandard(std, ReadLine(line)).0)
    ensures Feed(open, Classify(line)).1.Some? ==> FeedByTheStandard(std, ReadLine(line)).1.Some?
  {
    LineIsRead(line);
  }

  /** It dispatches at least as often. */
  lemma {:induction false} NoFewer(open: Frame, std: Frame, lines: seq<string>)
    requires AllUnbroken(lines) && Behind(open, std)
    ensures |Done(open, ClassifyAll(lines))| <= |DoneByTheStandard(std, lines)|
    decreases |lines|
  {
    if lines != [] {
      FedBehind(open, std, lines[0]);
      NoFewer(Feed(open, Classify(lines[0])).0, FeedByTheStandard(std, ReadLine(lines[0])).0, lines[1..]);
      DoneFirst(open, lines);
    }
  }

  lemma DoneFirst(open: Frame, lines: seq<string>)
    requires lines != []
    ensures var (next, done) := Feed(open, Classify(lines[0]));
            Done(open, ClassifyAll(lines)) == AsSeq(done) + Done(next, ClassifyAll(lines[1..]))
  {
    assert ClassifyAll(lines)[0] == Classify(lines[0]) && ClassifyAll(lines)[1..] == ClassifyAll(lines[1..]);
  }

  lemma SameHeads(a: Option<Frame>, s: seq<Frame>, b: Option<Frame>, t: seq<Frame>)
    requires a.Some? == b.Some?
    ensures AsSeq(a) + s == AsSeq(b) + t <==> a == b && s == t
  {
    if AsSeq(a) + s == AsSeq(b) + t {
      assert (AsSeq(a) + s)[|AsSeq(a)|..] == s && (AsSeq(b) + t)[|AsSeq(b)|..] == t;
      if a.Some? {
        assert (AsSeq(a) + s)[0] == a.value && (AsSeq(b) + t)[0] == b.value;
      }
    }
  }

  /** Data lines that differ once differ for good. */
  lemma FaultsStay(c: seq<string>, s: seq<string>, x: string, y: string)
    requires |c| <= |s|
    ensures c + [x] == s + [y] <==> c == s && x == y
    ensures c != s + [y]
  {
    if c + [x] == s + [y] {
      assert (c + [x])[..|c|] == c && (s + [y])[..|s|] == s;
      assert (c + [x])[|c|] == x && (s + [y])[|s|] == y;
    }
  }

  lemma {:induction false} MeetsIff(open: Frame, std: Frame, lines: seq<string>)
    requires AllUnbroken(lines) && Behind(open, std)
    ensures Done(open, ClassifyAll(lines)) == DoneByTheStandard(std, lines) <==>
            Meets(open.name, std.name, open.data != [], open.data != std.data, lines)
    decreases |lines|
  {
    if lines != [] {
      DoneFirst(open, lines);
      LineIsRead(lines[0]);
      if lines[0] == "" {
        BlankMeetsIff(open, std, lines);
      } else {
        FieldMeetsIff(open, std, lines);
      }
    }
  }

  lemma {:induction false} BlankMeetsIff(open: Frame, std: Frame, lines: seq<string>)
    requires AllUnbroken(lines) && Behind(open, std) && lines != [] && lines[0] == ""
    ensures Done(open, ClassifyAll(lines)) == DoneByTheStandard(std, lines) <==>
            Meets(open.name, std.name, open.data != [], open.data != std.data, lines)
    decreases |lines|, 0
  {
    var (next, done) := Feed(open, Classify(lines[0]));
    var (next', done') := FeedByTheStandard(std, ReadLine(lines[0]));
    DoneFirst(open, lines);
    LineIsRead(lines[0]);
    MeetsIff(next, next', lines[1..]);
    if done.Some? == done'.Some? {
      SameHeads(done, Done(next, ClassifyAll(lines[1..])), done', DoneByTheStandard(next', lines[1..]));
    } else {
      NoFewer(next, next', lines[1..]);
    }
  }

  lemma {:induction false} FieldMeetsIff(open: Frame, std: Frame, lines: seq<string>)
    requires AllUnbroken(lines) && Behind(open, std) && lines != [] && lines[0] != ""
    ensures Done(open, ClassifyAll(lines)) == DoneByTheStandard(std, lines) <==>
            Meets(open.name, std.name, open.data != [], open.data != std.data, lines)
    decreases |lines|, 0
  {
    var c, d := Classify(lines[0]), ReadLine(lines[0]);
    var next, next' := Feed(open, c).0, FeedByTheStandard(std, d).0;
    DoneFirst(open, lines);
    LineIsRead(lines[0]);
    FedBehind(open, std, lines[0]);
    MeetsIff(next, next', lines[1..]);
    assert Done(open, ClassifyAll(lines)) == [] + Done(next, ClassifyAll(lines[1..])) == Done(next, ClassifyAll(lines[1..]));
    assert DoneByTheStandard(std, lines) == [] + DoneByTheStandard(next', lines[1..]) == DoneByTheStandard(next', lines[1..]);
    FaultsKept(open, std, c, d);
  }

  lemma FaultsKept(open: Frame, std: Frame, c: Kind, d: Kind)
    requires Behind(open, std) && !c.Blank? && !d.Blank? && (c.Data? ==> d.Data?)
    ensures var next, next' := Feed(open, c).0, FeedByTheStandard(std, d).0;
            && (next.data != [] <==> open.data != [] || c.Data?)
            && (next.data != next'.data <==> open.data != std.data || c.Data? != d.Data? || (c.Data? && c != d))
            && next.name == (if c.Name? then c.name else open.name) && next'.name == (if d.Name? then d.name else std.name)
  {
    if d.Data? {
      FaultsStay(open.data, std.data, if c.Data? then c.data else "", d.data);
    }
  }

  /** Line by line, the client dispatches what the standard dispatches exactly then. */
  lemma StandardIsMetIff(lines: seq<string>)
    requires AllUnbroken(lines)
    ensures Dispatched(lines) == DoneByTheStandard(Frame("", []), lines) <==> Meets("", "", false, false, lines)
  {
    MeetsIff(Frame("", []), Frame("", []), lines);
  }

  // ---- lines ------------------------------------------------------------------------------------

  predicate EndsLine(c: char)
  {
    c == '\n' || c == '\r'
  }

  function FirstByTheStandard(text: string): (r: string)
    ensures r <= text && (|r| < |text| ==> EndsLine(text[|r|]))
  {
    if text == [] || EndsLine(text[0]) then [] else [text[0]] + FirstByTheStandard(text[1..])
  }

  /** Lines end at a newline, a carriage return, or both in this order. */
  function LinesByTheStandard(text: string): seq<string>
    decreases |text|
  {
    if text == [] then []
    else
      var line := FirstByTheStandard(text);
      [line] + if |line| < |text| then LinesByTheStandard(BehindBreak(text[|line|..])) else []
  }

  /** No character ends a line for the client alone. */
  predicate NoOtherBreaks(text: string)
  {
    forall i :: 0 <= i < |text| && IsBreak(text[i]) ==> EndsLine(text[i])
  }

  lemma {:induction false} SameFirst(text: string)
    requires NoOtherBreaks(text)
    ensures FirstByTheStandard(text) == FirstLine(text)
  {
    if text != [] { SameFirst(text[1..]); }
  }

  lemma {:induction false} SameLines(text: string)
    requires NoOtherBreaks(text)
    ensures SplitLines(text) == LinesByTheStandard(text)
    decreases |text|
  {
    if text != [] {
      SameFirst(text);
      var line := FirstLine(text);
      if |line| < |text| { SameLines(BehindBreak(text[|line|..])); }
    }
  }

  lemma BehindLine(text: string, n: nat) returns (m: nat)
    requires n < |text| && EndsLine(text[n])
    ensures n < m <= |text| && BehindBreak(text[n..]) == text[m..]
    ensures forall i :: n <= i < m ==> EndsLine(text[i])
  {
    var rest := text[n..];
    m := if rest[0] == '\r' && |rest| > 1 && rest[1] == '\n' then n + 2 else n + 1;
  }

  /** Another break stays within a line of the standard. */
  lemma {:induction false} OtherBreaksStay(text: string, i: nat) returns (l: nat)
    requires i < |text| && IsBreak(text[i]) && !EndsLine(text[i])
    ensures l < |LinesByTheStandard(text)| && !Unbroken(LinesByTheStandard(text)[l])
    decreases |text|
  {
    var line := FirstByTheStandard(text);
    l := 0;
    if i < |line| {
      assert line[i] == text[i];
    } else {
      var m := BehindLine(text, |line|);
      var k := OtherBreaksStay(text[m..], i - m);
      l := k + 1;
    }
  }

  /** The client sees the standard's lines exactly in the texts where no other character ends a line. */
  lemma SameLinesIff(text: string)
    ensures SplitLines(text) == LinesByTheStandard(text) <==> NoOtherBreaks(text)
  {
    if NoOtherBreaks(text) {
      SameLines(text);
    } else {
      var i :| 0 <= i < |text| && IsBreak(text[i]) && !EndsLine(text[i]);
      var l := OtherBreaksStay(text, i);
      SplitIsUnbroken(text);
    }
  }

  /** And on such texts it dispatches what the standard does exactly when the lines meet it. */
  lemma StandardIsMetOnTextIff(text: string)
    requires NoOtherBreaks(text)
    ensures Dispatched(SplitLines(text)) == DoneByTheStandard(Frame("", []), LinesByTheStandard(text))
       <==> Meets("", "", false, false, LinesByTheStandard(text))
  {
    SameLines(text);
    SplitIsUnbroken(text);
    StandardIsMetIff(SplitLines(text));
  }
}
