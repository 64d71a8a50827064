/** The event stream as text: how it falls into lines, and what survives the way there and back. */
module EventText {
  import opened Basics
  import opened EventStream

  /** Where lines end, as `str.splitlines` and the transport have it. */
  predicate IsBreak(c: char)
  {
    '\n' <= c <= '\r' || 0x1C <= c as int <= 0x1E || c as int == 0x85 || 0x2028 <= c as int <= 0x2029
  }

  predicate Unbroken(s: string)
  {
    forall i :: 0 <= i < |s| ==> !IsBreak(s[i])
  }

  function FirstLine(text: string): (r: string)
    ensures |r| <= |text| && Unbroken(r) && (|r| < |text| ==> IsBreak(text[|r|]))
  {
    if text == [] || IsBreak(text[0]) then [] else [text[0]] + FirstLine(text[1..])
  }

  /** What follows the break at the front; a carriage return and a newline are one. */
  function BehindBreak(text: string): string
    requires text != []
  {
    if text[0] == '\r' && |text| > 1 && text[1] == '\n' then text[2..] else text[1..]
  }

  function SplitLines(text: string): seq<string>
    decreases |text|
  {
    if text == [] then []
    else
      var line := FirstLine(text);
      [line] + if |line| < |text| then SplitLines(BehindBreak(text[|line|..])) else []
  }

  function TextOf(lines: seq<string>): string
  {
    if lines == [] then [] else lines[0] + (['\n'] + TextOf(lines[1..]))
  }

  predicate AllUnbroken(lines: seq<string>)
  {
    forall i :: 0 <= i < |lines| ==> Unbroken(lines[i])
  }

  predicate FrameUnbroken(f: Frame)
  {
    Unbroken(f.name) && AllUnbroken(f.data)
  }

  // ---- splitting --------------------------------------------------------------------------------

  lemma {:induction false} FirstLineOf(line: string, rest: string)
    requires Unbroken(line) && (rest == [] || IsBreak(rest[0]))
    ensures FirstLine(line + rest) == line
  {
    if line == [] {
      assert line + rest == rest;
    } else {
      FirstLineOf(line[1..], rest);
      assert (line + rest)[0] == line[0] && (line + rest)[1..] == line[1..] + rest;
    }
  }

  lemma SplitFirst(line: string, rest: string)
    requires Unbroken(line)
    ensures SplitLines(line + (['\n'] + rest)) == [line] + SplitLines(rest)
  {
    var text := line + (['\n'] + rest);
    FirstLineOf(line, ['\n'] + rest);
    assert text[|line|..] == ['\n'] + rest;
    assert BehindBreak(['\n'] + rest) == rest;
  }

  lemma {:induction false} LinesComeBack(lines: seq<string>)
    requires AllUnbroken(lines)
    ensures SplitLines(TextOf(lines)) == lines
  {
    if lines != [] {
      SplitFirst(lines[0], TextOf(lines[1..]));
      LinesComeBack(lines[1..]);
      assert lines == [lines[0]] + lines[1..];
    }
  }

  lemma {:induction false} SplitIsUnbroken(text: string)
    ensures AllUnbroken(SplitLines(text))
    decreases |text|
  {
    if text != [] {
      var line := FirstLine(text);
      if |line| < |text| { SplitIsUnbroken(BehindBreak(text[|line|..])); }
    }
  }

  // ---- what is dispatched holds no breaks -------------------------------------------------------

  lemma {:induction false} StripIsUnbroken(s: string)
    requires Unbroken(s)
    ensures Unbroken(RStrip(s)) && Unbroken(LStrip(s))
  {
    if s != [] {
      StripIsUnbroken(Init(s));
      StripIsUnbroken(s[1..]);
    }
  }

  lemma {:induction false} DropIsUnbroken(s: string)
    requires Unbroken(s)
    ensures Unbroken(DropNewlines(s))
  {
    if s != [] { DropIsUnbroken(Init(s)); }
  }

  predicate KindUnbroken(k: Kind)
  {
    (k.Name? ==> Unbroken(k.name)) && (k.Data? ==> Unbroken(k.data))
  }

  lemma FieldIsUnbroken(line: string, n: nat)
    requires Unbroken(line) && n <= |line|
    ensures Unbroken(Strip(line[n..]))
  {
    StripIsUnbroken(line[n..]);
    StripIsUnbroken(RStrip(line[n..]));
  }

  lemma ClassifiedUnbroken(raw: string)
    requires Unbroken(raw)
    ensures KindUnbroken(Classify(raw))
  {
    var line := DropNewlines(raw);
    DropIsUnbroken(raw);
    if EVENT <= line {
      FieldIsUnbroken(line, |EVENT|);
    } else if DATA <= line {
      FieldIsUnbroken(line, |DATA|);
    }
  }

  lemma {:induction false} DoneUnbroken(open: Frame, lines: seq<string>)
    requires AllUnbroken(lines) && FrameUnbroken(open)
    ensures forall i :: 0 <= i < |Done(open, ClassifyAll(lines))| ==> FrameUnbroken(Done(open, ClassifyAll(lines))[i])
    decreases |lines|
  {
    if lines != [] {
      ClassifiedUnbroken(lines[0]);
      var kinds := ClassifyAll(lines);
      assert kinds[0] == Classify(lines[0]) && kinds[1..] == ClassifyAll(lines[1..]);
      DoneUnbroken(Feed(open, kinds[0]).0, lines[1..]);
    }
  }

  // ---- the round trip ---------------------------------------------------------------------------

  lemma {:induction false} DataLinesUnbroken(data: seq<string>)
    requires AllUnbroken(data)
    ensures AllUnbroken(DataLines(data))
  {
    if data != [] {
      DataLinesUnbroken(data[1..]);
      LabelUnbroken();
    }
  }

  lemma LabelUnbroken()
    ensures Unbroken("data: ") && Unbroken("event: ")
  {}

  lemma {:induction false} PrintedUnbroken(fs: seq<Frame>)
    requires forall i :: 0 <= i < |fs| ==> FrameUnbroken(fs[i])
    ensures AllUnbroken(PrintAll(fs))
  {
    if fs != [] {
      PrintedUnbroken(fs[1..]);
      DataLinesUnbroken(fs[0].data);
      LabelUnbroken();
    }
  }

  /** What comes over the wire of printed frames. */
  function Arriving(fs: seq<Frame>): seq<Frame>
  {
    Dispatched(SplitLines(TextOf(PrintAll(fs))))
  }

  /**
    The round trip over text holds exactly for frames with data whose names and data are trimmed and
    hold no line break of any kind.
   */
  lemma RoundTripIff(fs: seq<Frame>)
    ensures Arriving(fs) == fs <==>
            forall i :: 0 <= i < |fs| ==> fs[i].data != [] && Trimmed(fs[i]) && FrameUnbroken(fs[i])
  {
    var text := TextOf(PrintAll(fs));
    SplitIsUnbroken(text);
    DoneUnbroken(Frame("", []), SplitLines(text));
    if forall i :: 0 <= i < |fs| ==> FrameUnbroken(fs[i]) {
      PrintedUnbroken(fs);
      LinesComeBack(PrintAll(fs));
      LinesRoundTripIff(fs);
    }
  }

  // ---- cuts -------------------------------------------------------------------------------------

  lemma CutBehind(text: string, a: string, c: char, rest: string, k: nat)
    requires text == a + ([c] + rest) && |a| < k <= |text|
    ensures text[..k] == a + ([c] + rest[..k - |a| - 1])
  {}

  lemma CutWithin(line: string, rest: string, k: nat)
    requires Unbroken(line) && k <= |line|
    ensures SplitLines((line + rest)[..k]) == (if k == 0 then [] else [line[..k]]) && Unbroken(line[..k])
  {
    assert (line + rest)[..k] == line[..k];
    FirstLineOf(line[..k], []);
    assert line[..k] + [] == line[..k];
  }

  lemma CutBeyond(text: string, line: string, rest: string, k: nat)
    requires Unbroken(line) && text == line + (['\n'] + rest) && |line| < k <= |text|
    ensures SplitLines(text[..k]) == [line] + SplitLines(rest[..k - |line| - 1])
  {
    CutBehind(text, line, '\n', rest, k);
    SplitFirst(line, rest[..k - |line| - 1]);
  }

  /** The first `j` lines, and perhaps the beginning of one more. */
  predicate Pieces(split: seq<string>, lines: seq<string>, j: nat, part: seq<string>)
  {
    j <= |lines| && split == lines[..j] + part && (part == [] || (|part| == 1 && part[0] != [] && Unbroken(part[0])))
  }

  lemma MorePieces(split: seq<string>, lines: seq<string>, j: nat, part: seq<string>)
    requires lines != [] && Pieces(split, lines[1..], j, part)
    ensures Pieces([lines[0]] + split, lines, j + 1, part)
  {
    assert [lines[0]] + (lines[1..][..j] + part) == lines[..j + 1] + part;
  }

  lemma OnlyPart(lines: seq<string>, part: seq<string>)
    requires part == [] || (|part| == 1 && part[0] != [] && Unbroken(part[0]))
    ensures Pieces(part, lines, 0, part)
  {
    assert lines[..0] + part == part;
  }

  lemma TextUnfolds(lines: seq<string>)
    requires lines != []
    ensures TextOf(lines) == lines[0] + (['\n'] + TextOf(lines[1..]))
  {}

  lemma CutInFirstLine(lines: seq<string>, text: string, k: nat) returns (part: seq<string>)
    requires lines != [] && Unbroken(lines[0]) && text == lines[0] + (['\n'] + TextOf(lines[1..])) && k <= |lines[0]|
    ensures Pieces(SplitLines(text[..k]), lines, 0, part)
  {
    CutWithin(lines[0], ['\n'] + TextOf(lines[1..]), k);
    part := if k == 0 then [] else [lines[0][..k]];
    OnlyPart(lines, part);
  }

  lemma {:induction false} PiecesOfCut(lines: seq<string>, text: string, k: nat) returns (j: nat, part: seq<string>)
    requires AllUnbroken(lines) && text == TextOf(lines) && k <= |text|
    ensures Pieces(SplitLines(text[..k]), lines, j, part)
    decreases |lines|
  {
    j, part := 0, [];
    if lines == [] {
      OnlyPart(lines, part);
    } else {
      TextUnfolds(lines);
      if k <= |lines[0]| {
        part := CutInFirstLine(lines, text, k);
      } else {
        var rest, k' := TextOf(lines[1..]), k - |lines[0]| - 1;
        var i;
        CutBeyond(text, lines[0], rest, k);
        i, part := PiecesOfCut(lines[1..], rest, k');
        MorePieces(SplitLines(rest[..k']), lines, i, part);
        j := i + 1;
      }
    }
  }

  /** A line that is not empty completes nothing. */
  lemma PartCompletesNothing(open: Frame, part: string)
    requires part != [] && Unbroken(part)
    ensures Done(open, ClassifyAll([part])) == []
  {
    assert DropNewlines(part) == part;
    assert ClassifyAll([part]) == [Classify(part)];
    assert Done(open, [Classify(part)]) == AsSeq(Feed(open, Classify(part)).1) + [];
  }

  /** A stream of printed lines cut after any character has dispatched a prefix of what the whole dispatches. */
  lemma CutAnywhereDispatchesPrefix(lines: seq<string>, k: nat)
    requires AllUnbroken(lines) && k <= |TextOf(lines)|
    ensures Dispatched(SplitLines(TextOf(lines)[..k])) <= Dispatched(lines)
  {
    var j, part := PiecesOfCut(lines, TextOf(lines), k);
    var kinds := ClassifyAll(lines[..j]);
    CutDispatchesPrefix(lines, j);
    ClassifyAppend(lines[..j], part);
    ParseAppend(Frame("", []), kinds, ClassifyAll(part));
    if part != [] {
      assert part == [part[0]];
      PartCompletesNothing(Left(Frame("", []), kinds), part[0]);
    }
  }
}
