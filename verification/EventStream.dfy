/**
  The server-sent-event frames of the desired-state stream: the subset of section 9.2.6 of the WHATWG
  HTML Standard (event and data fields, frames ended by a blank line) that the client reads.
 */
module EventStream {
  import opened Basics

  /** What is dispatched: the event name and the data lines that are joined for it. */
  datatype Frame = Frame(name: string, data: seq<string>)

  // ---- Python's strip ---------------------------------------------------------------------------

  const OTHER_SPACES := "\t\r\U{0B}\U{0C}\U{1C}\U{1D}\U{1E}\U{1F}\U{85}\U{A0}\U{1680}\U{2000}\U{2001}\U{2002}\U{2003}\U{2004}\U{2005}\U{2006}\U{2007}\U{2008}\U{2009}\U{200A}\U{2028}\U{2029}\U{202F}\U{205F}\U{3000}"

  predicate OneOf(c: char, s: string)
  {
    s != [] && (c == s[0] || OneOf(c, s[1..]))
  }

  predicate IsSpace(c: char)
  {
    c == ' ' || c == '\n' || OneOf(c, OTHER_SPACES)
  }

  function LStrip(s: string): string
  {
    if s != [] && IsSpace(s[0]) then LStrip(s[1..]) else s
  }

  function RStrip(s: string): string
  {
    if s != [] && IsSpace(Last(s)) then RStrip(Init(s)) else s
  }

  function Strip(s: string): string
  {
    LStrip(RStrip(s))
  }

  /** `rstrip("\n")` */
  function DropNewlines(s: string): string
  {
    if s != [] && Last(s) == '\n' then DropNewlines(Init(s)) else s
  }

  predicate AllSpace(s: string)
  {
    forall i :: 0 <= i < |s| ==> IsSpace(s[i])
  }

  lemma {:induction false} RStripIs(s: string) returns (back: string)
    ensures s == RStrip(s) + back && AllSpace(back) && (RStrip(s) == "" || !IsSpace(Last(RStrip(s))))
  {
    back := "";
    if s != [] && IsSpace(Last(s)) {
      back := RStripIs(Init(s));
      back := back + [Last(s)];
    }
  }

  lemma {:induction false} LStripIs(s: string) returns (front: string)
    ensures s == front + LStrip(s) && AllSpace(front) && (LStrip(s) == "" || (!IsSpace(LStrip(s)[0]) && Last(LStrip(s)) == Last(s)))
  {
    front := "";
    if s != [] && IsSpace(s[0]) {
      front := LStripIs(s[1..]);
      front := [s[0]] + front;
    }
  }

  /** Stripping takes off white space at either end, and all of it. */
  lemma StripIs(s: string) returns (front: string, back: string)
    ensures s == front + Strip(s) + back && AllSpace(front) && AllSpace(back)
    ensures Strip(s) == "" || (!IsSpace(Strip(s)[0]) && !IsSpace(Last(Strip(s))))
  {
    back := RStripIs(s);
    front := LStripIs(RStrip(s));
  }

  // ---- the parser -------------------------------------------------------------------------------

  const EVENT := "event:"
  const DATA := "data:"

  datatype Kind = Name(name: string) | Data(data: string) | Blank | Other

  function Classify(raw: string): Kind
  {
    var line := DropNewlines(raw);
    if EVENT <= line then Name(Strip(line[|EVENT|..]))
    else if DATA <= line then Data(Strip(line[|DATA|..]))
    else if line == "" then Blank
    else Other
  }

  function ClassifyAll(lines: seq<string>): seq<Kind>
  {
    if lines == [] then [] else [Classify(lines[0])] + ClassifyAll(lines[1..])
  }

  /** A blank line completes a frame that has data; a blank line before any data leaves the name standing. */
  function Feed(open: Frame, kind: Kind): (Frame, Option<Frame>)
  {
    match kind
    case Name(name) => (open.(name := name), None)
    case Data(data) => (open.(data := open.data + [data]), None)
    case Blank => if open.data != [] then (Frame("", []), Some(open)) else (open, None)
    case Other => (open, None)
  }

  /** The frame left open after some lines. */
  function Left(open: Frame, kinds: seq<Kind>): Frame
    decreases |kinds|
  {
    if kinds == [] then open else Left(Feed(open, kinds[0]).0, kinds[1..])
  }

  function AsSeq(done: Option<Frame>): seq<Frame>
  {
    if done.Some? then [done.value] else []
  }

  /** The frames completed by some lines. */
  function Done(open: Frame, kinds: seq<Kind>): seq<Frame>
    decreases |kinds|
  {
    if kinds == [] then [] else AsSeq(Feed(open, kinds[0]).1) + Done(Feed(open, kinds[0]).0, kinds[1..])
  }

  /** What one connection dispatches. */
  function Dispatched(lines: seq<string>): seq<Frame>
  {
    Done(Frame("", []), ClassifyAll(lines))
  }

  /** A client that reconnects starts every connection afresh. */
  function DispatchedByAll(connections: seq<seq<string>>): seq<Frame>
  {
    if connections == [] then [] else Dispatched(connections[0]) + DispatchedByAll(connections[1..])
  }

  // ---- the printer ------------------------------------------------------------------------------

  function DataLines(data: seq<string>): seq<string>
  {
    if data == [] then [] else ["data: " + data[0]] + DataLines(data[1..])
  }

  function Print(f: Frame): seq<string>
  {
    ["event: " + f.name] + DataLines(f.data) + [""]
  }

  function PrintAll(fs: seq<Frame>): seq<string>
  {
    if fs == [] then [] else Print(fs[0]) + PrintAll(fs[1..])
  }

  function StripAll(data: seq<string>): seq<string>
  {
    if data == [] then [] else [Strip(data[0])] + StripAll(data[1..])
  }

  /** What survives the wire: frames that have data, with their fields trimmed. */
  function Surviving(fs: seq<Frame>): seq<Frame>
  {
    if fs == [] then []
    else (if fs[0].data == [] then [] else [Frame(Strip(fs[0].name), StripAll(fs[0].data))]) + Surviving(fs[1..])
  }

  // ---- stripping --------------------------------------------------------------------------------

  lemma {:induction false} DropNewlinesThenRStrip(s: string)
    ensures RStrip(DropNewlines(s)) == RStrip(s)
  {
    if s != [] && Last(s) == '\n' {
      DropNewlinesThenRStrip(Init(s));
    }
  }

  lemma {:induction false} DropNewlinesKeepsHead(head: string, s: string)
    requires head != [] && Last(head) != '\n'
    ensures DropNewlines(head + s) == head + DropNewlines(s)
  {
    if s == [] {
      assert head + s == head;
    } else {
      assert Last(head + s) == Last(s) && Init(head + s) == head + Init(s);
      DropNewlinesKeepsHead(head, Init(s));
    }
  }

  lemma {:induction false} StripLeadingSpace(s: string)
    ensures Strip(" " + s) == Strip(s)
  {
    RStripAfterSpace(s);
    assert (" " + RStrip(s))[1..] == RStrip(s);
  }

  lemma {:induction false} RStripAfterSpace(s: string)
    ensures RStrip(" " + s) == if RStrip(s) == [] then [] else " " + RStrip(s)
  {
    if s == [] {
      assert " " + s == " " && Init(" ") == [];
    } else {
      assert Last(" " + s) == Last(s) && Init(" " + s) == " " + Init(s);
      if IsSpace(Last(s)) {
        RStripAfterSpace(Init(s));
      }
    }
  }

  /** The field of a printed line, however the line ends. */
  lemma FieldOf(head: string, s: string)
    requires head != [] && Last(head) != '\n'
    ensures var line := DropNewlines(head + " " + s);
            head <= line && Strip(line[|head|..]) == Strip(s)
  {
    DropNewlinesKeepsHead(head + " ", s);
    var rest := " " + DropNewlines(s);
    assert head + " " + DropNewlines(s) == head + rest;
    assert (head + rest)[|head|..] == rest;
    StripLeadingSpace(DropNewlines(s));
    DropNewlinesThenRStrip(s);
  }

  // ---- the round trip ---------------------------------------------------------------------------

  lemma {:induction false} ClassifyAppend(a: seq<string>, b: seq<string>)
    ensures ClassifyAll(a + b) == ClassifyAll(a) + ClassifyAll(b)
  {
    if a == [] {
      assert a + b == b;
    } else {
      assert (a + b)[1..] == a[1..] + b;
      ClassifyAppend(a[1..], b);
    }
  }

  lemma {:induction false} ParseAppend(open: Frame, a: seq<Kind>, b: seq<Kind>)
    ensures Left(open, a + b) == Left(Left(open, a), b)
    ensures Done(open, a + b) == Done(open, a) + Done(Left(open, a), b)
    decreases |a|
  {
    if a == [] {
      assert a + b == b;
    } else {
      assert (a + b)[1..] == a[1..] + b;
      ParseAppend(Feed(open, a[0]).0, a[1..], b);
    }
  }

  lemma DataLine(data: string)
    ensures Classify("data: " + data) == Data(Strip(data))
  {
    assert "data: " + data == DATA + " " + data;
    FieldOf(DATA, data);
    assert DropNewlines("data: " + data)[0] == 'd';
  }

  lemma NameLine(name: string)
    ensures Classify("event: " + name) == Name(Strip(name))
  {
    assert "event: " + name == EVENT + " " + name;
    FieldOf(EVENT, name);
  }

  function DataKinds(data: seq<string>): seq<Kind>
  {
    if data == [] then [] else [Data(data[0])] + DataKinds(data[1..])
  }

  lemma {:induction false} ClassifyData(data: seq<string>)
    ensures ClassifyAll(DataLines(data)) == DataKinds(StripAll(data))
  {
    if data != [] {
      DataLine(data[0]);
      ClassifyData(data[1..]);
      ClassifyAppend(["data: " + data[0]], DataLines(data[1..]));
    }
  }

  lemma ClassifyPrinted(f: Frame)
    ensures ClassifyAll(Print(f)) == [Name(Strip(f.name))] + DataKinds(StripAll(f.data)) + [Blank]
  {
    NameLine(f.name);
    ClassifyData(f.data);
    ClassifyAppend(["event: " + f.name], DataLines(f.data));
    ClassifyAppend(["event: " + f.name] + DataLines(f.data), [""]);
  }

  lemma {:induction false} ParseData(open: Frame, data: seq<string>)
    ensures Left(open, DataKinds(data)) == open.(data := open.data + data)
    ensures Done(open, DataKinds(data)) == []
    decreases |data|
  {
    if data == [] {
      assert open.data + [] == open.data;
    } else {
      var next := Feed(open, Data(data[0])).0;
      var kinds := DataKinds(data);
      assert kinds[0] == Data(data[0]) && kinds[1..] == DataKinds(data[1..]);
      ParseData(next, data[1..]);
      assert next.data + data[1..] == open.data + data;
    }
  }

  lemma {:induction false} StripAllLength(data: seq<string>)
    ensures |StripAll(data)| == |data|
  {
    if data != [] {
      StripAllLength(data[1..]);
    }
  }

  /** One printed frame after whatever name was left open: only frames with data are dispatched. */
  lemma ParseFrame(name: string, f: Frame)
    ensures Left(Frame(name, []), ClassifyAll(Print(f))) == if f.data == [] then Frame(Strip(f.name), []) else Frame("", [])
    ensures Done(Frame(name, []), ClassifyAll(Print(f)))
         == if f.data == [] then [] else [Frame(Strip(f.name), StripAll(f.data))]
  {
    var start, named := Frame(name, []), Frame(Strip(f.name), []);
    var data := StripAll(f.data);
    ClassifyPrinted(f);
    ParseData(named, data);
    assert [] + data == data;
    StripAllLength(f.data);
    ParseAppend(start, [Name(named.name)], DataKinds(data));
    ParseAppend(start, [Name(named.name)] + DataKinds(data), [Blank]);
  }

  lemma {:induction false} ParsePrinted(name: string, fs: seq<Frame>)
    ensures Done(Frame(name, []), ClassifyAll(PrintAll(fs))) == Surviving(fs)
    decreases |fs|
  {
    if fs != [] {
      ParseFrame(name, fs[0]);
      var printed := ClassifyAll(Print(fs[0]));
      ParsePrinted(Left(Frame(name, []), printed).name, fs[1..]);
      ClassifyAppend(Print(fs[0]), PrintAll(fs[1..]));
      ParseAppend(Frame(name, []), printed, ClassifyAll(PrintAll(fs[1..])));
    }
  }

  /** For every list of frames: the frames with data arrive, in order, trimmed; the others do not. */
  lemma PrintedFramesArrive(fs: seq<Frame>)
    ensures Dispatched(PrintAll(fs)) == Surviving(fs)
  {
    ParsePrinted("", fs);
  }

  predicate Trimmed(f: Frame)
  {
    Strip(f.name) == f.name && forall i :: 0 <= i < |f.data| ==> Strip(f.data[i]) == f.data[i]
  }

  lemma {:induction false} StripAllKeeps(data: seq<string>)
    ensures StripAll(data) == data <==> forall i :: 0 <= i < |data| ==> Strip(data[i]) == data[i]
  {
    if data != [] {
      StripAllKeeps(data[1..]);
      assert data == [data[0]] + data[1..];
    }
  }

  lemma {:induction false} SurvivingIsShorter(fs: seq<Frame>)
    ensures |Surviving(fs)| <= |fs|
  {
    if fs != [] {
      SurvivingIsShorter(fs[1..]);
    }
  }

  lemma {:induction false} SurvivingIff(fs: seq<Frame>)
    ensures Surviving(fs) == fs <==> forall i :: 0 <= i < |fs| ==> fs[i].data != [] && Trimmed(fs[i])
  {
    if fs != [] {
      SurvivingIff(fs[1..]);
      SurvivingIsShorter(fs[1..]);
      StripAllKeeps(fs[0].data);
      assert fs == [fs[0]] + fs[1..];
    }
  }

  /** Line by line, the round trip holds exactly for frames with data whose names and data are trimmed. */
  lemma LinesRoundTripIff(fs: seq<Frame>)
    ensures Dispatched(PrintAll(fs)) == fs <==> forall i :: 0 <= i < |fs| ==> fs[i].data != [] && Trimmed(fs[i])
  {
    PrintedFramesArrive(fs);
    SurvivingIff(fs);
  }

  // ---- cuts -------------------------------------------------------------------------------------

  /** A stream cut at any line has dispatched a prefix of what the whole stream dispatches. */
  lemma CutDispatchesPrefix(lines: seq<string>, k: nat)
    requires k <= |lines|
    ensures Dispatched(lines[..k]) <= Dispatched(lines)
  {
    assert lines == lines[..k] + lines[k..];
    ClassifyAppend(lines[..k], lines[k..]);
    ParseAppend(Frame("", []), ClassifyAll(lines[..k]), ClassifyAll(lines[k..]));
  }

  /**
    A frame cut in the middle is gone: after any cut of one printed stream, the next connection
    dispatches its own frames and nothing of what the cut left open.
   */
  lemma CutFrameDoesNotLeak(fs: seq<Frame>, k: nat, gs: seq<Frame>)
    requires k <= |PrintAll(fs)|
    ensures exists j :: (0 <= j <= |Surviving(fs)| &&
            DispatchedByAll([PrintAll(fs)[..k], PrintAll(gs)]) == Surviving(fs)[..j] + Surviving(gs))
  {
    PrintedFramesArrive(fs);
    PrintedFramesArrive(gs);
    CutDispatchesPrefix(PrintAll(fs), k);
    var cut := Dispatched(PrintAll(fs)[..k]);
    var both := [PrintAll(fs)[..k], PrintAll(gs)];
    assert both[1..] == [PrintAll(gs)] && both[1..][1..] == [];
    assert DispatchedByAll(both[1..]) == Surviving(gs) + [];
    assert Surviving(fs)[..|cut|] == cut;
  }

  /**
    Within one connection an event name outlives a frame without data: the next frame inherits it
    unless it names itself. Section 9.2.6 resets the name at every blank line.
   */
  lemma NameOutlivesEmptyFrame(name: string, data: seq<string>)
    requires data != []
    ensures Dispatched(Print(Frame(name, [])) + DataLines(data) + [""]) == [Frame(Strip(name), StripAll(data))]
  {
    var named, full := Frame(Strip(name), []), Frame(Strip(name), StripAll(data));
    var first, second := ClassifyAll(Print(Frame(name, []))), DataKinds(StripAll(data));
    ParseFrame("", Frame(name, []));
    ClassifyData(data);
    ClassifyAppend(Print(Frame(name, [])), DataLines(data));
    ClassifyAppend(Print(Frame(name, [])) + DataLines(data), [""]);
    StripAllLength(data);
    ParseData(named, StripAll(data));
    assert [] + StripAll(data) == StripAll(data);
    ParseAppend(Frame("", []), first, second);
    assert Left(Frame("", []), first + second) == full && Done(Frame("", []), first + second) == [];
    ParseAppend(Frame("", []), first + second, [Blank]);
    assert ClassifyAll([""]) == [Blank] && Done(full, [Blank]) == [full];
  }
}
