/** The governance file: printed line by line, and read back. */
module GovernanceYaml {
  import opened Basics
  import opened Quoting

  datatype ToolArgs = ToolArgs(tool: string, args: seq<string>)

  /** One destination policy: argument `arg` of `tool` must be one of `allowed`. */
  datatype EnumPolicy = EnumPolicy(tool: string, arg: string, allowed: seq<string>)

  /** What the file says; tools and policies in the order they are printed. */
  datatype Governance = Governance(
    untrusted: seq<string>,
    sensitive: seq<string>,
    egress: seq<string>,
    driving: seq<ToolArgs>,
    policies: seq<EnumPolicy>)

  datatype Section = Untrusted | SensitiveSources | Egress | Driving | Policies

  /** The lines there are; strings in them are quoted. */
  datatype Line =
    | Comment(text: string)
    | Heading(section: Section)
    | Item(indent: nat, value: string)
    | Key(value: string)
    | Arg(value: string)
    | Kind
    | Allowed
    | Other

  function Name(s: Section): string
  {
    match s
    case Untrusted => "untrusted_sources:"
    case SensitiveSources => "sensitive_sources:"
    case Egress => "egress_sinks:"
    case Driving => "driving_args:"
    case Policies => "value_policies:"
  }

  function Rank(s: Section): nat
  {
    match s
    case Untrusted => 0
    case SensitiveSources => 1
    case Egress => 2
    case Driving => 3
    case Policies => 4
  }

  // ---- printing ---------------------------------------------------------------------------------

  function Spaces(n: nat): (r: string)
    ensures |r| == n && forall i :: 0 <= i < n ==> r[i] == ' '
  {
    seq(n, _ => ' ')
  }

  function Show(l: Line): string
  {
    match l
    case Comment(text) => text
    case Heading(s) => Name(s)
    case Item(n, v) => Spaces(n) + (['-', ' '] + Quote(v))
    case Key(v) => Spaces(2) + (Quote(v) + [':'])
    case Arg(v) => Spaces(4) + ("- arg: " + Quote(v))
    case Kind => Spaces(6) + "kind: enum"
    case Allowed => Spaces(6) + "allowed:"
    case Other => []
  }

  function Items(n: nat, vs: seq<string>): (r: seq<Line>)
    ensures |r| == |vs| && forall i :: 0 <= i < |vs| ==> r[i] == Item(n, vs[i])
  {
    seq(|vs|, i requires 0 <= i < |vs| => Item(n, vs[i]))
  }

  function ToolBlock(t: ToolArgs): seq<Line>
  {
    [Key(t.tool)] + Items(4, t.args)
  }

  function PolicyBlock(p: EnumPolicy): seq<Line>
  {
    [Key(p.tool), Arg(p.arg), Kind, Allowed] + Items(8, p.allowed)
  }

  function ToolLines(ts: seq<ToolArgs>): seq<Line>
  {
    if ts == [] then [] else ToolBlock(ts[0]) + ToolLines(ts[1..])
  }

  function PolicyLines(ps: seq<EnumPolicy>): seq<Line>
  {
    if ps == [] then [] else PolicyBlock(ps[0]) + PolicyLines(ps[1..])
  }

  /** A section is left out when there is nothing in it. */
  function Under(s: Section, lines: seq<Line>): seq<Line>
  {
    if lines == [] then [] else [Heading(s)] + lines
  }

  function FromDriving(g: Governance): seq<Line>
  {
    Under(Driving, ToolLines(g.driving)) + Under(Policies, PolicyLines(g.policies))
  }

  function FromEgress(g: Governance): seq<Line>
  {
    Under(Egress, Items(2, g.egress)) + FromDriving(g)
  }

  function FromSensitive(g: Governance): seq<Line>
  {
    Under(SensitiveSources, Items(2, g.sensitive)) + FromEgress(g)
  }

  function FromUntrusted(g: Governance): seq<Line>
  {
    Under(Untrusted, Items(2, g.untrusted)) + FromSensitive(g)
  }

  /** The whole file; `comments` open it. */
  function FileLines(comments: seq<Line>, g: Governance): seq<Line>
  {
    comments + FromUntrusted(g)
  }

  function ShowAll(lines: seq<Line>): string
  {
    if lines == [] then [] else Show(lines[0]) + ['\n'] + ShowAll(lines[1..])
  }

  /** The text: the lines joined by newlines, and one more at the end. */
  function Yaml(comments: seq<Line>, g: Governance): string
  {
    ShowAll(FileLines(comments, g))
  }

  lemma {:induction false} ToolLinesAppend(ts: seq<ToolArgs>, t: ToolArgs)
    ensures ToolLines(ts + [t]) == ToolLines(ts) + ToolBlock(t)
  {
    if ts == [] {
      assert (ts + [t])[1..] == [];
    } else {
      ToolLinesAppend(ts[1..], t);
      assert (ts + [t])[1..] == ts[1..] + [t];
    }
  }

  lemma {:induction false} PolicyLinesAppend(ps: seq<EnumPolicy>, p: EnumPolicy)
    ensures PolicyLines(ps + [p]) == PolicyLines(ps) + PolicyBlock(p)
  {
    if ps == [] {
      assert (ps + [p])[1..] == [];
    } else {
      PolicyLinesAppend(ps[1..], p);
      assert (ps + [p])[1..] == ps[1..] + [p];
    }
  }

  method AddList(lines: seq<Line>, s: Section, values: seq<string>) returns (more: seq<Line>)
    ensures more == lines + Under(s, Items(2, values))
  {
    more := lines;
    if values == [] {
      return;
    }
    more := more + [Heading(s)];
    more := more + Items(2, values);
  }

  method AddTools(lines: seq<Line>, ts: seq<ToolArgs>) returns (more: seq<Line>)
    ensures more == lines + Under(Driving, ToolLines(ts))
  {
    more := lines;
    if ts == [] {
      return;
    }
    more := more + [Heading(Driving)];
    for i := 0 to |ts|
      invariant more == lines + [Heading(Driving)] + ToolLines(ts[..i])
    {
      ToolLinesAppend(ts[..i], ts[i]);
      assert ts[..i + 1] == ts[..i] + [ts[i]];
      more := more + [Key(ts[i].tool)];
      more := more + Items(4, ts[i].args);
    }
    assert ts[..|ts|] == ts;
  }

  method AddPolicies(lines: seq<Line>, ps: seq<EnumPolicy>) returns (more: seq<Line>)
    ensures more == lines + Under(Policies, PolicyLines(ps))
  {
    more := lines;
    if ps == [] {
      return;
    }
    more := more + [Heading(Policies)];
    for i := 0 to |ps|
      invariant more == lines + [Heading(Policies)] + PolicyLines(ps[..i])
    {
      PolicyLinesAppend(ps[..i], ps[i]);
      assert ps[..i + 1] == ps[..i] + [ps[i]];
      more := more + [Key(ps[i].tool), Arg(ps[i].arg), Kind, Allowed];
      more := more + Items(8, ps[i].allowed);
    }
    assert ps[..|ps|] == ps;
  }

  lemma Chain(a: seq<Line>, b: seq<Line>, c: seq<Line>, d: seq<Line>, e: seq<Line>, f: seq<Line>)
    ensures a + b + c + d + e + f == a + (b + (c + (d + (e + f))))
  {
    Regroup(a + b + c, d, e, f);
    Regroup(a, b, c, d + (e + f));
  }

  /** The text of the file, section by section. */
  method PrintYaml(comments: seq<Line>, g: Governance) returns (text: string)
    ensures text == Yaml(comments, g)
  {
    var lines := AddList(comments, Untrusted, g.untrusted);
    lines := AddList(lines, SensitiveSources, g.sensitive);
    lines := AddList(lines, Egress, g.egress);
    lines := AddTools(lines, g.driving);
    lines := AddPolicies(lines, g.policies);
    Chain(comments, Under(Untrusted, Items(2, g.untrusted)), Under(SensitiveSources, Items(2, g.sensitive)),
          Under(Egress, Items(2, g.egress)), Under(Driving, ToolLines(g.driving)), Under(Policies, PolicyLines(g.policies)));
    text := ShowAll(lines);
  }

  // ---- reading lines ----------------------------------------------------------------------------

  function Indent(text: string): (n: nat)
    ensures n <= |text|
  {
    if text == [] || text[0] != ' ' then 0 else 1 + Indent(text[1..])
  }

  /** A quotation that ends where the line does, but for `tail`. */
  function Quoted(text: string, tail: string): Option<string>
  {
    match ReadQuoted(text)
    case Some((s, rest)) => if rest == tail then Some(s) else None
    case None => None
  }

  function ReadHeading(text: string): Line
  {
    if text == Name(Untrusted) then Heading(Untrusted)
    else if text == Name(SensitiveSources) then Heading(SensitiveSources)
    else if text == Name(Egress) then Heading(Egress)
    else if text == Name(Driving) then Heading(Driving)
    else if text == Name(Policies) then Heading(Policies)
    else Other
  }

  function ReadDashed(n: nat, text: string): Line
  {
    if n == 4 && "arg: " <= text then (var q := Quoted(text[5..], []); if q.Some? then Arg(q.value) else Other)
    else (var q := Quoted(text, []); if q.Some? then Item(n, q.value) else Other)
  }

  function ReadKey(n: nat, text: string): Line
  {
    var q := Quoted(text, [':']);
    if n == 2 && q.Some? then Key(q.value) else Other
  }

  function ReadWord(n: nat, text: string): Line
  {
    if n == 6 && text == "kind: enum" then Kind
    else if n == 6 && text == "allowed:" then Allowed
    else Other
  }

  /** What follows an indentation of `n`. */
  function ReadIndented(n: nat, text: string): Line
  {
    if text == [] then Other
    else if text[0] == '"' then ReadKey(n, text)
    else if |text| >= 2 && text[0] == '-' && text[1] == ' ' then ReadDashed(n, text[2..])
    else ReadWord(n, text)
  }

  function ReadLine(text: string): Line
  {
    if text == [] then Other
    else if text[0] == '#' then Comment(text)
    else if text[0] != ' ' then ReadHeading(text)
    else ReadIndented(Indent(text), text[Indent(text)..])
  }

  // ---- reading the file -------------------------------------------------------------------------

  datatype Reading<T> = Reading(found: seq<T>, rest: seq<Line>)

  function ReadItems(lines: seq<Line>, n: nat): (r: Reading<string>)
    ensures |r.rest| <= |lines|
  {
    if lines == [] || !lines[0].Item? || lines[0].indent != n then Reading([], lines)
    else
      var more := ReadItems(lines[1..], n);
      Reading([lines[0].value] + more.found, more.rest)
  }

  function ReadTools(lines: seq<Line>): (r: Reading<ToolArgs>)
    decreases |lines|
  {
    if lines == [] || !lines[0].Key? then Reading([], lines)
    else
      var args := ReadItems(lines[1..], 4);
      var more := ReadTools(args.rest);
      Reading([ToolArgs(lines[0].value, args.found)] + more.found, more.rest)
  }

  function ReadPolicies(lines: seq<Line>): (r: Reading<EnumPolicy>)
    decreases |lines|
  {
    if |lines| < 4 || !lines[0].Key? || !lines[1].Arg? || !lines[2].Kind? || !lines[3].Allowed? then Reading([], lines)
    else
      var allowed := ReadItems(lines[4..], 8);
      var more := ReadPolicies(allowed.rest);
      Reading([EnumPolicy(lines[0].value, lines[1].value, allowed.found)] + more.found, more.rest)
  }

  function ReadList(lines: seq<Line>, s: Section): Reading<string>
  {
    if lines != [] && lines[0] == Heading(s) then ReadItems(lines[1..], 2) else Reading([], lines)
  }

  function ReadDriving(lines: seq<Line>): Reading<ToolArgs>
  {
    if lines != [] && lines[0] == Heading(Driving) then ReadTools(lines[1..]) else Reading([], lines)
  }

  function ReadPolicySection(lines: seq<Line>): Reading<EnumPolicy>
  {
    if lines != [] && lines[0] == Heading(Policies) then ReadPolicies(lines[1..]) else Reading([], lines)
  }

  function SkipComments(lines: seq<Line>): seq<Line>
  {
    if lines != [] && lines[0].Comment? then SkipComments(lines[1..]) else lines
  }

  function ReadFile(lines: seq<Line>): Option<Governance>
  {
    var u := ReadList(SkipComments(lines), Untrusted);
    var s := ReadList(u.rest, SensitiveSources);
    var e := ReadList(s.rest, Egress);
    var d := ReadDriving(e.rest);
    var p := ReadPolicySection(d.rest);
    if p.rest == [] then Some(Governance(u.found, s.found, e.found, d.found, p.found)) else None
  }

  /** The first line, without its newline. */
  function FirstLine(text: string): (r: string)
    ensures |r| <= |text|
  {
    if text == [] || text[0] == '\n' then [] else [text[0]] + FirstLine(text[1..])
  }

  function ReadLines(text: string): seq<Line>
    decreases |text|
  {
    if text == [] then []
    else
      var line := FirstLine(text);
      [ReadLine(line)] + if |line| < |text| then ReadLines(text[|line| + 1..]) else []
  }

  function ReadYaml(text: string): Option<Governance>
  {
    ReadFile(ReadLines(text))
  }
}

/** The governance file says what was compiled, for all names, arguments and destinations. */
module GovernanceReadsBack {
  import opened Basics
  import opened Quoting
  import opened GovernanceYaml

  // ---- the file's lines -------------------------------------------------------------------------

  lemma {:induction false} ItemsRead(n: nat, vs: seq<string>, rest: seq<Line>)
    requires rest == [] || !rest[0].Item?
    ensures ReadItems(Items(n, vs) + rest, n) == Reading(vs, rest)
  {
    var lines := Items(n, vs) + rest;
    if vs == [] {
      assert lines == rest;
    } else {
      ItemsRead(n, vs[1..], rest);
      assert lines[0] == Item(n, vs[0]);
      assert lines[1..] == Items(n, vs[1..]) + rest;
      assert [vs[0]] + vs[1..] == vs;
    }
  }

  /** A section is next, or nothing. */
  predicate Outer(lines: seq<Line>)
  {
    lines == [] || lines[0].Heading?
  }

  lemma {:induction false} ToolsRead(ts: seq<ToolArgs>, rest: seq<Line>)
    requires Outer(rest)
    ensures ReadTools(ToolLines(ts) + rest) == Reading(ts, rest)
  {
    var lines := ToolLines(ts) + rest;
    if ts == [] {
      assert lines == rest;
    } else {
      var more := ToolLines(ts[1..]) + rest;
      ToolsRead(ts[1..], rest);
      assert more == [] || !more[0].Item?;
      ItemsRead(4, ts[0].args, more);
      Regroup([Key(ts[0].tool)], Items(4, ts[0].args), ToolLines(ts[1..]), rest);
      assert lines[0] == Key(ts[0].tool) && lines[1..] == Items(4, ts[0].args) + more;
      assert [ts[0]] + ts[1..] == ts;
    }
  }

  lemma {:induction false} PoliciesRead(ps: seq<EnumPolicy>, rest: seq<Line>)
    requires Outer(rest)
    ensures ReadPolicies(PolicyLines(ps) + rest) == Reading(ps, rest)
  {
    var lines := PolicyLines(ps) + rest;
    if ps == [] {
      assert lines == rest;
    } else {
      var p, more := ps[0], PolicyLines(ps[1..]) + rest;
      PoliciesRead(ps[1..], rest);
      assert more == [] || !more[0].Item?;
      ItemsRead(8, p.allowed, more);
      Regroup([Key(p.tool), Arg(p.arg), Kind, Allowed], Items(8, p.allowed), PolicyLines(ps[1..]), rest);
      assert lines[..4] == [Key(p.tool), Arg(p.arg), Kind, Allowed] && lines[4..] == Items(8, p.allowed) + more;
      assert [p] + ps[1..] == ps;
    }
  }

  /** Only sections of rank `k` and up are left. */
  predicate From(lines: seq<Line>, k: nat)
  {
    lines == [] || (lines[0].Heading? && Rank(lines[0].section) >= k)
  }

  lemma UnderReads(s: Section, body: seq<Line>, rest: seq<Line>)
    requires From(rest, Rank(s) + 1)
    ensures var lines := Under(s, body) + rest;
            && From(lines, Rank(s))
            && (if body == [] then lines == rest else lines != [] && lines[0] == Heading(s) && lines[1..] == body + rest)
  {}

  lemma ListReads(s: Section, vs: seq<string>, rest: seq<Line>)
    requires From(rest, Rank(s) + 1)
    ensures ReadList(Under(s, Items(2, vs)) + rest, s) == Reading(vs, rest)
  {
    UnderReads(s, Items(2, vs), rest);
    ItemsRead(2, vs, rest);
  }

  lemma DrivingReads(ts: seq<ToolArgs>, rest: seq<Line>)
    requires From(rest, 4)
    ensures ReadDriving(Under(Driving, ToolLines(ts)) + rest) == Reading(ts, rest)
  {
    UnderReads(Driving, ToolLines(ts), rest);
    ToolsRead(ts, rest);
    assert ts != [] ==> ToolLines(ts) != [];
  }

  lemma PolicySectionReads(ps: seq<EnumPolicy>)
    ensures ReadPolicySection(Under(Policies, PolicyLines(ps))) == Reading(ps, [])
  {
    UnderReads(Policies, PolicyLines(ps), []);
    PoliciesRead(ps, []);
    assert PolicyLines(ps) + [] == PolicyLines(ps);
    assert Under(Policies, PolicyLines(ps)) + [] == Under(Policies, PolicyLines(ps));
    assert ps != [] ==> PolicyLines(ps) != [];
  }

  predicate AllComments(lines: seq<Line>)
  {
    forall i :: 0 <= i < |lines| ==> lines[i].Comment? && Shown(lines[i])
  }

  lemma {:induction false} CommentsAreSkipped(comments: seq<Line>, rest: seq<Line>)
    requires AllComments(comments) && From(rest, 0)
    ensures SkipComments(comments + rest) == rest
  {
    var lines := comments + rest;
    if comments == [] {
      assert lines == rest;
    } else {
      CommentsAreSkipped(comments[1..], rest);
      assert lines[0] == comments[0] && lines[1..] == comments[1..] + rest;
    }
  }

  lemma FileReads(comments: seq<Line>, g: Governance)
    requires AllComments(comments)
    ensures ReadFile(FileLines(comments, g)) == Some(g)
  {
    SectionsFollow(g);
    PolicySectionReads(g.policies);
    DrivingReads(g.driving, Under(Policies, PolicyLines(g.policies)));
    ListReads(Egress, g.egress, FromDriving(g));
    ListReads(SensitiveSources, g.sensitive, FromEgress(g));
    ListReads(Untrusted, g.untrusted, FromSensitive(g));
    CommentsAreSkipped(comments, FromUntrusted(g));
  }

  lemma UnderIsFrom(s: Section, body: seq<Line>, rest: seq<Line>)
    requires From(rest, Rank(s) + 1)
    ensures From(Under(s, body) + rest, Rank(s))
  {
    UnderReads(s, body, rest);
  }

  lemma SectionsFollow(g: Governance)
    ensures From(Under(Policies, PolicyLines(g.policies)), 4) && From(FromDriving(g), 3)
    ensures From(FromEgress(g), 2) && From(FromSensitive(g), 1) && From(FromUntrusted(g), 0)
  {
    UnderIsFrom(Driving, ToolLines(g.driving), Under(Policies, PolicyLines(g.policies)));
    UnderIsFrom(Egress, Items(2, g.egress), FromDriving(g));
    UnderIsFrom(SensitiveSources, Items(2, g.sensitive), FromEgress(g));
    UnderIsFrom(Untrusted, Items(2, g.untrusted), FromSensitive(g));
  }

  // ---- one line ---------------------------------------------------------------------------------

  /** The lines a file is made of. */
  predicate Shown(l: Line)
  {
    match l
    case Comment(text) => text != [] && text[0] == '#' && '\n' !in text
    case Item(n, _) => n > 0
    case Other => false
    case _ => true
  }

  lemma {:induction false} IndentReads(n: nat, rest: string)
    requires rest != [] && rest[0] != ' '
    ensures Indent(Spaces(n) + rest) == n && (Spaces(n) + rest)[n..] == rest
  {
    if n > 0 {
      IndentReads(n - 1, rest);
      assert (Spaces(n) + rest)[1..] == Spaces(n - 1) + rest;
    }
  }

  lemma QuotedReads(v: string, tail: string)
    ensures Quoted(Quote(v) + tail, tail) == Some(v)
  {
    QuotedReadsBack(v, tail);
  }

  lemma DashedReads(n: nat, v: string)
    ensures ReadIndented(n, ['-', ' '] + Quote(v)) == Item(n, v)
  {
    QuotedReads(v, []);
    assert (['-', ' '] + Quote(v))[2..] == Quote(v) + [] == Quote(v);
    assert Quote(v)[0] == '"';
  }

  lemma KeyReads(v: string)
    ensures ReadIndented(2, Quote(v) + [':']) == Key(v)
  {
    QuotedReads(v, [':']);
  }

  lemma ArgReads(v: string)
    ensures ReadIndented(4, "- arg: " + Quote(v)) == Arg(v)
  {
    var text := "- arg: " + Quote(v);
    QuotedReads(v, []);
    assert text[2..] == "arg: " + Quote(v);
    assert text[2..][5..] == Quote(v) + [] == Quote(v);
  }

  lemma HeadingReads(s: Section)
    ensures ReadLine(Name(s)) == Heading(s)
  {
    assert forall t: Section :: t != s ==> Name(t)[0] != Name(s)[0];
  }

  /** A printed line is that line. */
  lemma LineReads(l: Line)
    requires Shown(l)
    ensures ReadLine(Show(l)) == l
  {
    match l
    case Comment(text) =>
    case Heading(s) => HeadingReads(s);
    case Item(n, v) => IndentReads(n, ['-', ' '] + Quote(v)); DashedReads(n, v);
    case Key(v) => IndentReads(2, Quote(v) + [':']); KeyReads(v);
    case Arg(v) => IndentReads(4, "- arg: " + Quote(v)); ArgReads(v);
    case Kind => IndentReads(6, "kind: enum");
    case Allowed => IndentReads(6, "allowed:");
  }

  lemma QuoteIsOneLine(v: string)
    ensures '\n' !in Quote(v)
  {
    QuotedIsPrintable(v);
  }

  /** And it is one line. */
  lemma LineIsOneLine(l: Line)
    requires Shown(l)
    ensures '\n' !in Show(l)
  {
    match l
    case Comment(text) =>
    case Heading(s) =>
    case Item(n, v) => QuoteIsOneLine(v);
    case Key(v) => QuoteIsOneLine(v);
    case Arg(v) => QuoteIsOneLine(v);
    case Kind =>
    case Allowed =>
  }

  // ---- the text ---------------------------------------------------------------------------------

  lemma {:induction false} FirstLineReads(line: string, rest: string)
    requires '\n' !in line
    ensures FirstLine(line + ['\n'] + rest) == line
  {
    if line != [] {
      FirstLineReads(line[1..], rest);
      assert (line + ['\n'] + rest)[1..] == line[1..] + ['\n'] + rest;
    }
  }

  predicate AllShown(lines: seq<Line>)
  {
    forall i :: 0 <= i < |lines| ==> Shown(lines[i])
  }

  lemma {:induction false} LinesRead(lines: seq<Line>)
    requires AllShown(lines)
    ensures ReadLines(ShowAll(lines)) == lines
  {
    if lines != [] {
      var text := ShowAll(lines);
      LineReads(lines[0]);
      LineIsOneLine(lines[0]);
      FirstLineReads(Show(lines[0]), ShowAll(lines[1..]));
      LinesRead(lines[1..]);
      assert text[|Show(lines[0])| + 1..] == ShowAll(lines[1..]);
    }
  }

  lemma {:induction false} ToolsAreShown(ts: seq<ToolArgs>)
    ensures AllShown(ToolLines(ts))
  {
    if ts != [] { ToolsAreShown(ts[1..]); }
  }

  lemma {:induction false} PoliciesAreShown(ps: seq<EnumPolicy>)
    ensures AllShown(PolicyLines(ps))
  {
    if ps != [] { PoliciesAreShown(ps[1..]); }
  }

  lemma FileIsShown(comments: seq<Line>, g: Governance)
    requires AllComments(comments)
    ensures AllShown(FileLines(comments, g))
  {
    ToolsAreShown(g.driving);
    PoliciesAreShown(g.policies);
    assert AllShown(FromDriving(g));
    assert AllShown(FromSensitive(g));
  }

  /** The printed file reads back as what was printed, for all strings in it and whatever the comments say. */
  lemma YamlReadsBack(comments: seq<Line>, g: Governance)
    requires AllComments(comments)
    ensures ReadYaml(Yaml(comments, g)) == Some(g)
  {
    FileIsShown(comments, g);
    LinesRead(FileLines(comments, g));
    FileReads(comments, g);
  }
}
