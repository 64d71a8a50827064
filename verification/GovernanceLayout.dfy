/** The governance file to the letter: which list stands under which heading, and how. */
module GovernanceLayout {
  import opened Basics
  import opened Quoting
  import opened GovernanceYaml

  /** One line after the other, each with its newline. */
  function Lay(lines: seq<string>): string
  {
    if lines == [] then "" else lines[0] + "\n" + Lay(lines[1..])
  }

  /** The heading and what stands under it, or nothing when nothing does. */
  function Block(heading: string, body: seq<string>): string
  {
    if body == [] then "" else Lay([heading] + body)
  }

  function Dashed(indent: string, values: seq<string>): (r: seq<string>)
    ensures |r| == |values| && forall i :: 0 <= i < |values| ==> r[i] == indent + "- " + Quote(values[i])
  {
    seq(|values|, i requires 0 <= i < |values| => indent + "- " + Quote(values[i]))
  }

  function ToolTexts(ts: seq<ToolArgs>): seq<string>
  {
    if ts == [] then [] else ["  " + Quote(ts[0].tool) + ":"] + Dashed("    ", ts[0].args) + ToolTexts(ts[1..])
  }

  function PolicyTexts(ps: seq<EnumPolicy>): seq<string>
  {
    if ps == [] then []
    else ["  " + Quote(ps[0].tool) + ":", "    - arg: " + Quote(ps[0].arg), "      kind: enum", "      allowed:"]
         + Dashed("        ", ps[0].allowed) + PolicyTexts(ps[1..])
  }

  function Shown(lines: seq<Line>): (r: seq<string>)
    ensures |r| == |lines| && forall i :: 0 <= i < |lines| ==> r[i] == Show(lines[i])
  {
    Map(Show, lines)
  }

  lemma {:induction false} ShowAllLays(lines: seq<Line>)
    ensures ShowAll(lines) == Lay(Shown(lines))
  {
    if lines != [] {
      ShowAllLays(lines[1..]);
      assert Shown(lines)[1..] == Shown(lines[1..]);
    }
  }

  lemma {:induction false} ShowAllAppend(a: seq<Line>, b: seq<Line>)
    ensures ShowAll(a + b) == ShowAll(a) + ShowAll(b)
  {
    if a == [] {
      assert a + b == b;
    } else {
      assert (a + b)[1..] == a[1..] + b;
      ShowAllAppend(a[1..], b);
      Associate(Show(a[0]) + ['\n'], ShowAll(a[1..]), ShowAll(b));
    }
  }

  lemma IndentsAre()
    ensures Spaces(2) == "  " && Spaces(4) == "    " && Spaces(6) == "      " && Spaces(8) == "        "
  {}

  lemma ItemsShow(n: nat, indent: string, values: seq<string>)
    requires Spaces(n) == indent
    ensures Shown(Items(n, values)) == Dashed(indent, values)
  {
    forall i | 0 <= i < |values| ensures Shown(Items(n, values))[i] == Dashed(indent, values)[i] {
      assert ['-', ' '] == "- ";
      Associate(indent, "- ", Quote(values[i]));
    }
  }

  lemma ShownAppend(a: seq<Line>, b: seq<Line>)
    ensures Shown(a + b) == Shown(a) + Shown(b)
  {}

  lemma ToolShows(t: ToolArgs)
    ensures Shown(ToolBlock(t)) == ["  " + Quote(t.tool) + ":"] + Dashed("    ", t.args)
  {
    IndentsAre();
    ItemsShow(4, "    ", t.args);
    ShownAppend([Key(t.tool)], Items(4, t.args));
    Associate("  ", Quote(t.tool), ":");
    assert Shown([Key(t.tool)]) == ["  " + Quote(t.tool) + ":"];
  }

  lemma PolicyShows(p: EnumPolicy)
    ensures Shown(PolicyBlock(p)) ==
            ["  " + Quote(p.tool) + ":", "    - arg: " + Quote(p.arg), "      kind: enum", "      allowed:"] + Dashed("        ", p.allowed)
  {
    IndentsAre();
    ItemsShow(8, "        ", p.allowed);
    var head := [Key(p.tool), Arg(p.arg), Kind, Allowed];
    ShownAppend(head, Items(8, p.allowed));
    Associate("  ", Quote(p.tool), ":");
    Associate("    ", "- arg: ", Quote(p.arg));
    assert "    " + "- arg: " == "    - arg: ";
    assert "      " + "kind: enum" == "      kind: enum" && "      " + "allowed:" == "      allowed:";
    assert Shown(head) == ["  " + Quote(p.tool) + ":", "    - arg: " + Quote(p.arg), "      kind: enum", "      allowed:"];
  }

  lemma {:induction false} ToolsShow(ts: seq<ToolArgs>)
    ensures Shown(ToolLines(ts)) == ToolTexts(ts)
  {
    if ts != [] {
      ToolsShow(ts[1..]);
      ToolShows(ts[0]);
      ShownAppend(ToolBlock(ts[0]), ToolLines(ts[1..]));
    }
  }

  lemma {:induction false} PoliciesShow(ps: seq<EnumPolicy>)
    ensures Shown(PolicyLines(ps)) == PolicyTexts(ps)
  {
    if ps != [] {
      PoliciesShow(ps[1..]);
      PolicyShows(ps[0]);
      ShownAppend(PolicyBlock(ps[0]), PolicyLines(ps[1..]));
    }
  }

  lemma SectionShows(s: Section, heading: string, lines: seq<Line>, body: seq<string>)
    requires Name(s) == heading && Shown(lines) == body
    ensures ShowAll(Under(s, lines)) == Block(heading, body)
  {
    ShowAllLays(Under(s, lines));
    if lines != [] {
      ShownAppend([Heading(s)], lines);
      assert Shown([Heading(s)]) == [heading];
    }
  }

  lemma ListShows(s: Section, heading: string, values: seq<string>)
    requires Name(s) == heading
    ensures ShowAll(Under(s, Items(2, values))) == Block(heading, Dashed("  ", values))
  {
    IndentsAre();
    ItemsShow(2, "  ", values);
    SectionShows(s, heading, Items(2, values), Dashed("  ", values));
  }

  /** The headings and lists from the driving arguments on, as text; and so forth with one more list in front. */
  function DrivingOn(g: Governance): string
  {
    Block("driving_args:", ToolTexts(g.driving)) + Block("value_policies:", PolicyTexts(g.policies))
  }

  function EgressOn(g: Governance): string
  {
    Block("egress_sinks:", Dashed("  ", g.egress)) + DrivingOn(g)
  }

  function SensitiveOn(g: Governance): string
  {
    Block("sensitive_sources:", Dashed("  ", g.sensitive)) + EgressOn(g)
  }

  lemma DrivingShows(g: Governance)
    ensures ShowAll(FromDriving(g)) == DrivingOn(g)
  {
    ToolsShow(g.driving);
    SectionShows(Driving, "driving_args:", ToolLines(g.driving), ToolTexts(g.driving));
    PoliciesShow(g.policies);
    SectionShows(Policies, "value_policies:", PolicyLines(g.policies), PolicyTexts(g.policies));
    ShowAllAppend(Under(Driving, ToolLines(g.driving)), Under(Policies, PolicyLines(g.policies)));
  }

  lemma EgressShows(g: Governance)
    ensures ShowAll(FromEgress(g)) == EgressOn(g)
  {
    DrivingShows(g);
    ListShows(Egress, "egress_sinks:", g.egress);
    ShowAllAppend(Under(Egress, Items(2, g.egress)), FromDriving(g));
  }

  lemma SensitiveShows(g: Governance)
    ensures ShowAll(FromSensitive(g)) == SensitiveOn(g)
  {
    EgressShows(g);
    ListShows(SensitiveSources, "sensitive_sources:", g.sensitive);
    ShowAllAppend(Under(SensitiveSources, Items(2, g.sensitive)), FromEgress(g));
  }

  /** The file: its comments, then sources, sinks, arguments and policies, each list under its own heading or left out. */
  lemma FileIsLaidOut(comments: seq<Line>, g: Governance)
    ensures Yaml(comments, g) == ShowAll(comments) + (Block("untrusted_sources:", Dashed("  ", g.untrusted)) + SensitiveOn(g))
  {
    SensitiveShows(g);
    ListShows(Untrusted, "untrusted_sources:", g.untrusted);
    ShowAllAppend(comments, FromUntrusted(g));
    ShowAllAppend(Under(Untrusted, Items(2, g.untrusted)), FromSensitive(g));
  }

  lemma {:induction false} PlainBody(s: string)
    requires forall i :: 0 <= i < |s| ==> ' ' <= s[i] <= '~' && s[i] != '"' && s[i] != '\\'
    ensures Body(s) == s
  {
    if s != [] {
      PlainBody(s[1..]);
      assert Escape(s[0]) == [s[0]];
    }
  }

  /** A text of plain characters is quoted as it is. */
  lemma PlainTextIsQuotedAsItIs(s: string)
    requires forall i :: 0 <= i < |s| ==> ' ' <= s[i] <= '~' && s[i] != '"' && s[i] != '\\'
    ensures Quote(s) == "\"" + s + "\""
  {
    PlainBody(s);
  }
}
