/**
 * The Markdown renderer of `renderer.py`: a draft becomes the thirteen sections of a
 * specification, each a heading followed by bullet or numbered lines, joined by line breaks.
 */
module Renderer {
  import opened Text
  import opened Models
  import opened Parser
  import opened SpecHeadings
  import opened Quality

  /* ---------------------------------------------------------------------------------------- */
  /* `_split_to_bullets`                                                                      */
  /* ---------------------------------------------------------------------------------------- */

  /** The single item of a value without content. */
  const NoneSpecified := "None specified."

  /** The pieces of `value.replace(";", ",").split(",")`. */
  function Pieces(value: string): seq<string> {
    SplitOn(Replace(value, ';', ','), ',')
  }

  /** `_split_to_bullets(value)`: the stripped non-blank pieces, or the single default item. */
  function SplitToBullets(value: string): (items: seq<string>)
    ensures items != []
    ensures forall k :: 0 <= k < |items| ==> items[k] != [] && Strip(items[k]) == items[k]
  {
    var parts := StrippedNonBlank(Pieces(value));
    if parts != [] then parts
    else
      StripUntrimmed(NoneSpecified);
      [NoneSpecified]
  }

  /** A separator or whitespace: what `_split_to_bullets` throws away. */
  predicate IsSeparator(c: char) {
    IsSpace(c) || c == ',' || c == ';'
  }

  /** The items keep no separator; the default item stands for a value that holds nothing but
      separators and whitespace, and otherwise every character of every item occurs in the
      value. */
  lemma SplitToBulletsSpec(value: string)
    ensures (forall i :: 0 <= i < |value| ==> IsSeparator(value[i])) <==>
      StrippedNonBlank(Pieces(value)) == []
    ensures (forall i :: 0 <= i < |value| ==> IsSeparator(value[i])) ==>
      SplitToBullets(value) == [NoneSpecified]
    ensures forall k, m :: 0 <= k < |SplitToBullets(value)| && 0 <= m < |SplitToBullets(value)[k]| ==>
      SplitToBullets(value)[k][m] != ',' && SplitToBullets(value)[k][m] != ';'
    ensures (exists i :: 0 <= i < |value| && !IsSeparator(value[i])) ==>
      forall k, m :: 0 <= k < |SplitToBullets(value)| && 0 <= m < |SplitToBullets(value)[k]| ==>
        SplitToBullets(value)[k][m] in value
  {
    SeparatorsOnly(value);
    KeptChars(value);
    if StrippedNonBlank(Pieces(value)) == [] {
      assert forall m :: 0 <= m < |NoneSpecified| ==> NoneSpecified[m] != ',' && NoneSpecified[m] != ';';
    }
  }

  /** Nothing is kept exactly when the value holds nothing but separators and whitespace. */
  lemma SeparatorsOnly(value: string)
    ensures (forall i :: 0 <= i < |value| ==> IsSeparator(value[i])) <==>
      StrippedNonBlank(Pieces(value)) == []
  {
    var replaced := Replace(value, ';', ',');
    SplitOnChars(replaced, ',');
    StrippedNonBlankEmpty(Pieces(value));
  }

  /** Every kept character occurs in the value and is no separator that was split on. */
  lemma KeptChars(value: string)
    ensures var parts := StrippedNonBlank(Pieces(value));
      forall k, m :: 0 <= k < |parts| && 0 <= m < |parts[k]| ==>
        parts[k][m] != ',' && parts[k][m] != ';' && parts[k][m] in value
  {
    var replaced := Replace(value, ';', ',');
    var pieces := Pieces(value);
    var parts := StrippedNonBlank(pieces);
    SplitOnChars(replaced, ',');
    StrippedNonBlankChars(pieces);
    // Every kept character comes from a piece, hence from the replaced text, hence is neither a
    // separator that was split on nor a ';' that was replaced.
    forall k, m | 0 <= k < |parts| && 0 <= m < |parts[k]|
      ensures parts[k][m] != ',' && parts[k][m] != ';' && parts[k][m] in value
    {
      var j :| 0 <= j < |pieces| && parts[k][m] in pieces[j];
      var n :| 0 <= n < |pieces[j]| && pieces[j][n] == parts[k][m];
      var p :| 0 <= p < |replaced| && replaced[p] == parts[k][m];
      assert value[p] == parts[k][m];
    }
  }

  /* ---------------------------------------------------------------------------------------- */
  /* `_default_functional_requirements` and `_default_acceptance_criteria`                    */
  /* ---------------------------------------------------------------------------------------- */

  /** The opening every functional requirement shares. */
  const Shall := "The system SHALL "

  /** `_default_functional_requirements(inputs, outputs, primary_goal)` */
  function FunctionalRequirements(inputs: string, outputs: string, goal: string): seq<string> {
    [ Shall + "accept and validate the defined inputs: " + inputs + ".",
      Shall + "produce outputs in the defined format: " + outputs + ".",
      Shall + "implement behavior that directly " + "supports this goal: " + goal + ".",
      Shall + "return deterministic results " + "for identical valid inputs." ]
  }

  /** Four requirements: each of the three values quoted by its own requirement, the fourth
      the same for every draft. */
  lemma FunctionalRequirementsSpec(inputs: string, outputs: string, goal: string)
    ensures var r := FunctionalRequirements(inputs, outputs, goal);
      && |r| == 4
      && (forall k :: 0 <= k < 4 ==> StartsWith(r[k], Shall))
      && Contains(r[0], inputs) && Contains(r[1], outputs) && Contains(r[2], goal)
      && r[3] == FunctionalRequirements("", "", "")[3]
  {
    var r := FunctionalRequirements(inputs, outputs, goal);
    ContainsMiddle(Shall + "accept and validate the defined inputs: ", inputs, ".");
    ContainsMiddle(Shall + "produce outputs in the defined format: ", outputs, ".");
    ContainsMiddle(Shall + "implement behavior that directly " + "supports this goal: ", goal, ".");
    forall k | 0 <= k < 4 ensures StartsWith(r[k], Shall) {
      assert r[k][..|Shall|] == Shall;
    }
  }

  /** `_default_acceptance_criteria(project_name, outputs)` */
  function AcceptanceCriteria(name: string, outputs: string): seq<string> {
    [ "`" + name + "` generates the expected output: " + outputs + ".",
      "All required fields are present " + "and non-ambiguous in the generated " + "specification.",
      "The specification follows the " + "mandated section order and headings." ]
  }

  /** Three criteria, the first quoting the project name between backticks and the outputs. */
  lemma AcceptanceCriteriaSpec(name: string, outputs: string)
    ensures var r := AcceptanceCriteria(name, outputs);
      && |r| == 3
      && StartsWith(r[0], "`" + name + "`")
      && Contains(r[0], outputs)
      && r[1..] == AcceptanceCriteria("", "")[1..]
  {
    var head := "`" + name + "` generates the expected output: ";
    var rest := "` generates the expected output: " + outputs + ".";
    assert head + outputs + "." == ("`" + name) + rest;
    assert rest[0] == '`';
    StartsWithNext("`" + name, rest);
    ContainsMiddle(head, outputs, ".");
  }

  /* ---------------------------------------------------------------------------------------- */
  /* `_default_non_functional_requirements`                                                   */
  /* ---------------------------------------------------------------------------------------- */

  /** The four concerns a constraint text can raise, in the order they are listed. */
  datatype Concern = Performance | Reliability | Security | Maintainability {
    /** The lower-case words that raise the concern. */
    function Tokens(): seq<string> {
      match this
      case Performance => ["performance", "latency", "throughput", "fast"]
      case Reliability => ["reliable", "availability", "uptime", "fault"]
      case Security => ["security", "auth", "encryption", "privacy"]
      case Maintainability => ["maintain", "readable", "modular", "test"]
    }

    /** The requirement listed when the concern is raised. */
    function Item(): string {
      match this
      case Performance => "Performance: Must satisfy declared " + "performance expectations."
      case Reliability => "Reliability: Must handle errors " + "predictably and recover safely."
      case Security => "Security: Must enforce relevant " + "security controls and data protections."
      case Maintainability => "Maintainability: Code and interfaces " + "must remain testable and maintainable."
    }

    /** The position of the concern in the listing order. */
    function Rank(): nat {
      match this
      case Performance => 0
      case Reliability => 1
      case Security => 2
      case Maintainability => 3
    }
  }

  /** The concerns in the order the requirements are appended. */
  const Concerns: seq<Concern> := [Performance, Reliability, Security, Maintainability]

  /** The requirement listed when no concern is raised. */
  const DefaultRequirement := "Maintainability: Implementation must " + "remain testable and readable."

  /** `any(token in lowered for token in tokens)` */
  predicate Raised(lowered: string, c: Concern) {
    exists k :: 0 <= k < |c.Tokens()| && Contains(lowered, c.Tokens()[k])
  }

  /** The concerns among the first `n` listed that the lowered text raises, in listing order. */
  function RaisedUpTo(lowered: string, n: nat): seq<Concern>
    requires n <= |Concerns|
  {
    if n == 0 then []
    else RaisedUpTo(lowered, n - 1) + (if Raised(lowered, Concerns[n - 1]) then [Concerns[n - 1]] else [])
  }

  /** The items of the requirements for the given concerns. */
  function Items(cs: seq<Concern>): seq<string> {
    seq(|cs|, i requires 0 <= i < |cs| => cs[i].Item())
  }

  /** The requirements `_default_non_functional_requirements(constraints)` returns. */
  function NonFunctionalRequirements(constraints: string): seq<string> {
    var raised := RaisedUpTo(Lower(constraints), |Concerns|);
    if raised == [] then [DefaultRequirement] else Items(raised)
  }

  /** `_default_non_functional_requirements`: one conditional append per concern, then the
      default when nothing was appended. */
  method DefaultNonFunctionalRequirements(constraints: string) returns (items: seq<string>)
    ensures items == NonFunctionalRequirements(constraints)
  {
    items := [];
    var lowered := Lower(constraints);
    items := AppendIfRaised(items, lowered, Performance);
    items := AppendIfRaised(items, lowered, Reliability);
    items := AppendIfRaised(items, lowered, Security);
    items := AppendIfRaised(items, lowered, Maintainability);
    if items == [] {
      items := items + [DefaultRequirement];
    }
  }

  /** One `if any(token in lowered for token in ...): items.append(...)` step, for the concern
      listed after those whose items `items` already holds. */
  method AppendIfRaised(items: seq<string>, lowered: string, c: Concern) returns (r: seq<string>)
    requires items == Items(RaisedUpTo(lowered, c.Rank()))
    ensures r == Items(RaisedUpTo(lowered, c.Rank() + 1))
  {
    RaisedUpToStep(lowered, c);
    r := items;
    if Raised(lowered, c) {
      r := r + [c.Item()];
      ItemsSnoc(RaisedUpTo(lowered, c.Rank()), c);
    }
  }

  /** Taking one more concern into account appends it exactly when it is raised. */
  lemma RaisedUpToStep(lowered: string, c: Concern)
    ensures RaisedUpTo(lowered, c.Rank() + 1)
      == RaisedUpTo(lowered, c.Rank()) + (if Raised(lowered, c) then [c] else [])
  {
    assert Concerns[c.Rank()] == c;
  }

  /** The items of a list of concerns grown by one. */
  lemma ItemsSnoc(cs: seq<Concern>, c: Concern)
    ensures Items(cs + [c]) == Items(cs) + [c.Item()]
  {
  }

  /** Between one and four requirements; the default alone exactly when no concern is raised,
      otherwise the items of the raised concerns. */
  lemma NonFunctionalRequirementsShape(constraints: string)
    ensures var r := NonFunctionalRequirements(constraints); var lowered := Lower(constraints);
      && 1 <= |r| <= 4
      && (r == [DefaultRequirement] <==> forall c: Concern :: !Raised(lowered, c))
      && (r == [DefaultRequirement] || r == Items(RaisedUpTo(lowered, 4)))
  {
    var lowered := Lower(constraints);
    var raised := RaisedUpTo(lowered, 4);
    RaisedUpToSpec(lowered, 4);
    NoneRaised(lowered);
    if raised != [] {
      NotDefault(raised);
    }
  }

  /** Nothing is raised among all four concerns exactly when no concern is raised. */
  lemma NoneRaised(lowered: string)
    ensures RaisedUpTo(lowered, 4) == [] <==> forall c: Concern :: !Raised(lowered, c)
  {
    var raised := RaisedUpTo(lowered, 4);
    RaisedUpToSpec(lowered, 4);
    if raised != [] {
      assert raised[0] in raised;
    }
  }

  /** A concern's item is listed exactly when the constraints raise the concern. */
  lemma NonFunctionalRequirementsMembers(constraints: string, c: Concern)
    ensures c.Item() in NonFunctionalRequirements(constraints) <==> Raised(Lower(constraints), c)
  {
    var lowered := Lower(constraints);
    var raised := RaisedUpTo(lowered, 4);
    RaisedUpToSpec(lowered, 4);
    if raised == [] {
      ItemNotDefault(c);
    } else {
      ItemsMember(raised, c);
    }
  }

  /** A concern's item is among the items of a list of concerns exactly when the concern is. */
  lemma ItemsMember(cs: seq<Concern>, c: Concern)
    ensures c.Item() in Items(cs) <==> c in cs
  {
    var r := Items(cs);
    if c.Item() in r {
      var i :| 0 <= i < |r| && r[i] == c.Item();
      ItemInjective(cs[i], c);
    }
    if c in cs {
      var i :| 0 <= i < |cs| && cs[i] == c;
      assert r[i] == c.Item();
    }
  }

  /** Items of a non-empty list of concerns are not the default list. */
  lemma NotDefault(cs: seq<Concern>)
    requires cs != []
    ensures Items(cs) != [DefaultRequirement]
  {
    ItemNotDefault(cs[0]);
    assert Items(cs)[0] == cs[0].Item();
  }

  /** The raised concerns among the first `n` are exactly those raised, in ascending rank, and
      there are at most `n` of them. */
  lemma {:induction false} RaisedUpToSpec(lowered: string, n: nat)
    requires n <= |Concerns|
    ensures |RaisedUpTo(lowered, n)| <= n
    ensures forall c :: c in RaisedUpTo(lowered, n) <==> c.Rank() < n && Raised(lowered, c)
    ensures forall i, j :: 0 <= i < j < |RaisedUpTo(lowered, n)| ==>
      RaisedUpTo(lowered, n)[i].Rank() < RaisedUpTo(lowered, n)[j].Rank()
    ensures forall i :: 0 <= i < |RaisedUpTo(lowered, n)| ==> RaisedUpTo(lowered, n)[i].Rank() < n
    decreases n
  {
    if n > 0 {
      RaisedUpToSpec(lowered, n - 1);
      var c := Concerns[n - 1];
      assert c.Rank() == n - 1;
      forall d: Concern | d.Rank() == n - 1 ensures d == c {
      }
    }
  }

  /** No concern's item is the default requirement. */
  lemma ItemNotDefault(c: Concern)
    ensures c.Item() != DefaultRequirement
  {
  }

  /** Different concerns have different items. */
  lemma ItemInjective(c: Concern, d: Concern)
    requires c.Item() == d.Item()
    ensures c == d
  {
    ItemInitial(c);
    ItemInitial(d);
  }

  /** Each concern's item starts with the initial of the concern's name. */
  lemma ItemInitial(c: Concern)
    ensures c.Item() != []
    ensures c.Item()[0] == match c
      case Performance => 'P' case Reliability => 'R' case Security => 'S' case Maintainability => 'M'
  {
  }

  /* ---------------------------------------------------------------------------------------- */
  /* `render_spec_markdown`                                                                   */
  /* ---------------------------------------------------------------------------------------- */

  /** One heading of the document with the list under it: `items` rendered as `- item` lines,
      or as `1. item`, `2. item`, ... when `numbered`, and a blank line after when `gap`. */
  datatype Section = Section(heading: string, items: seq<string>, numbered: bool, gap: bool)

  /** `[f"- {item}" for item in items]` */
  function Bullets(items: seq<string>): seq<string> {
    seq(|items|, i requires 0 <= i < |items| => "- " + items[i])
  }

  /** `[f"{idx}. {item}" for idx, item in enumerate(items, start=1)]` */
  function Numbered(items: seq<string>): seq<string> {
    seq(|items|, i requires 0 <= i < |items| => NatToString(i + 1) + ". " + items[i])
  }

  /** The lines of one section. */
  function SectionLines(s: Section): seq<string> {
    [s.heading] + ListLines(s) + GapLines(s)
  }

  /** The item lines of a section, numbered or bulleted. */
  function ListLines(s: Section): seq<string> {
    if s.numbered then Numbered(s.items) else Bullets(s.items)
  }

  /** The blank line after a section's items, when it has one. */
  function GapLines(s: Section): seq<string> {
    if s.gap then [""] else []
  }

  /** The lines of the sections, one after another. */
  function Flatten(ss: seq<Section>): seq<string> {
    if ss == [] then [] else Flatten(ss[..|ss| - 1]) + SectionLines(ss[|ss| - 1])
  }

  /** The text the in-scope bullets are split from. */
  function InScopeText(projectType: string, goal: string, users: string): string {
    "Deliver core " + projectType + " behavior aligned to goal: " + goal + ". "
    + "Support primary user group: " + users + ". "
    + "Handle defined inputs and produce " + "defined outputs."
  }

  /** The two fixed assumptions. */
  const Assumptions: seq<string> := [
    "User-provided answers are accurate " + "and complete at generation time.",
    "Requirements may require refinement " + "if domain constraints change."]

  /** The list under each heading of the document. */
  datatype Lists = Lists(
    overview: seq<string>,
    problem: seq<string>,
    inScope: seq<string>,
    outOfScope: seq<string>,
    functional: seq<string>,
    nonFunctional: seq<string>,
    inputs: seq<string>,
    outputs: seq<string>,
    constraints: seq<string>,
    assumptions: seq<string>,
    acceptance: seq<string>)

  /** The eight `.value` strings, all that `render_spec_markdown` reads of a draft. */
  datatype Values = Values(name: string, projectType: string, goal: string, users: string,
                           inputs: string, outputs: string, constraints: string, nonGoals: string)

  function ValuesOf(d: Draft): Values {
    Values(d.projectName.value, d.projectType.value, d.primaryGoal.value, d.targetUsers.value,
           d.inputs.value, d.outputs.value, d.constraints.value, d.nonGoals.value)
  }

  /** The lists `render_spec_markdown` computes from the eight values. */
  function ValueLists(v: Values): Lists {
    Lists(
      [ "Project Name: " + v.name, "Project Type: " + v.projectType,
        "Primary Goal: " + v.goal, "Target Users: " + v.users ],
      ["The current workflow does not reliably " + "satisfy this objective: " + v.goal + "."],
      SplitToBullets(InScopeText(v.projectType, v.goal, v.users)),
      SplitToBullets(v.nonGoals),
      FunctionalRequirements(v.inputs, v.outputs, v.goal),
      NonFunctionalRequirements(v.constraints),
      [v.inputs],
      [v.outputs],
      [v.constraints],
      Assumptions,
      AcceptanceCriteria(v.name, v.outputs))
  }

  /** The lists `render_spec_markdown(draft)` computes. */
  function DraftLists(d: Draft): Lists {
    ValueLists(ValuesOf(d))
  }

  /** The sections of the document, in the order `render_spec_markdown` writes them. */
  function Layout(l: Lists): seq<Section> {
    [ Section("# Project Specification", [], false, true),
      Section("## 1. Overview", l.overview, false, true),
      Section("## 2. Problem Statement", l.problem, false, true),
      Section("## 3. Scope", [], false, false),
      Section("### In Scope", l.inScope, false, true),
      Section("### Out of Scope", l.outOfScope, false, true),
      Section("## 4. Functional Requirements", l.functional, true, true),
      Section("## 5. Non-Functional Requirements", l.nonFunctional, false, true),
      Section("## 6. Inputs", l.inputs, false, true),
      Section("## 7. Outputs", l.outputs, false, true),
      Section("## 8. Constraints", l.constraints, false, true),
      Section("## 9. Assumptions", l.assumptions, false, true),
      Section("## 10. Acceptance Criteria", l.acceptance, false, false) ]
  }

  /** The sections `render_spec_markdown(draft)` lays out. */
  function Sections(d: Draft): seq<Section> {
    Layout(DraftLists(d))
  }

  /** The `sections` list of lines. */
  function RenderLines(d: Draft): seq<string> {
    Flatten(Sections(d))
  }

  /** `render_spec_markdown(draft)`: the lines joined by line breaks, plus a final one. */
  function Render(d: Draft): string {
    Join("\n", RenderLines(d)) + "\n"
  }

  /* ---------------------------------------------------------------------------------------- */
  /* Headings                                                                                 */
  /* ---------------------------------------------------------------------------------------- */

  /** The headings of the sections, in order. */
  function HeadingsOf(ss: seq<Section>): (hs: seq<string>)
    ensures |hs| == |ss|
    ensures forall i :: 0 <= i < |ss| ==> hs[i] == ss[i].heading
  {
    if ss == [] then [] else HeadingsOf(ss[..|ss| - 1]) + [ss[|ss| - 1].heading]
  }

  /** A heading line: no surrounding whitespace, and a leading `#`. */
  predicate HeadingLine(h: string) {
    h != [] && h[0] == '#' && Strip(h) == h
  }

  /** A line that starts with a character that is neither whitespace nor `#`. */
  predicate PlainStart(line: string) {
    line != [] && !IsSpace(line[0]) && line[0] != '#'
  }

  /** Lines that all start plainly hold no heading. */
  lemma {:induction false} NoHeadings(lines: seq<string>)
    requires forall i :: 0 <= i < |lines| ==> PlainStart(lines[i])
    ensures Headings(lines) == []
    decreases |lines|
  {
    if lines != [] {
      var n := |lines| - 1;
      NoHeadings(lines[..n]);
      StripFirst(lines[n]);
    }
  }

  /** Every bullet and numbered line starts with `-` or a digit. */
  lemma ListLinesPlain(s: Section)
    ensures var list := ListLines(s);
      forall i :: 0 <= i < |list| ==> PlainStart(list[i])
  {
    var list := ListLines(s);
    forall i | 0 <= i < |list| ensures PlainStart(list[i]) {
      if s.numbered {
        var digits := NatToString(i + 1);
        assert list[i] == digits + (". " + s.items[i]);
        assert list[i][0] == digits[0];
      }
    }
  }

  /** The only heading of a section is its own. */
  lemma SectionHeadings(s: Section)
    requires HeadingLine(s.heading)
    ensures Headings(SectionLines(s)) == [s.heading]
  {
    var list := ListLines(s);
    var tail := GapLines(s);
    assert SectionLines(s) == ([s.heading] + list) + tail;
    ListHeadingsNone(s);
    NoHeadingInBlank(tail);
    HeadingsAppend([s.heading] + list, tail);
    HeadingsAppend([s.heading], list);
    OneHeading(s.heading);
  }

  /** The list lines of a section hold no heading. */
  lemma ListHeadingsNone(s: Section)
    ensures Headings(ListLines(s)) == []
  {
    ListLinesPlain(s);
    NoHeadings(ListLines(s));
  }

  /** A heading line on its own is its only heading. */
  lemma OneHeading(h: string)
    requires HeadingLine(h)
    ensures Headings([h]) == [h]
  {
    assert [h][..0] == [];
  }

  /** A blank gap holds no heading. */
  lemma NoHeadingInBlank(tail: seq<string>)
    requires tail == [] || tail == [""]
    ensures Headings(tail) == []
  {
    if tail == [""] {
      assert tail[..0] == [];
      assert Strip("") == "";
    }
  }

  lemma {:induction false} FlattenHeadings(ss: seq<Section>)
    requires forall i :: 0 <= i < |ss| ==> HeadingLine(ss[i].heading)
    ensures Headings(Flatten(ss)) == HeadingsOf(ss)
    decreases |ss|
  {
    if ss != [] {
      var n := |ss| - 1;
      FlattenHeadings(ss[..n]);
      HeadingsAppend(Flatten(ss[..n]), SectionLines(ss[n]));
      SectionHeadings(ss[n]);
    }
  }

  /** Whatever the lists, the headings of the laid-out document are exactly the expected ones,
      in order. */
  lemma LayoutHeadings(l: Lists)
    ensures Headings(Flatten(Layout(l))) == ExpectedHeadings
  {
    var ss := Layout(l);
    HeadingsTrimmed();
    assert HeadingsOf(ss) == ExpectedHeadings;
    FlattenHeadings(ss);
  }

  /** The headings of every rendered draft are exactly the expected ones, in order. */
  lemma RenderedHeadings(d: Draft)
    ensures Headings(RenderLines(d)) == ExpectedHeadings
  {
    LayoutHeadings(DraftLists(d));
  }

  /* ---------------------------------------------------------------------------------------- */
  /* Render, then validate                                                                    */
  /* ---------------------------------------------------------------------------------------- */

  /** A text without a line break. */
  predicate NoBreak(s: string) {
    forall i :: 0 <= i < |s| ==> s[i] != '\n'
  }

  /** List items that make allowed lines: each has content, and none breaks the line. */
  predicate ItemsOk(items: seq<string>) {
    forall k :: 0 <= k < |items| ==> !IsBlank(items[k]) && NoBreak(items[k])
  }

  /** Lines the validator accepts one by one, and that survive joining and splitting. */
  predicate LinesOk(lines: seq<string>) {
    forall i :: 0 <= i < |lines| ==> !Offending(lines[i]) && NoBreak(lines[i])
  }

  /** A bullet with content is allowed. */
  lemma BulletAllowed(x: string)
    requires !IsBlank(x)
    ensures !Offending("- " + x)
  {
    StripHead("- ", x);
  }

  /** A numbered item with content is allowed. */
  lemma NumberedAllowed(n: nat, x: string)
    requires !IsBlank(x)
    ensures !Offending(NatToString(n) + ". " + x)
  {
    var digits := NatToString(n);
    var head := digits + ". ";
    assert head + x == NatToString(n) + ". " + x;
    StripHead(head, x);
    var line := Strip(head + x);
    assert line == digits + line[|digits|..] by {
      assert line[..|head|] == head;
    }
    assert line[|digits|..][0] == '.';
    DigitRunAfterDigits(digits, line[|digits|..]);
  }

  /** The lines of a well-formed section are accepted. */
  lemma SectionLinesOk(s: Section)
    requires HeadingLine(s.heading) && NoBreak(s.heading)
    requires ItemsOk(s.items)
    ensures LinesOk(SectionLines(s))
  {
    var lines := SectionLines(s);
    SectionLinesIndex(s);
    forall i | 0 <= i < |lines| ensures !Offending(lines[i]) && NoBreak(lines[i]) {
      if i == 0 {
      } else if i <= |s.items| {
        ItemLineOk(s, i - 1);
      } else {
        assert lines[i] == "";
      }
    }
  }

  /** Where the heading, the items and the blank line sit among a section's lines. */
  lemma SectionLinesIndex(s: Section)
    ensures |ListLines(s)| == |s.items|
    ensures |SectionLines(s)| == 1 + |s.items| + |GapLines(s)|
    ensures SectionLines(s)[0] == s.heading
    ensures forall k :: 0 <= k < |s.items| ==> SectionLines(s)[k + 1] == ListLines(s)[k]
    ensures forall i :: 1 + |s.items| <= i < |SectionLines(s)| ==> SectionLines(s)[i] == ""
  {
  }

  /** The line of the item at index `k` of a section is accepted. */
  lemma ItemLineOk(s: Section, k: nat)
    requires k < |s.items| && ItemsOk(s.items)
    ensures !Offending(ListLines(s)[k]) && NoBreak(ListLines(s)[k])
  {
    var x := s.items[k];
    if s.numbered {
      assert ListLines(s)[k] == NatToString(k + 1) + ". " + x;
      NumberedLineOk(k + 1, x);
    } else {
      assert ListLines(s)[k] == "- " + x;
      BulletLineOk(x);
    }
  }

  lemma BulletLineOk(x: string)
    requires !IsBlank(x) && NoBreak(x)
    ensures !Offending("- " + x) && NoBreak("- " + x)
  {
    BulletAllowed(x);
    NoBreakJoin("- ", x);
  }

  lemma NumberedLineOk(n: nat, x: string)
    requires !IsBlank(x) && NoBreak(x)
    ensures !Offending(NatToString(n) + ". " + x) && NoBreak(NatToString(n) + ". " + x)
  {
    var digits := NatToString(n);
    NumberedAllowed(n, x);
    assert NoBreak(digits) by {
      forall i | 0 <= i < |digits| ensures digits[i] != '\n' {
        assert IsDigit(digits[i]);
      }
    }
    NoBreakJoin(digits, ". ");
    NoBreakJoin(digits + ". ", x);
  }

  lemma {:induction false} FlattenOk(ss: seq<Section>)
    requires forall i :: 0 <= i < |ss| ==> HeadingLine(ss[i].heading) && NoBreak(ss[i].heading)
    requires forall i :: 0 <= i < |ss| ==> ItemsOk(ss[i].items)
    ensures LinesOk(Flatten(ss))
    decreases |ss|
  {
    if ss != [] {
      var n := |ss| - 1;
      FlattenOk(ss[..n]);
      SectionLinesOk(ss[n]);
    }
  }

  /** The first line of the document is the heading of the first section. */
  lemma {:induction false} FlattenFirst(ss: seq<Section>)
    requires ss != []
    ensures Flatten(ss) != [] && Flatten(ss)[0] == ss[0].heading
    decreases |ss|
  {
    if |ss| > 1 {
      FlattenFirst(ss[..|ss| - 1]);
    }
  }

  /** Lists whose items all make allowed lines. */
  predicate ListsOk(l: Lists) {
    && ItemsOk(l.overview) && ItemsOk(l.problem) && ItemsOk(l.inScope) && ItemsOk(l.outOfScope)
    && ItemsOk(l.functional) && ItemsOk(l.nonFunctional) && ItemsOk(l.inputs)
    && ItemsOk(l.outputs) && ItemsOk(l.constraints) && ItemsOk(l.assumptions)
    && ItemsOk(l.acceptance)
  }

  /** No expected heading holds a line break. */
  lemma HeadingsUnbroken()
    ensures forall i :: 0 <= i < |ExpectedHeadings| ==> NoBreak(ExpectedHeadings[i])
  {
    FirstHeadingsUnbroken();
    MiddleHeadingsUnbroken();
    LastHeadingsUnbroken();
  }

  lemma FirstHeadingsUnbroken()
    ensures forall i :: 0 <= i < 5 ==> NoBreak(ExpectedHeadings[i])
  {
  }

  lemma MiddleHeadingsUnbroken()
    ensures forall i :: 5 <= i < 9 ==> NoBreak(ExpectedHeadings[i])
  {
  }

  lemma LastHeadingsUnbroken()
    ensures forall i :: 9 <= i < 13 ==> NoBreak(ExpectedHeadings[i])
  {
  }

  /** Every laid-out section has a heading line and, given lists that make allowed lines,
      items that do. */
  lemma LayoutSectionsOk(l: Lists)
    requires ListsOk(l)
    ensures var ss := Layout(l);
      && (forall i :: 0 <= i < |ss| ==> HeadingLine(ss[i].heading) && NoBreak(ss[i].heading))
      && (forall i :: 0 <= i < |ss| ==> ItemsOk(ss[i].items))
  {
    var ss := Layout(l);
    HeadingsTrimmed();
    HeadingsUnbroken();
    assert HeadingsOf(ss) == ExpectedHeadings;
  }

  /** Laid out under the fixed headings, lists whose items make allowed lines pass the
      validator. */
  lemma LayoutValid(l: Lists)
    requires ListsOk(l)
    ensures Validation(Join("\n", Flatten(Layout(l))) + "\n") == []
  {
    var ss := Layout(l);
    var lines := Flatten(ss);
    var content := Join("\n", lines) + "\n";
    LayoutSectionsOk(l);
    FlattenOk(ss);
    FlattenFirst(ss);
    JoinLines(lines);
    SplitUnlines(lines);
    assert SplitLines(content) == lines;
    FirstNonBlankIs(lines, 0, 0);
    LayoutHeadings(l);
    ValidIff(content);
  }

  /** Joining texts without breaks gives a text without breaks. */
  lemma NoBreakJoin(a: string, b: string)
    requires NoBreak(a) && NoBreak(b)
    ensures NoBreak(a + b)
  {
    assert forall i :: |a| <= i < |a + b| ==> (a + b)[i] == b[i - |a|];
  }

  /** A text that starts with a non-space character has content, whatever follows. */
  lemma NotBlankStart(a: string, b: string)
    requires a != [] && !IsSpace(a[0])
    ensures !IsBlank(a + b)
  {
    assert (a + b)[0] == a[0];
  }

  /** A labelled value: a text that starts with a non-space label and holds no break. */
  lemma LabelledOk(prefix: string, x: string)
    requires prefix != [] && !IsSpace(prefix[0]) && NoBreak(prefix) && NoBreak(x)
    ensures !IsBlank(prefix + x) && NoBreak(prefix + x)
  {
    NotBlankStart(prefix, x);
    NoBreakJoin(prefix, x);
  }

  /** The items `_split_to_bullets` returns have content, and no break when the value has
      none. */
  lemma SplitToBulletsOk(value: string)
    requires NoBreak(value)
    ensures ItemsOk(SplitToBullets(value))
  {
    var items := SplitToBullets(value);
    SplitToBulletsSpec(value);
    forall k | 0 <= k < |items| ensures !IsBlank(items[k]) && NoBreak(items[k]) {
      StripEmptyIffBlank(items[k]);
      if items == [NoneSpecified] {
        assert NoBreak(NoneSpecified);
      } else {
        assert exists i :: 0 <= i < |value| && !IsSeparator(value[i]);
        forall m | 0 <= m < |items[k]| ensures items[k][m] != '\n' {
          assert items[k][m] in value;
        }
      }
    }
  }

  /* The fixed texts. Each of the following lemmas checks a few of them character by
     character, which keeps every such proof small. */

  lemma OverviewTextsOk()
    ensures "Project Name: " != [] && !IsSpace("Project Name: "[0]) && NoBreak("Project Name: ")
    ensures "Project Type: " != [] && !IsSpace("Project Type: "[0]) && NoBreak("Project Type: ")
    ensures "Primary Goal: " != [] && !IsSpace("Primary Goal: "[0]) && NoBreak("Primary Goal: ")
    ensures "Target Users: " != [] && !IsSpace("Target Users: "[0]) && NoBreak("Target Users: ")
  {
  }

  lemma ProblemTextsOk()
    ensures var p := "The current workflow does not reliably ";
      p != [] && !IsSpace(p[0]) && NoBreak(p)
    ensures NoBreak("satisfy this objective: ") && NoBreak(".")
  {
  }

  lemma InScopeTextsOk()
    ensures NoBreak("Deliver core ") && NoBreak(" behavior aligned to goal: ") && NoBreak(". ")
    ensures NoBreak("Support primary user group: ")
    ensures NoBreak("Handle defined inputs and produce ") && NoBreak("defined outputs.")
  {
  }

  lemma ShallTextsOk()
    ensures Shall != [] && !IsSpace(Shall[0]) && NoBreak(Shall)
    ensures NoBreak("accept and validate the defined inputs: ")
  {
  }

  lemma FunctionalTextsOk()
    ensures NoBreak("produce outputs in the defined format: ")
    ensures NoBreak("implement behavior that directly ") && NoBreak("supports this goal: ")
  {
  }

  lemma DeterminismTextsOk()
    ensures NoBreak("return deterministic results ") && NoBreak("for identical valid inputs.")
  {
  }

  lemma PerformanceTextsOk()
    ensures var p := "Performance: Must satisfy declared ";
      p != [] && !IsSpace(p[0]) && NoBreak(p)
    ensures NoBreak("performance expectations.")
  {
  }

  lemma ReliabilityTextsOk()
    ensures var p := "Reliability: Must handle errors ";
      p != [] && !IsSpace(p[0]) && NoBreak(p)
    ensures NoBreak("predictably and recover safely.")
  {
  }

  lemma SecurityTextsOk()
    ensures var p := "Security: Must enforce relevant ";
      p != [] && !IsSpace(p[0]) && NoBreak(p)
    ensures NoBreak("security controls and data protections.")
  {
  }

  lemma MaintainabilityTextsOk()
    ensures var p := "Maintainability: Code and interfaces ";
      p != [] && !IsSpace(p[0]) && NoBreak(p)
    ensures NoBreak("must remain testable and maintainable.")
  {
  }

  lemma DefaultTextsOk()
    ensures var p := "Maintainability: Implementation must ";
      p != [] && !IsSpace(p[0]) && NoBreak(p)
    ensures NoBreak("remain testable and readable.")
  {
  }

  lemma AccurateTextsOk()
    ensures var p := "User-provided answers are accurate ";
      p != [] && !IsSpace(p[0]) && NoBreak(p)
    ensures NoBreak("and complete at generation time.")
  {
  }

  lemma RefinementTextsOk()
    ensures var p := "Requirements may require refinement ";
      p != [] && !IsSpace(p[0]) && NoBreak(p)
    ensures NoBreak("if domain constraints change.")
  {
  }

  lemma OutputTextsOk()
    ensures "`" != [] && !IsSpace("`"[0]) && NoBreak("`")
    ensures NoBreak("` generates the expected output: ")
  {
  }

  lemma FieldsTextsOk()
    ensures var p := "All required fields are present ";
      p != [] && !IsSpace(p[0]) && NoBreak(p)
    ensures NoBreak("and non-ambiguous in the generated ") && NoBreak("specification.")
  {
  }

  lemma OrderTextsOk()
    ensures var p := "The specification follows the ";
      p != [] && !IsSpace(p[0]) && NoBreak(p)
    ensures NoBreak("mandated section order and headings.")
  {
  }

  /** The overview bullets have content and no break when the values have none. */
  lemma OverviewOk(name: string, projectType: string, goal: string, users: string)
    requires NoBreak(name) && NoBreak(projectType) && NoBreak(goal) && NoBreak(users)
    ensures ItemsOk([ "Project Name: " + name, "Project Type: " + projectType,
                      "Primary Goal: " + goal, "Target Users: " + users ])
  {
    OverviewTextsOk();
    LabelledOk("Project Name: ", name);
    LabelledOk("Project Type: ", projectType);
    LabelledOk("Primary Goal: ", goal);
    LabelledOk("Target Users: ", users);
  }

  /** The problem statement has content and no break when the goal has none. */
  lemma ProblemOk(goal: string)
    requires NoBreak(goal)
    ensures ItemsOk(["The current workflow does not reliably " + "satisfy this objective: " + goal + "."])
  {
    ProblemTextsOk();
    var opening := "The current workflow does not reliably ";
    LabelledOk(opening, "satisfy this objective: ");
    LabelledOk(opening + "satisfy this objective: ", goal);
    LabelledOk(opening + "satisfy this objective: " + goal, ".");
  }

  /** The in-scope text has no break when the values it quotes have none. */
  lemma InScopeTextOk(projectType: string, goal: string, users: string)
    requires NoBreak(projectType) && NoBreak(goal) && NoBreak(users)
    ensures NoBreak(InScopeText(projectType, goal, users))
  {
    InScopeTextsOk();
    var a := "Deliver core " + projectType;
    NoBreakJoin("Deliver core ", projectType);
    NoBreakJoin(a, " behavior aligned to goal: ");
    NoBreakJoin(a + " behavior aligned to goal: ", goal);
    var b := a + " behavior aligned to goal: " + goal;
    NoBreakJoin(b, ". ");
    NoBreakJoin(b + ". ", "Support primary user group: ");
    NoBreakJoin(b + ". " + "Support primary user group: ", users);
    var c := b + ". " + "Support primary user group: " + users;
    NoBreakJoin(c, ". ");
    NoBreakJoin("Handle defined inputs and produce ", "defined outputs.");
    NoBreakJoin(c + ". ", "Handle defined inputs and produce " + "defined outputs.");
  }

  /** The functional requirements have content, and no break when the values have none. */
  lemma FunctionalOk(inputs: string, outputs: string, goal: string)
    requires NoBreak(inputs) && NoBreak(outputs) && NoBreak(goal)
    ensures ItemsOk(FunctionalRequirements(inputs, outputs, goal))
  {
    ShallTextsOk();
    FunctionalTextsOk();
    DeterminismTextsOk();
    ProblemTextsOk();
    var a := Shall + "accept and validate the defined inputs: ";
    var b := Shall + "produce outputs in the defined format: ";
    var c := Shall + "implement behavior that directly " + "supports this goal: ";
    LabelledOk(Shall, "accept and validate the defined inputs: ");
    LabelledOk(Shall, "produce outputs in the defined format: ");
    LabelledOk(Shall, "implement behavior that directly ");
    LabelledOk(Shall + "implement behavior that directly ", "supports this goal: ");
    LabelledOk(Shall, "return deterministic results ");
    LabelledOk(Shall + "return deterministic results ", "for identical valid inputs.");
    LabelledOk(a, inputs);
    LabelledOk(b, outputs);
    LabelledOk(c, goal);
    LabelledOk(a + inputs, ".");
    LabelledOk(b + outputs, ".");
    LabelledOk(c + goal, ".");
  }

  /** Every requirement a concern can raise has content and no break. */
  lemma ConcernItemOk(c: Concern)
    ensures !IsBlank(c.Item()) && NoBreak(c.Item())
  {
    match c
    case Performance =>
      PerformanceTextsOk();
      LabelledOk("Performance: Must satisfy declared ", "performance expectations.");
    case Reliability =>
      ReliabilityTextsOk();
      LabelledOk("Reliability: Must handle errors ", "predictably and recover safely.");
    case Security =>
      SecurityTextsOk();
      LabelledOk("Security: Must enforce relevant ", "security controls and data protections.");
    case Maintainability =>
      MaintainabilityTextsOk();
      LabelledOk("Maintainability: Code and interfaces ", "must remain testable and maintainable.");
  }

  /** The non-functional requirements have content and no break. */
  lemma NonFunctionalOk(constraints: string)
    ensures ItemsOk(NonFunctionalRequirements(constraints))
  {
    var r := NonFunctionalRequirements(constraints);
    var raised := RaisedUpTo(Lower(constraints), |Concerns|);
    if raised == [] {
      DefaultTextsOk();
      LabelledOk("Maintainability: Implementation must ", "remain testable and readable.");
    } else {
      forall k | 0 <= k < |r| ensures !IsBlank(r[k]) && NoBreak(r[k]) {
        ConcernItemOk(raised[k]);
      }
    }
  }

  /** The fixed assumptions have content and no break. */
  lemma AssumptionsOk()
    ensures ItemsOk(Assumptions)
  {
    AccurateTextsOk();
    RefinementTextsOk();
    LabelledOk("User-provided answers are accurate ", "and complete at generation time.");
    LabelledOk("Requirements may require refinement ", "if domain constraints change.");
  }

  /** The acceptance criteria have content, and no break when the name and the outputs have
      none. */
  lemma AcceptanceOk(name: string, outputs: string)
    requires NoBreak(name) && NoBreak(outputs)
    ensures ItemsOk(AcceptanceCriteria(name, outputs))
  {
    OutputTextsOk();
    FieldsTextsOk();
    OrderTextsOk();
    ProblemTextsOk();
    var quoted := "`" + name + "` generates the expected output: ";
    LabelledOk("`", name);
    LabelledOk("`" + name, "` generates the expected output: ");
    LabelledOk(quoted, outputs);
    LabelledOk(quoted + outputs, ".");
    var fields := "All required fields are present " + "and non-ambiguous in the generated ";
    LabelledOk("All required fields are present ", "and non-ambiguous in the generated ");
    LabelledOk(fields, "specification.");
    LabelledOk("The specification follows the ", "mandated section order and headings.");
  }

  /** A draft the renderer turns into a valid document: no value breaks a line, and the three
      values rendered as bare bullets have content. */
  predicate Renderable(d: Draft) {
    && NoBreak(d.projectName.value) && NoBreak(d.projectType.value)
    && NoBreak(d.primaryGoal.value) && NoBreak(d.targetUsers.value)
    && NoBreak(d.inputs.value) && NoBreak(d.outputs.value)
    && NoBreak(d.constraints.value) && NoBreak(d.nonGoals.value)
    && !IsBlank(d.inputs.value) && !IsBlank(d.outputs.value) && !IsBlank(d.constraints.value)
  }

  /** The lists of the overview and the scope make allowed lines. */
  lemma OpeningListsOk(d: Draft)
    requires Renderable(d)
    ensures var l := DraftLists(d);
      ItemsOk(l.overview) && ItemsOk(l.problem) && ItemsOk(l.inScope) && ItemsOk(l.outOfScope)
  {
    var projectType, goal, users := d.projectType.value, d.primaryGoal.value, d.targetUsers.value;
    OverviewOk(d.projectName.value, projectType, goal, users);
    ProblemOk(goal);
    InScopeTextOk(projectType, goal, users);
    SplitToBulletsOk(InScopeText(projectType, goal, users));
    SplitToBulletsOk(d.nonGoals.value);
  }

  /** The lists of the functional and non-functional requirements make allowed lines. */
  lemma RequirementListsOk(d: Draft)
    requires Renderable(d)
    ensures var l := DraftLists(d);
      ItemsOk(l.functional) && ItemsOk(l.nonFunctional)
  {
    FunctionalOk(d.inputs.value, d.outputs.value, d.primaryGoal.value);
    NonFunctionalOk(d.constraints.value);
  }

  /** The one-item lists of the inputs, outputs and constraints make allowed lines. */
  lemma SuppliedListsOk(d: Draft)
    requires Renderable(d)
    ensures var l := DraftLists(d);
      ItemsOk(l.inputs) && ItemsOk(l.outputs) && ItemsOk(l.constraints)
  {
    SingleOk(d.inputs.value);
    SingleOk(d.outputs.value);
    SingleOk(d.constraints.value);
  }

  /** A list of one non-blank, unbroken value makes an allowed line. */
  lemma SingleOk(x: string)
    requires !IsBlank(x) && NoBreak(x)
    ensures ItemsOk([x])
  {
  }

  /** The lists of the assumptions and the acceptance criteria make allowed lines. */
  lemma ClosingListsOk(d: Draft)
    requires Renderable(d)
    ensures var l := DraftLists(d);
      ItemsOk(l.assumptions) && ItemsOk(l.acceptance)
  {
    AssumptionsOk();
    AcceptanceOk(d.projectName.value, d.outputs.value);
  }

  /** Render, then validate: a renderable draft's document passes the validator with no
      error. */
  lemma RenderValid(d: Draft)
    requires Renderable(d)
    ensures Validation(Render(d)) == []
  {
    OpeningListsOk(d);
    RequirementListsOk(d);
    SuppliedListsOk(d);
    ClosingListsOk(d);
    LayoutValid(DraftLists(d));
  }
  /* ---------------------------------------------------------------------------------------- */
  /* Blocks of the document and its end                                                       */
  /* ---------------------------------------------------------------------------------------- */

  /** The lines of a list of blocks of lines, one block after another. */
  function Concat(blocks: seq<seq<string>>): seq<string> {
    if blocks == [] then [] else Concat(blocks[..|blocks| - 1]) + blocks[|blocks| - 1]
  }

  /** The blocks of lines of the sections. */
  function Blocks(ss: seq<Section>): (bs: seq<seq<string>>)
    ensures |bs| == |ss|
  {
    seq(|ss|, i requires 0 <= i < |ss| => SectionLines(ss[i]))
  }

  /** The lines of the sections are their blocks, one after another. */
  lemma {:induction false} FlattenConcat(ss: seq<Section>)
    ensures Flatten(ss) == Concat(Blocks(ss))
    decreases |ss|
  {
    if ss != [] {
      var n := |ss| - 1;
      FlattenConcat(ss[..n]);
      assert Blocks(ss)[..n] == Blocks(ss[..n]);
    }
  }

  /** Concatenating blocks distributes over appending them. */
  lemma {:induction false} ConcatAppend(a: seq<seq<string>>, b: seq<seq<string>>)
    ensures Concat(a + b) == Concat(a) + Concat(b)
    decreases |b|
  {
    if b == [] {
      assert a + b == a;
    } else {
      var n := |b| - 1;
      ConcatAppend(a, b[..n]);
      assert (a + b)[..|a + b| - 1] == a + b[..n];
    }
  }

  /** Each block appears, in one piece, right after the blocks before it. */
  lemma ConcatBlock(bs: seq<seq<string>>, k: nat)
    requires k < |bs|
    ensures var i := |Concat(bs[..k])|;
      i + |bs[k]| <= |Concat(bs)| && Concat(bs)[i..i + |bs[k]|] == bs[k]
  {
    assert bs == bs[..k] + ([bs[k]] + bs[k + 1..]);
    ConcatAppend(bs[..k], [bs[k]] + bs[k + 1..]);
    ConcatAppend([bs[k]], bs[k + 1..]);
    assert Concat([bs[k]]) == bs[k] by {
      assert [bs[k]][..0] == [];
    }
  }

  /** The lines of each section appear, in one piece, right after the lines of the sections
      before it. */
  lemma SectionBlock(ss: seq<Section>, k: nat)
    requires k < |ss|
    ensures var i, n := |Flatten(ss[..k])|, |SectionLines(ss[k])|;
      i + n <= |Flatten(ss)| && Flatten(ss)[i..i + n] == SectionLines(ss[k])
  {
    var bs := Blocks(ss);
    FlattenConcat(ss);
    FlattenConcat(ss[..k]);
    assert Blocks(ss[..k]) == bs[..k];
    ConcatBlock(bs, k);
  }

  /** `block` occurs in `lines` from index `i` on. */
  predicate BlockAt(lines: seq<string>, i: nat, block: seq<string>) {
    i + |block| <= |lines| && lines[i..i + |block|] == block
  }

  /** `lines` end with `block`. */
  predicate EndsWithBlock(lines: seq<string>, block: seq<string>) {
    |block| <= |lines| && lines[|lines| - |block|..] == block
  }

  /** The index of the first line of section `k`. */
  function SectionStart(ss: seq<Section>, k: nat): nat {
    if k <= |ss| then |Flatten(ss[..k])| else |Flatten(ss)|
  }

  /** The heading of the functional requirements, the four of them numbered `1.` to `4.`, and
      a blank line (only four requirements are ever listed). */
  function FunctionalBlockLines(r: seq<string>): seq<string> {
    if |r| == 4 then
      ["## 4. Functional Requirements", "1. " + r[0], "2. " + r[1], "3. " + r[2], "4. " + r[3], ""]
    else []
  }

  /** The heading of the assumptions, the two fixed bullets, and a blank line. */
  const AssumptionsBlockLines: seq<string> :=
    ["## 9. Assumptions", "- " + Assumptions[0], "- " + Assumptions[1], ""]

  /** The heading of the acceptance criteria and one bullet per criterion (only three criteria
      are ever listed). */
  function AcceptanceBlockLines(a: seq<string>): seq<string> {
    if |a| == 3 then ["## 10. Acceptance Criteria", "- " + a[0], "- " + a[1], "- " + a[2]] else []
  }

  /** Under their heading, four functional requirements become the lines `1.` to `4.`, followed
      by a blank line. */
  lemma LayoutFunctionalBlock(l: Lists, inputs: string, outputs: string, goal: string)
    requires l.functional == FunctionalRequirements(inputs, outputs, goal)
    ensures BlockAt(Flatten(Layout(l)), SectionStart(Layout(l), 6),
      FunctionalBlockLines(FunctionalRequirements(inputs, outputs, goal)))
  {
    var ss := Layout(l);
    assert ss[6] == Section("## 4. Functional Requirements", l.functional, true, true);
    NumberedBlock(ss, 6);
  }

  /** A numbered section of four items with a blank line after them makes six lines. */
  lemma NumberedBlock(ss: seq<Section>, k: nat)
    requires k < |ss| && ss[k].numbered && ss[k].gap && |ss[k].items| == 4
    ensures var lines, i, r := Flatten(ss), |Flatten(ss[..k])|, ss[k].items;
      i + 6 <= |lines| && lines[i..i + 6] ==
        [ss[k].heading, "1. " + r[0], "2. " + r[1], "3. " + r[2], "4. " + r[3], ""]
  {
    var r := ss[k].items;
    NumberedFour(r);
    assert SectionLines(ss[k]) == [ss[k].heading, "1. " + r[0], "2. " + r[1], "3. " + r[2], "4. " + r[3], ""];
    SectionBlock(ss, k);
  }

  /** Four items are numbered `1.` to `4.`. */
  lemma NumberedFour(r: seq<string>)
    requires |r| == 4
    ensures Numbered(r) == ["1. " + r[0], "2. " + r[1], "3. " + r[2], "4. " + r[3]]
  {
    assert DigitChar(1) == '1' && DigitChar(2) == '2' && DigitChar(3) == '3' && DigitChar(4) == '4';
    assert NatToString(1) == "1" && NatToString(2) == "2" && NatToString(3) == "3" && NatToString(4) == "4";
    var n := Numbered(r);
    assert n[0] == "1. " + r[0] && n[1] == "2. " + r[1] && n[2] == "3. " + r[2] && n[3] == "4. " + r[3];
  }

  /** Under their heading, the two assumptions become two bullets, followed by a blank line. */
  lemma LayoutAssumptionsBlock(l: Lists)
    requires l.assumptions == Assumptions
    ensures BlockAt(Flatten(Layout(l)), SectionStart(Layout(l), 11), AssumptionsBlockLines)
  {
    var ss := Layout(l);
    assert ss[11] == Section("## 9. Assumptions", Assumptions, false, true);
    BulletPairBlock(ss, 11);
  }

  /** A bulleted section of two items with a blank line after them makes four lines. */
  lemma BulletPairBlock(ss: seq<Section>, k: nat)
    requires k < |ss| && !ss[k].numbered && ss[k].gap && |ss[k].items| == 2
    ensures BlockAt(Flatten(ss), SectionStart(ss, k),
      [ss[k].heading, "- " + ss[k].items[0], "- " + ss[k].items[1], ""])
  {
    SectionBlock(ss, k);
    assert SectionLines(ss[k]) == [ss[k].heading, "- " + ss[k].items[0], "- " + ss[k].items[1], ""];
  }

  /** The document closes with the heading of the acceptance criteria and one bullet per
      criterion, with no blank line after them. */
  lemma LayoutEnd(l: Lists, name: string, outputs: string)
    requires l.acceptance == AcceptanceCriteria(name, outputs)
    ensures EndsWithBlock(Flatten(Layout(l)), AcceptanceBlockLines(AcceptanceCriteria(name, outputs)))
  {
    var ss := Layout(l);
    var last := ss[|ss| - 1];
    assert last == Section("## 10. Acceptance Criteria", l.acceptance, false, false);
    assert SectionLines(last) == AcceptanceBlockLines(l.acceptance);
    assert Flatten(ss) == Flatten(ss[..|ss| - 1]) + SectionLines(last);
  }

  /** In every rendered document the functional requirements are the four lines numbered `1.`
      to `4.` under their heading. */
  lemma RenderFunctionalBlock(d: Draft)
    ensures BlockAt(RenderLines(d), SectionStart(Sections(d), 6),
      FunctionalBlockLines(FunctionalRequirements(d.inputs.value, d.outputs.value, d.primaryGoal.value)))
  {
    DraftFunctional(d);
    LayoutFunctionalBlock(DraftLists(d), d.inputs.value, d.outputs.value, d.primaryGoal.value);
  }

  /** In every rendered document the assumptions are the two fixed bullets under their
      heading. */
  lemma RenderAssumptionsBlock(d: Draft)
    ensures BlockAt(RenderLines(d), SectionStart(Sections(d), 11), AssumptionsBlockLines)
  {
    DraftAssumptions(d);
    LayoutAssumptionsBlock(DraftLists(d));
  }

  /** Every rendered document closes with the three acceptance criteria under their heading. */
  lemma RenderAcceptanceBlock(d: Draft)
    ensures EndsWithBlock(RenderLines(d), AcceptanceBlockLines(AcceptanceCriteria(d.projectName.value, d.outputs.value)))
  {
    DraftAcceptance(d);
    LayoutEnd(DraftLists(d), d.projectName.value, d.outputs.value);
  }

  /** The functional requirements of a draft's lists. */
  lemma DraftFunctional(d: Draft)
    ensures DraftLists(d).functional == FunctionalRequirements(d.inputs.value, d.outputs.value, d.primaryGoal.value)
  {
  }

  /** The assumptions of a draft's lists. */
  lemma DraftAssumptions(d: Draft)
    ensures DraftLists(d).assumptions == Assumptions
  {
  }

  /** The last criterion ends with a full stop. */
  lemma OrderTextEnd()
    ensures var t := "mandated section order and headings."; t[|t| - 1] == '.'
  {
  }

  /** The text ends with a full stop and one line break. */
  predicate EndsInOneBreak(doc: string) {
    |doc| >= 2 && doc[|doc| - 1] == '\n' && doc[|doc| - 2] == '.'
  }

  /** A document whose last criterion ends with a full stop ends in exactly one line break. */
  lemma LayoutDocEnd(l: Lists, name: string, outputs: string)
    requires l.acceptance == AcceptanceCriteria(name, outputs)
    ensures EndsInOneBreak(Join("\n", Flatten(Layout(l))) + "\n")
  {
    var lines := Flatten(Layout(l));
    LayoutEnd(l, name, outputs);
    var last := lines[|lines| - 1];
    assert last == "- " + ("The specification follows the " + "mandated section order and headings.");
    OrderTextEnd();
    assert last[|last| - 1] == '.';
    JoinEndsWith("\n", lines);
    var body := Join("\n", lines);
    assert body[|body| - 1] == last[|last| - 1];
  }

  /** The document ends in exactly one line break: its last character is a line break and the
      one before it is the full stop of the last criterion. */
  lemma RenderEnd(d: Draft)
    ensures EndsInOneBreak(Render(d))
  {
    DraftAcceptance(d);
    LayoutDocEnd(DraftLists(d), d.projectName.value, d.outputs.value);
  }

  /** The acceptance criteria of a draft's lists. */
  lemma DraftAcceptance(d: Draft)
    ensures DraftLists(d).acceptance == AcceptanceCriteria(d.projectName.value, d.outputs.value)
  {
  }

  /** Only the values of the fields are rendered: two drafts with the same values render to
      the same document, whatever their confidences and rationales. */
  lemma RenderValuesOnly(d1: Draft, d2: Draft)
    requires forall f: FieldName :: d1.Get(f).value == d2.Get(f).value
    ensures Render(d1) == Render(d2)
  {
    var fs := RequiredFields;
    assert d1.Get(fs[0]).value == d2.Get(fs[0]).value && d1.Get(fs[1]).value == d2.Get(fs[1]).value;
    assert d1.Get(fs[2]).value == d2.Get(fs[2]).value && d1.Get(fs[3]).value == d2.Get(fs[3]).value;
    assert d1.Get(fs[4]).value == d2.Get(fs[4]).value && d1.Get(fs[5]).value == d2.Get(fs[5]).value;
    assert d1.Get(fs[6]).value == d2.Get(fs[6]).value && d1.Get(fs[7]).value == d2.Get(fs[7]).value;
    assert ValuesOf(d1) == ValuesOf(d2);
  }
}
