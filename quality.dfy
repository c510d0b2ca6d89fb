/**
 * The structural validator of `quality.py`: a rendered specification must open with the
 * title, carry exactly the thirteen expected headings in order, and hold nothing but headings,
 * bullets and numbered items on its non-blank lines.
 */
/** The headings every specification carries, in order. */
module SpecHeadings {
  const Title := "# Project Specification"

  /** `EXPECTED_HEADINGS` */
  const ExpectedHeadings: seq<string> := [
    Title,
    "## 1. Overview",
    "## 2. Problem Statement",
    "## 3. Scope",
    "### In Scope",
    "### Out of Scope",
    "## 4. Functional Requirements",
    "## 5. Non-Functional Requirements",
    "## 6. Inputs",
    "## 7. Outputs",
    "## 8. Constraints",
    "## 9. Assumptions",
    "## 10. Acceptance Criteria"]
}

module Quality {
  import opened Text
  import opened SpecHeadings

  /** One entry of the error list, with the exact message text it is reported as. */
  datatype Issue =
    | /** The first non-blank line is not the title. */
      FirstLineIssue
    | /** The headings differ from `EXPECTED_HEADINGS`. */
      HeadingIssue
    | /** The non-blank line numbered `index` (from 1), stripped to `line`, is not allowed. */
      ProseIssue(index: nat, line: string)
  {
    function Message(): string {
      match this
      case FirstLineIssue => "First non-empty line must be " + "'# Project Specification'."
      case HeadingIssue => "Headings must match strict " + "required structure and ordering."
      case ProseIssue(index, line) =>
        "Line " + NatToString(index) + " contains non-list prose or " + "unsupported formatting: " + line
    }
  }

  /** Every expected heading starts with `#` and has no surrounding whitespace. */
  lemma HeadingsTrimmed()
    ensures |ExpectedHeadings| == 13
    ensures forall i :: 0 <= i < 13 ==> ExpectedHeadings[i] != [] && ExpectedHeadings[i][0] == '#'
    ensures forall i :: 0 <= i < 13 ==> Strip(ExpectedHeadings[i]) == ExpectedHeadings[i]
  {
    forall i | 0 <= i < 13 ensures Strip(ExpectedHeadings[i]) == ExpectedHeadings[i] {
      var h := ExpectedHeadings[i];
      assert !IsSpace(h[|h| - 1]);
      StripUntrimmed(h);
    }
  }

  /** `\d+\.\s` at the start: digits, a dot, then whitespace. */
  predicate NumberedPrefix(line: string) {
    var k := DigitRun(line);
    1 <= k && k + 1 < |line| && line[k] == '.' && IsSpace(line[k + 1])
  }

  /** `re.compile(r"^(#|-\s|\d+\.\s)").match(line)` */
  predicate AllowedPrefix(line: string) {
    || (|line| > 0 && line[0] == '#')
    || (|line| >= 2 && line[0] == '-' && IsSpace(line[1]))
    || NumberedPrefix(line)
  }

  /** A line the per-line rule reports: non-blank once stripped, and not allowed. */
  predicate Offending(line: string) {
    |Strip(line)| > 0 && !AllowedPrefix(Strip(line))
  }

  /** The index of the first non-blank line at or after `from`, or the number of lines when
      there is none. */
  function FirstNonBlank(lines: seq<string>, from: nat := 0): (k: nat)
    requires from <= |lines|
    ensures from <= k <= |lines|
    ensures forall i :: from <= i < k ==> |Strip(lines[i])| == 0
    ensures k < |lines| ==> |Strip(lines[k])| > 0
    decreases |lines| - from
  {
    if from == |lines| then from
    else if |Strip(lines[from])| > 0 then from
    else FirstNonBlank(lines, from + 1)
  }

  /** `next((line.strip() for line in lines if line.strip()), "")` */
  function FirstNonEmpty(lines: seq<string>): string {
    var k := FirstNonBlank(lines);
    if k < |lines| then Strip(lines[k]) else ""
  }

  /** `[line.strip() for line in lines if line.strip().startswith("#")]` */
  function Headings(lines: seq<string>): seq<string> {
    if |lines| == 0 then []
    else
      var line := Strip(lines[|lines| - 1]);
      Headings(lines[..|lines| - 1]) + (if StartsWith(line, "#") then [line] else [])
  }

  /** The per-line errors for the first `n` lines: one for each offending line, numbered
      from 1, carrying the stripped line. */
  function ProseErrorsUpTo(lines: seq<string>, n: nat): seq<Issue>
    requires n <= |lines|
  {
    if n == 0 then []
    else
      ProseErrorsUpTo(lines, n - 1)
      + (if Offending(lines[n - 1]) then [ProseIssue(n, Strip(lines[n - 1]))] else [])
  }

  /** The per-line errors of the whole document. */
  function ProseErrors(lines: seq<string>): seq<Issue> {
    ProseErrorsUpTo(lines, |lines|)
  }

  /** The errors of the three rules for the given lines, in the order they are appended. */
  function Errors(lines: seq<string>): seq<Issue> {
    (if FirstNonEmpty(lines) != Title then [FirstLineIssue] else [])
    + (if Headings(lines) != ExpectedHeadings then [HeadingIssue] else [])
    + ProseErrors(lines)
  }

  /** `validate_spec_markdown(content)` */
  function Validation(content: string): seq<Issue> {
    Errors(SplitLines(content))
  }

  /** `validate_spec_markdown`: the three checks append to one list of errors. */
  method ValidateSpecMarkdown(content: string) returns (errors: seq<Issue>)
    ensures errors == Validation(content)
  {
    errors := [];
    var lines := SplitLines(content);
    var firstNonEmpty := FindFirstNonEmpty(lines);
    if firstNonEmpty != Title {
      errors := errors + [FirstLineIssue];
    }
    var headings := Headings(lines);
    if headings != ExpectedHeadings {
      errors := errors + [HeadingIssue];
    }
    var prose := CheckLines(lines);
    errors := errors + prose;
  }

  /** The scan for the first non-empty stripped line. */
  method FindFirstNonEmpty(lines: seq<string>) returns (first: string)
    ensures first == FirstNonEmpty(lines)
  {
    first := "";
    var k := 0;
    while k < |lines|
      invariant 0 <= k <= |lines|
      invariant forall i :: 0 <= i < k ==> |Strip(lines[i])| == 0
    {
      if |Strip(lines[k])| > 0 {
        first := Strip(lines[k]);
        break;
      }
      k := k + 1;
    }
    FirstNonBlankIs(lines, k, 0);
  }

  /** The per-line loop: skips blank lines and reports each line without an allowed prefix. */
  method CheckLines(lines: seq<string>) returns (errors: seq<Issue>)
    ensures errors == ProseErrors(lines)
  {
    errors := [];
    var index := 0;
    while index < |lines|
      invariant 0 <= index <= |lines|
      invariant errors == ProseErrorsUpTo(lines, index)
    {
      var line := Strip(lines[index]);
      if |line| == 0 {
        index := index + 1;
        continue;
      }
      if !AllowedPrefix(line) {
        errors := errors + [ProseIssue(index + 1, line)];
      }
      index := index + 1;
    }
  }

  /** The first non-blank line is found at the first index whose predecessors are all blank and
      which is itself non-blank or past the end. */
  lemma {:induction false} FirstNonBlankIs(lines: seq<string>, k: nat, from: nat)
    requires from <= k <= |lines|
    requires forall i :: from <= i < k ==> |Strip(lines[i])| == 0
    requires k < |lines| ==> |Strip(lines[k])| > 0
    ensures FirstNonBlank(lines, from) == k
    decreases k - from
  {
    if from < k {
      FirstNonBlankIs(lines, k, from + 1);
    }
  }

  /* ---------------------------------------------------------------------------------------- */
  /* Properties                                                                                */
  /* ---------------------------------------------------------------------------------------- */

  /** `issue` reports an offending line among the first `n`, by its 1-based number and its
      stripped text. */
  predicate ReportsOffendingLine(lines: seq<string>, n: nat, issue: Issue)
    requires n <= |lines|
  {
    && issue.ProseIssue?
    && 1 <= issue.index <= n
    && Offending(lines[issue.index - 1])
    && issue.line == Strip(lines[issue.index - 1])
  }

  /** The per-line errors of the first `n` lines name exactly the offending ones among them,
      each once with its 1-based number and stripped text, in ascending line order. */
  lemma ProseErrorsSpec(lines: seq<string>, n: nat)
    requires n <= |lines|
    ensures forall k :: 0 <= k < |ProseErrorsUpTo(lines, n)| ==>
      ReportsOffendingLine(lines, n, ProseErrorsUpTo(lines, n)[k])
    ensures forall k, l :: 0 <= k < l < |ProseErrorsUpTo(lines, n)| ==>
      && ProseErrorsUpTo(lines, n)[k].ProseIssue? && ProseErrorsUpTo(lines, n)[l].ProseIssue?
      && ProseErrorsUpTo(lines, n)[k].index < ProseErrorsUpTo(lines, n)[l].index
    ensures forall i :: 0 <= i < n && Offending(lines[i]) ==>
      ProseIssue(i + 1, Strip(lines[i])) in ProseErrorsUpTo(lines, n)
  {
    ProseErrorsSound(lines, n);
    ProseErrorsAscending(lines, n);
    ProseErrorsComplete(lines, n);
  }

  /** Each per-line error names an offending line among the first `n`. */
  lemma {:induction false} ProseErrorsSound(lines: seq<string>, n: nat)
    requires n <= |lines|
    ensures forall k :: 0 <= k < |ProseErrorsUpTo(lines, n)| ==>
      ReportsOffendingLine(lines, n, ProseErrorsUpTo(lines, n)[k])
    decreases n
  {
    if n > 0 {
      ProseErrorsSound(lines, n - 1);
      var prev := ProseErrorsUpTo(lines, n - 1);
      var e := ProseErrorsUpTo(lines, n);
      forall k | 0 <= k < |e| ensures ReportsOffendingLine(lines, n, e[k]) {
        if k < |prev| {
          assert e[k] == prev[k];
          assert ReportsOffendingLine(lines, n - 1, prev[k]);
        }
      }
    }
  }

  /** The per-line errors come in strictly ascending line order. */
  lemma {:induction false} ProseErrorsAscending(lines: seq<string>, n: nat)
    requires n <= |lines|
    ensures forall k, l :: 0 <= k < l < |ProseErrorsUpTo(lines, n)| ==>
      && ProseErrorsUpTo(lines, n)[k].ProseIssue? && ProseErrorsUpTo(lines, n)[l].ProseIssue?
      && ProseErrorsUpTo(lines, n)[k].index < ProseErrorsUpTo(lines, n)[l].index
    decreases n
  {
    ProseErrorsSound(lines, n);
    if n > 0 {
      ProseErrorsAscending(lines, n - 1);
      ProseErrorsSound(lines, n - 1);
      var prev := ProseErrorsUpTo(lines, n - 1);
      var e := ProseErrorsUpTo(lines, n);
      forall k, l | 0 <= k < l < |e| ensures e[k].index < e[l].index {
        assert e[k] == prev[k];
        if l < |prev| {
          assert e[l] == prev[l];
        } else {
          assert ReportsOffendingLine(lines, n - 1, prev[k]);
        }
      }
    }
  }

  /** Every offending line among the first `n` has its error. */
  lemma {:induction false} ProseErrorsComplete(lines: seq<string>, n: nat)
    requires n <= |lines|
    ensures forall i :: 0 <= i < n && Offending(lines[i]) ==>
      ProseIssue(i + 1, Strip(lines[i])) in ProseErrorsUpTo(lines, n)
    decreases n
  {
    if n > 0 {
      ProseErrorsComplete(lines, n - 1);
      var prev := ProseErrorsUpTo(lines, n - 1);
      var e := ProseErrorsUpTo(lines, n);
      forall i | 0 <= i < n && Offending(lines[i]) ensures ProseIssue(i + 1, Strip(lines[i])) in e {
        if i < n - 1 {
          var k :| 0 <= k < |prev| && prev[k] == ProseIssue(i + 1, Strip(lines[i]));
          assert e[k] == prev[k];
        }
      }
    }
  }

  /** The first-line error is present exactly when the first non-blank stripped line is not the
      title (an empty document counting as ""), the heading error exactly when the headings
      differ from the expected ones, each at most once and in that order before the per-line
      errors. */
  lemma ValidationShape(content: string)
    ensures var lines := SplitLines(content); var v := Validation(content);
      && (FirstLineIssue in v <==> FirstNonEmpty(lines) != Title)
      && (HeadingIssue in v <==> Headings(lines) != ExpectedHeadings)
      && |v| <= 2 + |ProseErrors(lines)|
      && v[..|v| - |ProseErrors(lines)|] ==
           (if FirstNonEmpty(lines) != Title then [FirstLineIssue] else [])
           + (if Headings(lines) != ExpectedHeadings then [HeadingIssue] else [])
      && v[|v| - |ProseErrors(lines)|..] == ProseErrors(lines)
  {
    var lines := SplitLines(content);
    ProseErrorsOnly(lines);
    ErrorsLayout(FirstNonEmpty(lines) != Title, Headings(lines) != ExpectedHeadings, ProseErrors(lines));
  }

  /** Every per-line error is a prose issue. */
  lemma ProseErrorsOnly(lines: seq<string>)
    ensures forall k :: 0 <= k < |ProseErrors(lines)| ==> ProseErrors(lines)[k].ProseIssue?
  {
    ProseErrorsSound(lines, |lines|);
  }

  /** The two document-wide errors, each present exactly when its check fails, ahead of the
      per-line ones. */
  lemma ErrorsLayout(firstFails: bool, headingsFail: bool, prose: seq<Issue>)
    requires forall k :: 0 <= k < |prose| ==> prose[k].ProseIssue?
    ensures var v := (if firstFails then [FirstLineIssue] else []) + (if headingsFail then [HeadingIssue] else []) + prose;
      && (FirstLineIssue in v <==> firstFails)
      && (HeadingIssue in v <==> headingsFail)
      && |v| <= 2 + |prose|
      && v[..|v| - |prose|] == (if firstFails then [FirstLineIssue] else []) + (if headingsFail then [HeadingIssue] else [])
      && v[|v| - |prose|..] == prose
  {
    var head := (if firstFails then [FirstLineIssue] else []) + (if headingsFail then [HeadingIssue] else []);
    var v := head + prose;
    assert FirstLineIssue !in prose && HeadingIssue !in prose;
    assert v[..|head|] == head;
    assert v[|v| - |prose|..] == prose;
  }

  /** The document passes exactly when all three rules hold. */
  lemma ValidIff(content: string)
    ensures var lines := SplitLines(content);
      Validation(content) == [] <==>
        && FirstNonEmpty(lines) == Title
        && Headings(lines) == ExpectedHeadings
        && (forall i :: 0 <= i < |lines| ==> !Offending(lines[i]))
  {
    var lines := SplitLines(content);
    ProseErrorsSpec(lines, |lines|);
    if ProseErrors(lines) != [] {
      assert Offending(lines[ProseErrors(lines)[0].index - 1]);
    }
  }

  /** The number of non-blank lines among the first `n`. */
  function NonBlankCount(lines: seq<string>, n: nat): nat
    requires n <= |lines|
  {
    if n == 0 then 0 else NonBlankCount(lines, n - 1) + (if |Strip(lines[n - 1])| > 0 then 1 else 0)
  }

  /** At most two whole-document errors plus one per non-blank line. */
  lemma ErrorCountBound(content: string)
    ensures var lines := SplitLines(content);
      |Validation(content)| <= 2 + NonBlankCount(lines, |lines|)
  {
    var lines := SplitLines(content);
    ProseErrorsBound(lines, |lines|);
    ValidationShape(content);
  }

  lemma {:induction false} ProseErrorsBound(lines: seq<string>, n: nat)
    requires n <= |lines|
    ensures |ProseErrorsUpTo(lines, n)| <= NonBlankCount(lines, n)
    decreases n
  {
    if n > 0 {
      ProseErrorsBound(lines, n - 1);
    }
  }

  /** A lone bullet marker or item number is reported: stripping removes the whitespace the
      pattern needs after it. */
  lemma LoneMarkersFail()
    ensures Offending("- ")
    ensures Offending("1. ")
  {
    StripSpaceTail("-", ' ');
    assert "-" + [' '] == "- ";
    StripSpaceTail("1.", ' ');
    assert "1." + [' '] == "1. ";
    assert DigitRun("1.") == 1 by {
      RunLengthPrefix("1.", "1", IsDigit);
    }
  }

  /* ---------------------------------------------------------------------------------------- */
  /* Helpers for documents assembled from pieces                                               */
  /* ---------------------------------------------------------------------------------------- */

  lemma {:induction false} HeadingsAppend(a: seq<string>, b: seq<string>)
    ensures Headings(a + b) == Headings(a) + Headings(b)
    decreases |b|
  {
    if b == [] {
      assert a + b == a;
    } else {
      assert (a + b)[..|a + b| - 1] == a + b[..|b| - 1];
      HeadingsAppend(a, b[..|b| - 1]);
    }
  }
}
