/**
 * Heuristic extraction of a draft from a free-text prompt, and normalisation of typed answers
 * (src/spec_engine/parser.py).
 *
 * Each compiled pattern of `LABEL_PATTERNS` is modelled as an explicit matcher with the
 * semantics of `re.search` under `re.IGNORECASE`: the leftmost start position wins, the
 * alternatives of the label are tried in order, the label's words are compared ignoring ASCII
 * case, `\s*` is greedy and backtracks, and `(.+)` runs up to the end of the line.
 */
module Parser {
  import opened Wrappers
  import opened Text
  import opened Models

  /* ---------------------------------------------------------------------------------------- */
  /* LABEL_PATTERNS                                                                            */
  /* ---------------------------------------------------------------------------------------- */

  /** One alternative of a label pattern: lower-case words separated by `\s*` (by `[-\s]*` when
      `hyphenGap`), followed by `s?` when `optionalPlural`. */
  datatype Label = Label(words: seq<string>, hyphenGap: bool, optionalPlural: bool)

  /** The alternatives of the pattern for one field, in the order the regex lists them. */
  function LabelAlternatives(f: FieldName): seq<Label> {
    match f
    case ProjectNameField => [Label(["project", "name"], false, false), Label(["name"], false, false)]
    case ProjectTypeField => [Label(["project", "type"], false, false), Label(["type"], false, false)]
    case PrimaryGoalField => [Label(["primary", "goal"], false, false), Label(["goal"], false, false)]
    case TargetUsersField => [Label(["target", "users"], false, false), Label(["users"], false, false)]
    case InputsField => [Label(["input"], false, true)]
    case OutputsField => [Label(["output"], false, true)]
    case ConstraintsField => [Label(["constraint"], false, true)]
    case NonGoalsField => [Label(["non", "goal"], true, true)]
  }

  predicate IsLowerLetter(c: char) {
    'a' <= c <= 'z'
  }

  /** Every word of the alternative is a non-empty run of lower-case ASCII letters. */
  predicate WellFormedLabel(a: Label) {
    a.words != [] && LowerWords(a.words)
  }

  predicate LowerWord(w: string) {
    w != [] && forall j :: 0 <= j < |w| ==> IsLowerLetter(w[j])
  }

  predicate LowerWords(words: seq<string>) {
    forall i :: 0 <= i < |words| ==> LowerWord(words[i])
  }

  lemma LabelsWellFormed(f: FieldName)
    ensures LabelAlternatives(f) != []
    ensures forall i :: 0 <= i < |LabelAlternatives(f)| ==> WellFormedLabel(LabelAlternatives(f)[i])
  {
  }

  predicate IsSpaceOrHyphen(c: char) {
    IsSpace(c) || c == '-'
  }

  /** `w` occurs at `p` in `line` when case is ignored. */
  predicate WordAt(line: string, p: nat, w: string) {
    p + |w| <= |line| && Lower(line[p..p + |w|]) == w
  }

  /** The position after the greedy `\s*` (or `[-\s]*`) that starts at `p`. */
  function SkipGap(line: string, p: nat, hyphenGap: bool): (q: nat)
    requires p <= |line|
    ensures p <= q <= |line|
  {
    if hyphenGap then p + RunLength(line[p..], IsSpaceOrHyphen) else p + RunLength(line[p..], IsSpace)
  }

  /** The end of the words of a label matched at `p`, if they match there. Every word starts
      with a letter, which no gap character is, so the greedy gap never needs to give back. */
  function MatchWords(line: string, p: nat, words: seq<string>, hyphenGap: bool): (r: Option<nat>)
    requires p <= |line|
    ensures r.Some? ==> p <= r.value <= |line|
    decreases |words|
  {
    if words == [] then Some(p)
    else if !WordAt(line, p, words[0]) then None
    else if |words| == 1 then Some(p + |words[0]|)
    else MatchWords(line, SkipGap(line, p + |words[0]|, hyphenGap), words[1..], hyphenGap)
  }

  /** The end of one label alternative matched at `p`. An optional plural `s` is taken when
      present; leaving it out could not succeed, since an `s` is neither whitespace nor `:`. */
  function MatchLabel(line: string, p: nat, a: Label): (r: Option<nat>)
    requires p <= |line|
    ensures r.Some? ==> p <= r.value <= |line|
  {
    match MatchWords(line, p, a.words, a.hyphenGap)
    case None => None
    case Some(q) => Some(if a.optionalPlural && q < |line| && LowerChar(line[q]) == 's' then q + 1 else q)
  }

  /** The group `(.+)` after `\s*`, matched against the text `rest` that follows the colon.
      The greedy `\s*` takes all leading whitespace; when nothing is left it gives back its
      characters one by one until `.` (anything but a line break) can match one of them. */
  function Capture(rest: string): Option<string> {
    var w := RunLength(rest, IsSpace);
    if w < |rest| then Some(rest[w..w + Find(rest[w..], '\n')])
    else
      var t := RStripChar(rest, '\n');
      if t == [] then None else Some(t[|t| - 1..])
  }

  /** `\s*:\s*(.+)` matched from `q`. */
  function AfterLabel(line: string, q: nat): Option<string>
    requires q <= |line|
  {
    var k := q + RunLength(line[q..], IsSpace);
    if k < |line| && line[k] == ':' then Capture(line[k + 1..]) else None
  }

  /** One alternative tried at `p`, with the rest of the pattern after it. */
  function AttemptAt(line: string, p: nat, a: Label): Option<string>
    requires p <= |line|
  {
    match MatchLabel(line, p, a)
    case None => None
    case Some(q) => AfterLabel(line, q)
  }

  /** The alternatives tried at `p` in order; the first that lets the whole pattern match wins. */
  function FirstAlternative(line: string, p: nat, alts: seq<Label>): Option<string>
    requires p <= |line|
  {
    if alts == [] then None
    else
      match AttemptAt(line, p, alts[0])
      case Some(c) => Some(c)
      case None => FirstAlternative(line, p, alts[1..])
  }

  /** `pattern.search(line)` from position `p` onwards: the group of the leftmost match. */
  function SearchFrom(line: string, alts: seq<Label>, p: nat): Option<string>
    requires p <= |line|
    decreases |line| - p
  {
    match FirstAlternative(line, p, alts)
    case Some(c) => Some(c)
    case None => if p == |line| then None else SearchFrom(line, alts, p + 1)
  }

  /** `pattern.search(line)`, giving `match.group(1)` when it matches. */
  function Search(line: string, pattern: seq<Label>): Option<string> {
    SearchFrom(line, pattern, 0)
  }

  /** `match.group(1).strip().rstrip(".")` */
  function CleanCapture(c: string): string {
    RStripChar(Strip(c), '.')
  }

  /** A cleaned group neither starts with whitespace nor ends with a full stop, and is what is
      left of the stripped group once its trailing full stops are cut. */
  lemma CleanCaptureShape(c: string)
    ensures var v := CleanCapture(c);
      && (v == [] || (!IsSpace(v[0]) && v[|v| - 1] != '.'))
      && v == Strip(c)[..|v|]
      && forall i :: |v| <= i < |Strip(c)| ==> Strip(c)[i] == '.'
  {
    var s := Strip(c);
    var v := RStripChar(s, '.');
    StripEdges(c);
    if v != [] {
      assert v[0] == s[0];
    }
  }

  lemma StripEdges(s: string)
    ensures Strip(s) == [] || (!IsSpace(Strip(s)[0]) && !IsSpace(Strip(s)[|Strip(s)| - 1]))
  {
    var i, j := StripSlice(s);
  }

  /** What `_extract_from_lines` returns: the cleaned group of the first line the pattern
      matches in, even when cleaning empties it, and "" when no line matches. */
  function Extracted(lines: seq<string>, pattern: seq<Label>): string {
    if lines == [] then ""
    else
      match Search(lines[0], pattern)
      case Some(c) => CleanCapture(c)
      case None => Extracted(lines[1..], pattern)
  }

  /** The index of the first line the pattern of `f` matches in, or `|lines|`. */
  function FirstMatchingLine(lines: seq<string>, pattern: seq<Label>): (k: nat)
    ensures k <= |lines|
    ensures forall i :: 0 <= i < k ==> Search(lines[i], pattern).None?
    ensures k < |lines| ==> Search(lines[k], pattern).Some?
  {
    if lines == [] then 0
    else if Search(lines[0], pattern).Some? then 0
    else 1 + FirstMatchingLine(lines[1..], pattern)
  }

  /** `_extract_from_lines` looks no further than the first matching line: it returns that
      line's cleaned group, or "" when there is no matching line. */
  lemma {:induction false} ExtractedIsFirstMatch(lines: seq<string>, pattern: seq<Label>)
    ensures var k := FirstMatchingLine(lines, pattern);
      Extracted(lines, pattern) == if k < |lines| then CleanCapture(Search(lines[k], pattern).value) else ""
    decreases |lines|
  {
    if lines != [] && Search(lines[0], pattern).None? {
      ExtractedIsFirstMatch(lines[1..], pattern);
    }
  }

  /** `_extract_from_lines(lines, pattern)`: an early-return loop over the lines. */
  method ExtractFromLines(lines: seq<string>, pattern: seq<Label>) returns (value: string)
    ensures value == Extracted(lines, pattern)
  {
    var i := 0;
    while i < |lines|
      invariant 0 <= i <= |lines|
      invariant Extracted(lines[i..], pattern) == Extracted(lines, pattern)
    {
      var m := Search(lines[i], pattern);
      if m.Some? {
        value := CleanCapture(m.value);
        return;
      }
      assert lines[i..][1..] == lines[i + 1..];
      i := i + 1;
    }
    value := "";
  }

  /** The first alternative of a field's label written out: its words separated by single
      spaces, followed by the plural `s` when the pattern allows one. */
  function CanonicalLabel(f: FieldName): string {
    LabelText(LabelAlternatives(f)[0])
  }

  /** An alternative written out: its words separated by single spaces, then the plural `s`
      when it allows one. */
  function LabelText(a: Label): string {
    Join(" ", a.words) + (if a.optionalPlural then "s" else "")
  }

  /** `s` is written at `p` in `line`, case and all, compared character by character. */
  predicate WrittenAt(line: string, p: nat, s: string)
    decreases |s|
  {
    if s == [] then p <= |line| else p < |line| && line[p] == s[0] && WrittenAt(line, p + 1, s[1..])
  }

  /** Written at `p` means the slice of that length at `p` is the text. */
  lemma {:induction false} WrittenAtSlice(line: string, p: nat, s: string)
    ensures WrittenAt(line, p, s) <==> p + |s| <= |line| && line[p..p + |s|] == s
    decreases |s|
  {
    if s != [] {
      WrittenAtSlice(line, p + 1, s[1..]);
      if p + |s| <= |line| {
        assert line[p..p + |s|] == [line[p]] + line[p + 1..p + 1 + |s[1..]|];
        assert s == [s[0]] + s[1..];
      }
    }
  }

  /** A lower-case word written at `p` matches there. */
  lemma LowerWordAt(line: string, p: nat, w: string)
    requires p + |w| <= |line| && line[p..p + |w|] == w
    requires LowerWord(w)
    ensures WordAt(line, p, w)
  {
    assert forall i :: 0 <= i < |w| ==> Lower(w)[i] == w[i];
  }

  /** A single space before a letter is the whole gap. */
  lemma SkipOneSpace(line: string, q: nat, hyphenGap: bool)
    requires q + 1 < |line| && line[q] == ' ' && IsLowerLetter(line[q + 1])
    ensures SkipGap(line, q, hyphenGap) == q + 1
  {
    var tail := line[q..];
    assert tail[..1] == " " && tail[1] == line[q + 1];
    if hyphenGap {
      RunLengthPrefix(tail, " ", IsSpaceOrHyphen);
    } else {
      RunLengthPrefix(tail, " ", IsSpace);
    }
  }

  /** Past the first of several words written out with single spaces, the rest is written one
      character after the first word's end, and matching goes on there. */
  lemma MatchWordsStep(line: string, p: nat, words: seq<string>, hyphenGap: bool)
    requires |words| > 1 && LowerWords(words)
    requires WrittenAt(line, p, Join(" ", words))
    ensures var q := p + |words[0]| + 1;
      && WrittenAt(line, q, Join(" ", words[1..]))
      && MatchWords(line, p, words, hyphenGap) == MatchWords(line, q, words[1..], hyphenGap)
      && q + |Join(" ", words[1..])| == p + |Join(" ", words)|
      && LowerWords(words[1..])
  {
    var w := words[0];
    var rest := Join(" ", words[1..]);
    var q := p + |w|;
    assert Join(" ", words) == w + (" " + rest);
    WrittenAtAppend(line, p, w, " " + rest);
    assert (" " + rest)[1..] == rest;
    assert line[q] == ' ' && WrittenAt(line, q + 1, rest);
    WrittenAtSlice(line, p, w);
    LowerWordAt(line, p, w);
    assert LowerWord(words[1]);
    JoinHead(" ", words[1..]);
    assert line[q + 1] == words[1][0];
    SkipOneSpace(line, q, hyphenGap);
    MatchWordsUnfold(line, p, words, hyphenGap);
    assert forall i :: 0 <= i < |words[1..]| ==> words[1..][i] == words[i + 1];
  }

  /** Text written at `p` is its two halves written one after the other. */
  lemma {:induction false} WrittenAtAppend(line: string, p: nat, a: string, b: string)
    ensures WrittenAt(line, p, a + b) <==> WrittenAt(line, p, a) && WrittenAt(line, p + |a|, b)
    decreases |a|
  {
    if a != [] {
      assert (a + b)[1..] == a[1..] + b;
      WrittenAtAppend(line, p + 1, a[1..], b);
    } else {
      assert a + b == b;
      if WrittenAt(line, p, b) {
        WrittenAtBound(line, p, b);
      }
    }
  }

  /** Written text ends inside the line. */
  lemma {:induction false} WrittenAtBound(line: string, p: nat, s: string)
    requires WrittenAt(line, p, s)
    ensures p + |s| <= |line|
    decreases |s|
  {
    if s != [] {
      WrittenAtBound(line, p + 1, s[1..]);
    }
  }

  /** A first word that matches, followed by a gap that ends one character later. */
  lemma MatchWordsUnfold(line: string, p: nat, words: seq<string>, hyphenGap: bool)
    requires |words| > 1 && WordAt(line, p, words[0])
    requires SkipGap(line, p + |words[0]|, hyphenGap) == p + |words[0]| + 1
    ensures MatchWords(line, p, words, hyphenGap) == MatchWords(line, p + |words[0]| + 1, words[1..], hyphenGap)
  {
  }

  /** Lower-case words written out with single spaces match up to their end. */
  lemma {:induction false} MatchWordsJoin(line: string, p: nat, words: seq<string>, hyphenGap: bool)
    requires words != [] && LowerWords(words)
    requires WrittenAt(line, p, Join(" ", words))
    ensures MatchWords(line, p, words, hyphenGap) == Some(p + |Join(" ", words)|)
    decreases |words|
  {
    if |words| == 1 {
      MatchOneWord(line, p, words, hyphenGap);
    } else {
      MatchWordsStep(line, p, words, hyphenGap);
      MatchWordsJoin(line, p + |words[0]| + 1, words[1..], hyphenGap);
    }
  }

  /** A single lower-case word written at `p` matches up to its end. */
  lemma MatchOneWord(line: string, p: nat, words: seq<string>, hyphenGap: bool)
    requires |words| == 1 && LowerWord(words[0])
    requires WrittenAt(line, p, Join(" ", words))
    ensures MatchWords(line, p, words, hyphenGap) == Some(p + |Join(" ", words)|)
  {
    assert Join(" ", words) == words[0];
    WrittenAtSlice(line, p, words[0]);
    LowerWordAt(line, p, words[0]);
  }

  /** A line made of a field's label, a colon, a space and a stripped value on one line that
      does not end in a full stop yields exactly that value. */
  lemma LabelLineRoundTrip(f: FieldName, v: string)
    requires v != [] && Strip(v) == v && '\n' !in v && v[|v| - 1] != '.'
    ensures Search(CanonicalLabel(f) + ": " + v, LabelAlternatives(f)) == Some(v)
    ensures Extracted([CanonicalLabel(f) + ": " + v], LabelAlternatives(f)) == v
  {
    LabelsWellFormed(f);
    var line := CanonicalLabel(f) + ": " + v;
    var a := LabelAlternatives(f)[0];
    var q := |CanonicalLabel(f)|;
    LabelTextMatches(a, ": " + v);
    assert line == CanonicalLabel(f) + (": " + v);
    assert line[q..] == ": " + v;
    ColonThenValue(line, q, v);
    AttemptAfterLabel(line, 0, a, q);
    FirstAttemptWins(line, LabelAlternatives(f), v);
    assert RStripChar(v, '.') == v;
    assert Extracted([line], LabelAlternatives(f)) == CleanCapture(v);
  }

  lemma AttemptAfterLabel(line: string, p: nat, a: Label, q: nat)
    requires p <= |line| && MatchLabel(line, p, a) == Some(q)
    ensures AttemptAt(line, p, a) == AfterLabel(line, q)
  {
  }

  /** When the first alternative matches at the start of the line, the search returns its group. */
  lemma FirstAttemptWins(line: string, alts: seq<Label>, c: string)
    requires alts != [] && AttemptAt(line, 0, alts[0]) == Some(c)
    ensures SearchFrom(line, alts, 0) == Some(c)
  {
    assert FirstAlternative(line, 0, alts) == Some(c);
  }

  /** A well-formed alternative matches its written-out form at the start of a line, up to a
      following colon. */
  lemma LabelTextMatches(a: Label, rest: string)
    requires WellFormedLabel(a) && rest != [] && rest[0] == ':'
    ensures MatchLabel(LabelText(a) + rest, 0, a) == Some(|LabelText(a)|)
  {
    LabelLineAt(a, rest);
    MatchWordsJoin(LabelText(a) + rest, 0, a.words, a.hyphenGap);
  }

  /** The line of a label and a colon: the words at the start, then the plural `s` or the
      colon. */
  lemma LabelLineAt(a: Label, rest: string)
    requires rest != [] && rest[0] == ':'
    ensures var line, joined := LabelText(a) + rest, Join(" ", a.words);
      && WrittenAt(line, 0, joined)
      && |joined| < |line|
      && line[|joined|] == (if a.optionalPlural then 's' else ':')
      && |LabelText(a)| == |joined| + (if a.optionalPlural then 1 else 0)
  {
    var joined := Join(" ", a.words);
    var plural := if a.optionalPlural then "s" else "";
    var line := LabelText(a) + rest;
    assert line == joined + (plural + rest);
    WrittenAtStart(joined, plural + rest);
  }

  /** A text is written at the start of any line it begins. */
  lemma WrittenAtStart(s: string, t: string)
    ensures WrittenAt(s + t, 0, s)
  {
    assert (s + t)[0..|s|] == s;
    WrittenAtSlice(s + t, 0, s);
  }

  /** `\s*:\s*(.+)` on ": v" captures `v` when `v` starts with a non-space and has no break. */
  lemma ColonThenValue(line: string, q: nat, v: string)
    requires q <= |line| && line[q..] == ": " + v
    requires v != [] && Strip(v) == v && '\n' !in v
    ensures AfterLabel(line, q) == Some(v)
  {
    assert RunLength(line[q..], IsSpace) == 0;
    assert line[q + 1..] == " " + v;
    StripEdges(v);
    var r := " " + v;
    RunLengthPrefix(r, " ", IsSpace);
    assert r[1..] == v;
    FindAbsent(v, '\n');
    assert r[1..1 + |v|] == v;
  }

  /** A labelled line whose value cleans to "" still ends the search: a later line with the
      same label is not looked at. */
  lemma EmptyLabelStopsSearch()
    ensures Extracted(["name: .", "name: Tool"], LabelAlternatives(ProjectNameField)) == ""
  {
    var line := "name: .";
    var alts := LabelAlternatives(ProjectNameField);
    assert AttemptAt(line, 0, alts[0]) == None by {
      assert Lower(line[0..7])[0] != "project"[0];
    }
    assert MatchWords(line, 0, ["name"], false) == Some(4) by {
      assert WordAt(line, 0, "name");
    }
    assert line[4..] == ": .";
    assert RunLength(line[4..], IsSpace) == 0;
    var r := line[5..];
    assert r == " .";
    RunLengthPrefix(r, " ", IsSpace);
    assert RunLength(r, IsSpace) == 1;
    assert r[1..] == ".";
    assert Find(".", '\n') == 1;
    assert r[1..2] == ".";
    assert Capture(r) == Some(".");
    assert AttemptAt(line, 0, alts[1]) == Some(".");
    assert Search(line, alts) == Some(".");
    assert Strip(".") == ".";
  }

  /* ---------------------------------------------------------------------------------------- */
  /* _infer_project_type                                                                       */
  /* ---------------------------------------------------------------------------------------- */

  /** One entry of the priority-ordered keyword table. */
  datatype Bucket = Bucket(result: ProjectType, terms: seq<string>)

  /** The keyword table, highest priority first. */
  const TypeBuckets: seq<Bucket> := [
    Bucket(FullStackApp, ["full stack", "frontend and backend", "end-to-end app"]),
    Bucket(BackendApi, ["api", "endpoint", "rest", "graphql"]),
    Bucket(FrontendUi, ["frontend", "ui", "single-page", "spa"]),
    Bucket(WebApp, ["web app", "website", "browser app"]),
    Bucket(CliTool, ["cli", "command line", "terminal tool"]),
    Bucket(Service, ["service", "daemon", "worker"]),
    Bucket(Library, ["library", "sdk", "package"])
  ]

  /** `any(term in lowered for term in terms)` */
  predicate Hits(lowered: string, b: Bucket) {
    exists j | 0 <= j < |b.terms| :: Contains(lowered, b.terms[j])
  }

  function FirstHit(lowered: string, buckets: seq<Bucket>): Option<ProjectType> {
    if buckets == [] then None
    else if Hits(lowered, buckets[0]) then Some(buckets[0].result)
    else FirstHit(lowered, buckets[1..])
  }

  /** The project type `_infer_project_type` picks, if any. */
  function InferredType(text: string): Option<ProjectType> {
    FirstHit(Lower(text), TypeBuckets)
  }

  /** The string form of an optional project type: its value, or "". */
  function TypeText(t: Option<ProjectType>): string {
    match t
    case None => ""
    case Some(p) => p.Value()
  }

  /** `_infer_project_type(text)`: an early-return loop over the keyword table. */
  method InferProjectType(text: string) returns (r: string)
    ensures r == TypeText(InferredType(text))
  {
    var lowered := Lower(text);
    var i := 0;
    while i < |TypeBuckets|
      invariant 0 <= i <= |TypeBuckets|
      invariant FirstHit(lowered, TypeBuckets[i..]) == FirstHit(lowered, TypeBuckets)
    {
      if Hits(lowered, TypeBuckets[i]) {
        r := TypeBuckets[i].result.Value();
        return;
      }
      assert TypeBuckets[i..][1..] == TypeBuckets[i + 1..];
      i := i + 1;
    }
    r := "";
  }

  /** The first bucket, in priority order, with a term in the lower-cased text decides. */
  lemma {:induction false} FirstHitIsFirst(lowered: string, buckets: seq<Bucket>, k: nat)
    requires k < |buckets| && Hits(lowered, buckets[k])
    requires forall j :: 0 <= j < k ==> !Hits(lowered, buckets[j])
    ensures FirstHit(lowered, buckets) == Some(buckets[k].result)
    decreases k
  {
    if k > 0 {
      assert forall j :: 0 <= j < k - 1 ==> buckets[1..][j] == buckets[j + 1];
      FirstHitIsFirst(lowered, buckets[1..], k - 1);
    }
  }

  lemma {:induction false} FirstHitNone(lowered: string, buckets: seq<Bucket>)
    ensures FirstHit(lowered, buckets).None? <==> forall j :: 0 <= j < |buckets| ==> !Hits(lowered, buckets[j])
    decreases |buckets|
  {
    if buckets != [] {
      FirstHitNone(lowered, buckets[1..]);
      assert forall j :: 1 <= j < |buckets| ==> buckets[j] == buckets[1..][j - 1];
    }
  }

  /** `_infer_project_type` returns the result of the highest-priority bucket one of whose
      terms occurs in the lower-cased text, and "" exactly when no bucket has such a term. */
  lemma InferredTypeSpec(text: string, k: nat)
    requires k < |TypeBuckets| && Hits(Lower(text), TypeBuckets[k])
    requires forall j :: 0 <= j < k ==> !Hits(Lower(text), TypeBuckets[j])
    ensures InferredType(text) == Some(TypeBuckets[k].result)
  {
    FirstHitIsFirst(Lower(text), TypeBuckets, k);
  }

  lemma InferredTypeNone(text: string)
    ensures InferredType(text).None? <==> forall j :: 0 <= j < |TypeBuckets| ==> !Hits(Lower(text), TypeBuckets[j])
  {
    FirstHitNone(Lower(text), TypeBuckets);
  }

  lemma LowerBuildSomething()
    ensures Lower("Build something") == "build something"
  {
    var s := "Build something";
    var l := Lower(s);
    forall i | 0 <= i < |s| ensures l[i] == "build something"[i] {
      assert l[i] == LowerChar(s[i]);
    }
  }

  /** A term none of whose characters at index `k` occurs in the text is not found in it. */
  lemma CharAbsent(s: string, c: char)
    requires forall i :: 0 <= i < |s| ==> s[i] != c
    ensures c !in s
  {
  }

  lemma BuildSomethingBuckets()
    ensures !Hits("build something", TypeBuckets[0])
    ensures !Hits("build something", TypeBuckets[1])
    ensures Hits("build something", TypeBuckets[2])
  {
    BuildSomethingNotFullStack();
    BuildSomethingNotBackend();
    BuildSomethingFrontend();
  }

  lemma BuildSomethingNotFullStack()
    ensures !Hits("build something", TypeBuckets[0])
  {
    var lowered := "build something";
    CharAbsent(lowered, 'f');
    CharAbsent(lowered, '-');
    var t0 := TypeBuckets[0].terms;
    assert t0 == ["full stack", "frontend and backend", "end-to-end app"];
    NotContainedIfCharMissing(lowered, t0[0], 0);
    NotContainedIfCharMissing(lowered, t0[1], 0);
    NotContainedIfCharMissing(lowered, t0[2], 3);
    assert forall j :: 0 <= j < |t0| ==> !Contains(lowered, t0[j]);
  }

  lemma BuildSomethingNotBackend()
    ensures !Hits("build something", TypeBuckets[1])
  {
    var lowered := "build something";
    CharAbsent(lowered, 'a');
    CharAbsent(lowered, 'p');
    CharAbsent(lowered, 'r');
    var t1 := TypeBuckets[1].terms;
    assert t1 == ["api", "endpoint", "rest", "graphql"];
    NotContainedIfCharMissing(lowered, t1[0], 0);
    NotContainedIfCharMissing(lowered, t1[1], 3);
    NotContainedIfCharMissing(lowered, t1[2], 0);
    NotContainedIfCharMissing(lowered, t1[3], 1);
    assert forall j :: 0 <= j < |t1| ==> !Contains(lowered, t1[j]);
  }

  lemma BuildSomethingFrontend()
    ensures Hits("build something", TypeBuckets[2])
  {
    var lowered := "build something";
    var t2 := TypeBuckets[2].terms;
    assert t2[1] == "ui";
    assert lowered[1] == 'u' && lowered[2] == 'i';
    assert lowered[1..3] == t2[1];
    assert OccursAt(lowered, t2[1], 1);
    assert Contains(lowered, t2[1]);
  }

  /** Matching is by substring: "Build something" contains "ui" and is taken for a frontend. */
  lemma SubstringMatchQuirk()
    ensures InferredType("Build something") == Some(FrontendUi)
  {
    LowerBuildSomething();
    BuildSomethingBuckets();
    FirstHitIsFirst("build something", TypeBuckets, 2);
  }

  /* ---------------------------------------------------------------------------------------- */
  /* _infer_project_name                                                                       */
  /* ---------------------------------------------------------------------------------------- */

  /** The character class `[A-Za-z0-9\-]`. */
  predicate IsNameChar(c: char) {
    'A' <= c <= 'Z' || 'a' <= c <= 'z' || '0' <= c <= '9' || c == '-'
  }

  /** `str.capitalize` on a token: first character upper-cased, the rest lower-cased. */
  function Capitalize(w: string): (r: string)
    ensures |r| == |w|
  {
    if w == [] then [] else [UpperChar(w[0])] + Lower(w[1..])
  }

  function CapitalizeAll(ws: seq<string>): (rs: seq<string>)
    ensures |rs| == |ws|
    ensures forall i :: 0 <= i < |ws| ==> rs[i] == Capitalize(ws[i])
  {
    if ws == [] then [] else [Capitalize(ws[0])] + CapitalizeAll(ws[1..])
  }

  /** The tokens of `re.findall(r"[A-Za-z0-9\-]+", text)`. */
  function NameTokens(text: string): seq<string> {
    Runs(text, IsNameChar)
  }

  /** `_infer_project_name(text)` */
  function InferProjectName(text: string): string {
    var words := NameTokens(text);
    if words == [] then "" else Join(" ", CapitalizeAll(Take(words, 4)))
  }

  lemma CapitalizeKeepsClass(w: string)
    requires forall j :: 0 <= j < |w| ==> IsNameChar(w[j])
    ensures forall j :: 0 <= j < |w| ==> IsNameChar(Capitalize(w)[j]) && !IsSpace(Capitalize(w)[j])
  {
  }

  /** The inferred name is the first four tokens of the text, capitalised and separated by
      single spaces: finding the tokens of the name again gives exactly those, it is collapsed,
      and it is empty exactly when the text has no token character. */
  lemma InferProjectNameSpec(text: string)
    ensures var top := CapitalizeAll(Take(NameTokens(text), 4));
      && NameTokens(InferProjectName(text)) == top
      && Words(InferProjectName(text)) == top
      && |top| <= 4
      && Collapsed(InferProjectName(text))
      && (InferProjectName(text) == [] <==> forall i :: 0 <= i < |text| ==> !IsNameChar(text[i]))
  {
    var words := NameTokens(text);
    var top := CapitalizeAll(Take(words, 4));
    forall i | 0 <= i < |top|
      ensures top[i] != [] && forall j :: 0 <= j < |top[i]| ==> IsNameChar(top[i][j]) && !IsSpace(top[i][j])
    {
      CapitalizeKeepsClass(words[i]);
    }
    if words == [] {
      if exists i :: 0 <= i < |text| && IsNameChar(text[i]) {
        var i :| 0 <= i < |text| && IsNameChar(text[i]);
        RunsSome(text, IsNameChar, i);
      }
      assert Join(" ", top) == [];
      RunsNone([], IsNameChar);
      RunsNone([], c => !IsSpace(c));
    } else {
      RunsOfJoin(top, ' ', IsNameChar);
      WordsOfJoin(top);
      JoinOfWordsCollapsed(top);
      if forall i :: 0 <= i < |text| ==> !IsNameChar(text[i]) {
        RunsNone(text, IsNameChar);
      }
    }
  }

  /* ---------------------------------------------------------------------------------------- */
  /* normalize_user_field_value                                                                */
  /* ---------------------------------------------------------------------------------------- */

  /** The first project type, in declaration order, whose value equals `cleaned` ignoring case. */
  function MatchProjectType(cleaned: string, ts: seq<ProjectType>): (r: Option<ProjectType>)
    ensures r.Some? ==> r.value in ts && Lower(cleaned) == Lower(r.value.Value())
    ensures r.None? ==> forall i :: 0 <= i < |ts| ==> Lower(cleaned) != Lower(ts[i].Value())
  {
    if ts == [] then None
    else if Lower(cleaned) == Lower(ts[0].Value()) then Some(ts[0])
    else MatchProjectType(cleaned, ts[1..])
  }

  /** `normalize_user_field_value(field_name, value)`: the collapsed answer and its confidence. */
  function NormalizeUserFieldValue(f: FieldName, value: string): (string, real) {
    var cleaned := Collapse(value);
    if f == ProjectTypeField then
      match MatchProjectType(cleaned, ProjectTypes)
      case Some(t) => (t.Value(), 1.0)
      case None => (cleaned, 0.4)
    else (cleaned, if cleaned != [] then 1.0 else 0.0)
  }

  /** Every project type value is already collapsed. */
  lemma ValueCollapsed(t: ProjectType)
    ensures Collapse(t.Value()) == t.Value()
    ensures Collapsed(t.Value())
  {
    match t
    case Library => WordCollapses("library");
    case Service => WordCollapses("service");
    case CliTool => PairValueCollapsed(t);
    case WebApp => PairValueCollapsed(t);
    case BackendApi => PairValueCollapsed(t);
    case FrontendUi => LongPairValueCollapsed(t);
    case FullStackApp => LongPairValueCollapsed(t);
  }

  lemma PairValueCollapsed(t: ProjectType)
    requires t == CliTool || t == WebApp || t == BackendApi
    ensures Collapse(t.Value()) == t.Value() && Collapsed(t.Value())
  {
    match t
    case CliTool => assert t.Value() == "CLI" + " " + "tool"; PairCollapses("CLI", "tool");
    case WebApp => assert t.Value() == "web" + " " + "app"; PairCollapses("web", "app");
    case BackendApi => assert t.Value() == "backend" + " " + "API"; PairCollapses("backend", "API");
  }

  lemma LongPairValueCollapsed(t: ProjectType)
    requires t == FrontendUi || t == FullStackApp
    ensures Collapse(t.Value()) == t.Value() && Collapsed(t.Value())
  {
    match t
    case FrontendUi => assert t.Value() == "frontend" + " " + "UI"; PairCollapses("frontend", "UI");
    case FullStackApp => assert t.Value() == "full-stack" + " " + "app"; PairCollapses("full-stack", "app");
  }

  /** No whitespace anywhere in `s`. */
  predicate NoSpaceIn(s: string) {
    forall j :: 0 <= j < |s| ==> !IsSpace(s[j])
  }

  /** A single word is already collapsed. */
  lemma WordCollapses(a: string)
    requires a != [] && NoSpaceIn(a)
    ensures Collapse(a) == a && Collapsed(a)
  {
    var ws := [a];
    assert Join(" ", ws) == a;
    WordsOfJoin(ws);
    JoinOfWordsCollapsed(ws);
  }

  /** Two words with one space between them are already collapsed. */
  lemma PairCollapses(a: string, b: string)
    requires a != [] && b != [] && NoSpaceIn(a) && NoSpaceIn(b)
    ensures Collapse(a + " " + b) == a + " " + b && Collapsed(a + " " + b)
  {
    var ws := [a, b];
    assert Join(" ", ws) == a + " " + b;
    WordsOfJoin(ws);
    JoinOfWordsCollapsed(ws);
  }

  /** For every field but `project_type` the answer is whitespace-collapsed, with confidence
      1.0 when something is left and 0.0 when the answer was blank. */
  lemma NormalizeOtherField(f: FieldName, value: string)
    requires f != ProjectTypeField
    ensures var (v, c) := NormalizeUserFieldValue(f, value);
      && v == Collapse(value) && Collapsed(v)
      && (c == 1.0 <==> !IsBlank(value))
      && (c == 0.0 <==> IsBlank(value))
  {
    CollapseShape(value);
  }

  /** For `project_type` an answer that equals a project type's value ignoring case and
      surrounding or repeated whitespace gives that canonical value at 1.0; any other answer is
      kept, collapsed, at 0.4 and never rejected. */
  lemma NormalizeProjectType(value: string, t: ProjectType)
    ensures Lower(Collapse(value)) == Lower(t.Value()) ==> NormalizeUserFieldValue(ProjectTypeField, value) == (t.Value(), 1.0)
    ensures (forall u: ProjectType :: Lower(Collapse(value)) != Lower(u.Value())) ==>
      NormalizeUserFieldValue(ProjectTypeField, value) == (Collapse(value), 0.4)
  {
    var m := MatchProjectType(Collapse(value), ProjectTypes);
    if m.Some? && m.value != t && Lower(Collapse(value)) == Lower(t.Value()) {
      ProjectTypeValuesDistinct(m.value, t);
    }
    if m.None? {
      ProjectTypesEnumerated(t);
    }
  }

  /** Normalising a normalised answer again changes neither the text nor the confidence. */
  lemma NormalizeIdempotent(f: FieldName, value: string)
    ensures var (v, c) := NormalizeUserFieldValue(f, value);
      NormalizeUserFieldValue(f, v) == (v, c)
  {
    var cleaned := Collapse(value);
    CollapseIdempotent(value);
    if f == ProjectTypeField {
      match MatchProjectType(cleaned, ProjectTypes)
      case Some(t) => {
        ValueCollapsed(t);
        NormalizeProjectType(t.Value(), t);
      }
      case None => {
      }
    }
  }

  /** Normalising a project type's canonical value for `project_type` returns it at 1.0. */
  lemma NormalizeCanonicalType(t: ProjectType)
    ensures NormalizeUserFieldValue(ProjectTypeField, t.Value()) == (t.Value(), 1.0)
  {
    ValueCollapsed(t);
    NormalizeProjectType(t.Value(), t);
  }

  /* ---------------------------------------------------------------------------------------- */
  /* parse_prompt                                                                              */
  /* ---------------------------------------------------------------------------------------- */

  /** `[line.strip() for line in lines if line.strip()]` */
  function StrippedNonBlank(lines: seq<string>): (r: seq<string>)
    ensures forall i :: 0 <= i < |r| ==> r[i] != [] && Strip(r[i]) == r[i]
  {
    if lines == [] then []
    else
      var rest := StrippedNonBlank(lines[1..]);
      var s := Strip(lines[0]);
      StripIdempotent(lines[0]);
      if s != [] then [s] + rest else rest
  }

  /** Nothing is kept exactly when every line is blank. */
  lemma {:induction false} StrippedNonBlankEmpty(lines: seq<string>)
    ensures StrippedNonBlank(lines) == [] <==> forall j :: 0 <= j < |lines| ==> IsBlank(lines[j])
    decreases |lines|
  {
    if lines != [] {
      StrippedNonBlankEmpty(lines[1..]);
      StripEmptyIffBlank(lines[0]);
      if forall j :: 0 <= j < |lines| ==> IsBlank(lines[j]) {
        assert forall j :: 0 <= j < |lines[1..]| ==> IsBlank(lines[1..][j]) by {
          forall j | 0 <= j < |lines[1..]| ensures IsBlank(lines[1..][j]) {
            assert lines[1..][j] == lines[j + 1];
          }
        }
      } else {
        var j :| 0 <= j < |lines| && !IsBlank(lines[j]);
        if j > 0 {
          assert lines[1..][j - 1] == lines[j];
        }
      }
    }
  }

  /** Every character kept comes from one of the lines. */
  lemma {:induction false} StrippedNonBlankChars(lines: seq<string>)
    ensures forall k, m :: 0 <= k < |StrippedNonBlank(lines)| && 0 <= m < |StrippedNonBlank(lines)[k]| ==>
      exists j :: 0 <= j < |lines| && StrippedNonBlank(lines)[k][m] in lines[j]
    decreases |lines|
  {
    if lines != [] {
      StrippedNonBlankChars(lines[1..]);
      var r := StrippedNonBlank(lines);
      var rest := StrippedNonBlank(lines[1..]);
      var s := Strip(lines[0]);
      forall k, m | 0 <= k < |r| && 0 <= m < |r[k]| ensures exists j :: 0 <= j < |lines| && r[k][m] in lines[j] {
        if s != [] && k == 0 {
          assert r[0] == s;
          StripChars(lines[0], s[m]);
        } else {
          var k' := if s != [] then k - 1 else k;
          assert r[k] == rest[k'];
          var j :| 0 <= j < |lines[1..]| && rest[k'][m] in lines[1..][j];
          assert lines[1..][j] == lines[j + 1];
        }
      }
    } else {
      assert StrippedNonBlank(lines) == [];
    }
  }

  /** The prompt's non-blank lines, stripped. */
  function PromptLines(prompt: string): seq<string> {
    StrippedNonBlank(SplitLines(prompt))
  }

  /** The candidate every explicit label gives. */
  function LabelCandidate(v: string): FieldCandidate {
    FieldCandidate(v, 0.95, "explicit_label")
  }

  /** The draft after the label pass has visited the fields `fs` in order. */
  function Labelled(lines: seq<string>, fs: seq<FieldName>): Draft {
    if fs == [] then DefaultDraft
    else
      var d := Labelled(lines, fs[..|fs| - 1]);
      var f := fs[|fs| - 1];
      var v := Extracted(lines, LabelAlternatives(f));
      if v != "" then d.With(f, LabelCandidate(v)) else d
  }

  /** The label pass extended by one field. */
  lemma LabelledExtend(lines: seq<string>, fs: seq<FieldName>, i: nat)
    requires i < |fs|
    ensures var v := Extracted(lines, LabelAlternatives(fs[i]));
      Labelled(lines, fs[..i + 1]) ==
        if v != "" then Labelled(lines, fs[..i]).With(fs[i], LabelCandidate(v)) else Labelled(lines, fs[..i])
  {
    assert fs[..i + 1][..i] == fs[..i];
  }

  /** The `project_type` fallback: an unset type takes the inferred one at 0.7. */
  function TypeFallback(d: Draft, joined: string): Draft {
    var inferred := InferredType(joined);
    if d.projectType.value == "" && inferred.Some?
    then d.With(ProjectTypeField, FieldCandidate(inferred.value.Value(), 0.7, "keyword_inference"))
    else d
  }

  /** The `project_name` fallback: an unset name takes the title at 0.55. */
  function NameFallback(d: Draft, joined: string): Draft {
    var name := InferProjectName(joined);
    if d.projectName.value == "" && name != ""
    then d.With(ProjectNameField, FieldCandidate(name, 0.55, "title_inference"))
    else d
  }

  /** The `primary_goal` fallback: an unset goal takes the first 220 characters at 0.4. */
  function GoalFallback(d: Draft, joined: string): Draft {
    if d.primaryGoal.value == "" && joined != ""
    then d.With(PrimaryGoalField, FieldCandidate(Take(joined, 220), 0.4, "fallback_prompt_excerpt"))
    else d
  }

  /** The draft `parse_prompt(prompt)` returns. */
  function Parsed(prompt: string): Draft {
    var lines := PromptLines(prompt);
    var joined := Join(" ", lines);
    GoalFallback(NameFallback(TypeFallback(Labelled(lines, RequiredFields), joined), joined), joined)
  }

  /** `parse_prompt(prompt)`: a fresh draft filled by the label pass and then the fallbacks. */
  method ParsePrompt(prompt: string) returns (draft: SpecDraft)
    ensures fresh(draft)
    ensures draft.Snapshot() == Parsed(prompt)
  {
    draft := new SpecDraft();
    var lines := PromptLines(prompt);
    var joined := Join(" ", lines);
    ApplyLabels(draft, lines);
    ApplyTypeFallback(draft, joined);
    ApplyNameFallback(draft, joined);
    ApplyGoalFallback(draft, joined);
  }

  /** The loop over the label patterns, on a fresh draft. */
  method ApplyLabels(draft: SpecDraft, lines: seq<string>)
    requires draft.Snapshot() == DefaultDraft
    modifies draft
    ensures draft.Snapshot() == Labelled(lines, RequiredFields)
  {
    var i := 0;
    while i < |RequiredFields|
      invariant 0 <= i <= |RequiredFields|
      invariant draft.Snapshot() == Labelled(lines, RequiredFields[..i])
    {
      var f := RequiredFields[i];
      var value := ExtractFromLines(lines, LabelAlternatives(f));
      LabelledExtend(lines, RequiredFields, i);
      if value != "" {
        draft.Set(f, LabelCandidate(value));
      }
      i := i + 1;
    }
    assert RequiredFields[..i] == RequiredFields;
  }

  /** The `project_type` fallback applied to the draft. */
  method ApplyTypeFallback(draft: SpecDraft, joined: string)
    modifies draft
    ensures draft.Snapshot() == TypeFallback(old(draft.Snapshot()), joined)
  {
    if draft.projectType.value == "" {
      var inferredType := InferProjectType(joined);
      if inferredType != "" {
        draft.Set(ProjectTypeField, FieldCandidate(inferredType, 0.7, "keyword_inference"));
      }
    }
  }

  /** The `project_name` fallback applied to the draft. */
  method ApplyNameFallback(draft: SpecDraft, joined: string)
    modifies draft
    ensures draft.Snapshot() == NameFallback(old(draft.Snapshot()), joined)
  {
    if draft.projectName.value == "" {
      var name := InferProjectName(joined);
      if name != "" {
        draft.Set(ProjectNameField, FieldCandidate(name, 0.55, "title_inference"));
      }
    }
  }

  /** The `primary_goal` fallback applied to the draft. */
  method ApplyGoalFallback(draft: SpecDraft, joined: string)
    modifies draft
    ensures draft.Snapshot() == GoalFallback(old(draft.Snapshot()), joined)
  {
    if draft.primaryGoal.value == "" && joined != "" {
      draft.Set(PrimaryGoalField, FieldCandidate(Take(joined, 220), 0.4, "fallback_prompt_excerpt"));
    }
  }

  /** After the label pass over an ordered list of fields, a visited field holds its label
      candidate when its extracted value is non-empty, and every other field is empty. */
  lemma {:induction false} LabelledField(lines: seq<string>, fs: seq<FieldName>, g: FieldName)
    requires InFieldOrder(fs)
    ensures var v := Extracted(lines, LabelAlternatives(g));
      Labelled(lines, fs).Get(g) == if g in fs && v != "" then LabelCandidate(v) else EmptyCandidate
    decreases |fs|
  {
    if fs != [] {
      var init := fs[..|fs| - 1];
      var f := fs[|fs| - 1];
      assert InFieldOrder(init) by {
        forall i, j | 0 <= i < j < |init| ensures init[i].Index() < init[j].Index() {
          assert init[i] == fs[i] && init[j] == fs[j];
        }
      }
      LabelledField(lines, init, g);
      if g == f {
        forall k | 0 <= k < |init| ensures init[k] != g {
          assert init[k] == fs[k];
        }
        assert g !in init;
      } else {
        assert g in fs <==> g in init by {
          if g in fs {
            var k :| 0 <= k < |fs| && fs[k] == g;
            assert init[k] == g;
          }
        }
      }
    }
  }

  /** The value `parse_prompt` finds for a field's label on the prompt's lines. */
  function LabelValue(prompt: string, f: FieldName): string {
    Extracted(PromptLines(prompt), LabelAlternatives(f))
  }

  /** The three fallbacks change only the field each fills, and only when it is unset. */
  lemma FallbacksKeep(d: Draft, joined: string, g: FieldName)
    requires g !in {ProjectNameField, ProjectTypeField, PrimaryGoalField} || d.Get(g).value != ""
    ensures GoalFallback(NameFallback(TypeFallback(d, joined), joined), joined).Get(g) == d.Get(g)
  {
    var d1 := TypeFallback(d, joined);
    assert d1.Get(g) == d.Get(g);
    var d2 := NameFallback(d1, joined);
    assert d2.Get(g) == d.Get(g);
  }

  /** The candidate the label pass leaves for a field. */
  lemma LabelPassField(prompt: string, g: FieldName)
    ensures var v := LabelValue(prompt, g);
      Labelled(PromptLines(prompt), RequiredFields).Get(g) == if v != "" then LabelCandidate(v) else EmptyCandidate
  {
    RequiredFieldsInOrder();
    LabelledField(PromptLines(prompt), RequiredFields, g);
    assert RequiredFields[g.Index()] == g;
  }

  /** A field with a non-empty labelled value gets it at 0.95 as "explicit_label"; the
      fallbacks only ever fill fields the labels left unset. */
  lemma ParsedLabelled(prompt: string, f: FieldName)
    requires LabelValue(prompt, f) != ""
    ensures Parsed(prompt).Get(f) == LabelCandidate(LabelValue(prompt, f))
  {
    LabelPassField(prompt, f);
    FallbacksKeep(Labelled(PromptLines(prompt), RequiredFields), Join(" ", PromptLines(prompt)), f);
  }

  /** The five fields with no fallback stay `("", 0.0, "")` unless labelled. */
  lemma ParsedNoFallback(prompt: string, f: FieldName)
    requires f !in {ProjectNameField, ProjectTypeField, PrimaryGoalField}
    requires LabelValue(prompt, f) == ""
    ensures Parsed(prompt).Get(f) == EmptyCandidate
  {
    LabelPassField(prompt, f);
    FallbacksKeep(Labelled(PromptLines(prompt), RequiredFields), Join(" ", PromptLines(prompt)), f);
  }

  /** The fallbacks applied to a draft whose type is unset. */
  lemma TypeFallbackField(d0: Draft, joined: string)
    requires d0.projectType == EmptyCandidate
    ensures var inferred := InferredType(joined);
      GoalFallback(NameFallback(TypeFallback(d0, joined), joined), joined).projectType ==
        if inferred.Some? then FieldCandidate(inferred.value.Value(), 0.7, "keyword_inference") else EmptyCandidate
  {
  }

  /** The fallbacks applied to a draft whose name is unset. */
  lemma NameFallbackField(d0: Draft, joined: string)
    requires d0.projectName == EmptyCandidate
    ensures var name := InferProjectName(joined);
      GoalFallback(NameFallback(TypeFallback(d0, joined), joined), joined).projectName ==
        if name != "" then FieldCandidate(name, 0.55, "title_inference") else EmptyCandidate
  {
  }

  /** The fallbacks applied to a draft whose goal is unset. */
  lemma GoalFallbackField(d0: Draft, joined: string)
    requires d0.primaryGoal == EmptyCandidate
    ensures GoalFallback(NameFallback(TypeFallback(d0, joined), joined), joined).primaryGoal ==
        if joined != "" then FieldCandidate(Take(joined, 220), 0.4, "fallback_prompt_excerpt") else EmptyCandidate
  {
  }

  /** Without a label, `project_type` is the inferred type at 0.7, or stays empty. */
  lemma ParsedTypeFallback(prompt: string)
    requires LabelValue(prompt, ProjectTypeField) == ""
    ensures var inferred := InferredType(Join(" ", PromptLines(prompt)));
      Parsed(prompt).projectType ==
        if inferred.Some? then FieldCandidate(inferred.value.Value(), 0.7, "keyword_inference") else EmptyCandidate
  {
    LabelPassField(prompt, ProjectTypeField);
    TypeFallbackField(Labelled(PromptLines(prompt), RequiredFields), Join(" ", PromptLines(prompt)));
  }

  /** Without a label, `project_name` is the title made of the first tokens at 0.55, or stays
      empty when the prompt has no token. */
  lemma ParsedNameFallback(prompt: string)
    requires LabelValue(prompt, ProjectNameField) == ""
    ensures var name := InferProjectName(Join(" ", PromptLines(prompt)));
      Parsed(prompt).projectName == if name != "" then FieldCandidate(name, 0.55, "title_inference") else EmptyCandidate
  {
    LabelPassField(prompt, ProjectNameField);
    NameFallbackField(Labelled(PromptLines(prompt), RequiredFields), Join(" ", PromptLines(prompt)));
  }

  /** Without a label, `primary_goal` is the first 220 characters of the joined lines at 0.4,
      or stays empty when there is no non-blank line. */
  lemma ParsedGoalFallback(prompt: string)
    requires LabelValue(prompt, PrimaryGoalField) == ""
    ensures var joined := Join(" ", PromptLines(prompt));
      Parsed(prompt).primaryGoal ==
        if joined != "" then FieldCandidate(Take(joined, 220), 0.4, "fallback_prompt_excerpt") else EmptyCandidate
  {
    LabelPassField(prompt, PrimaryGoalField);
    GoalFallbackField(Labelled(PromptLines(prompt), RequiredFields), Join(" ", PromptLines(prompt)));
  }

  /** Every line `splitlines` cuts from a blank text is blank. */
  lemma {:induction false} SplitLinesOfBlank(s: string)
    requires IsBlank(s)
    ensures forall i :: 0 <= i < |SplitLines(s)| ==> IsBlank(SplitLines(s)[i])
    decreases |s|
  {
    if s != [] {
      var k := Find(s, '\n');
      if k < |s| {
        SplitLinesOfBlank(s[k + 1..]);
      }
    }
  }

  lemma {:induction false} StrippedNonBlankOfBlank(lines: seq<string>)
    requires forall i :: 0 <= i < |lines| ==> IsBlank(lines[i])
    ensures StrippedNonBlank(lines) == []
    decreases |lines|
  {
    if lines != [] {
      StripEmptyIffBlank(lines[0]);
      StrippedNonBlankOfBlank(lines[1..]);
    }
  }

  lemma {:induction false} LabelledNoLines(fs: seq<FieldName>)
    ensures Labelled([], fs) == DefaultDraft
    decreases |fs|
  {
    if fs != [] {
      LabelledNoLines(fs[..|fs| - 1]);
    }
  }

  /** Every keyword in the table is non-empty. */
  lemma TermsNonEmpty()
    ensures forall j, t :: 0 <= j < |TypeBuckets| && 0 <= t < |TypeBuckets[j].terms| ==> TypeBuckets[j].terms[t] != []
  {
  }

  /** Nothing is inferred from an empty text. */
  lemma NothingInferredFromEmpty()
    ensures InferredType("") == None
    ensures InferProjectName("") == ""
  {
    TermsNonEmpty();
    assert Lower("") == "";
    forall j | 0 <= j < |TypeBuckets| ensures !Hits("", TypeBuckets[j]) {
      forall t | 0 <= t < |TypeBuckets[j].terms| ensures !Contains("", TypeBuckets[j].terms[t]) {
        NotContainedIfCharMissing("", TypeBuckets[j].terms[t], 0);
      }
    }
    InferredTypeNone("");
    RunsNone("", IsNameChar);
  }

  /** The fallbacks leave the default draft as it is when the joined text is empty. */
  lemma FallbacksOnEmpty()
    ensures GoalFallback(NameFallback(TypeFallback(DefaultDraft, ""), ""), "") == DefaultDraft
  {
    NothingInferredFromEmpty();
  }

  /** An empty or all-blank prompt parses to the default draft. */
  lemma ParsedBlankPrompt(prompt: string)
    requires IsBlank(prompt)
    ensures Parsed(prompt) == DefaultDraft
  {
    SplitLinesOfBlank(prompt);
    StrippedNonBlankOfBlank(SplitLines(prompt));
    LabelledNoLines(RequiredFields);
    assert PromptLines(prompt) == [];
    assert Join(" ", PromptLines(prompt)) == "";
    FallbacksOnEmpty();
  }
}
