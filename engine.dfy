/**
 * The spec-building pipeline of `engine.py`: extraction by a provider, the interactive pass
 * that asks about weak fields one at a time, normalisation, and the result's classification.
 */
module Engine {
  import opened Wrappers
  import opened Text
  import opened JsonValues
  import opened Models
  import opened Parser
  import opened Providers

  /** The loop asks about a field when `not candidate.value.strip() or candidate.confidence < 0.8`. */
  const NeedsAnswer: Criterion := MissingBelow(DefaultAcceptedConfidence)

  const InteractiveRationale := "interactive_user_answer"

  /** The candidate a stripped, non-blank answer becomes. */
  function AnswerCandidate(f: FieldName, answer: string): FieldCandidate {
    var (v, c) := NormalizeUserFieldValue(f, answer);
    FieldCandidate(v, c, InteractiveRationale)
  }

  /** A candidate that some stripped, non-blank answer produced. */
  ghost predicate FromAnswer(f: FieldName, c: FieldCandidate) {
    exists a :: a != [] && Strip(a) == a && c == AnswerCandidate(f, a)
  }

  /** The state of `_resolve_gaps_interactively` after some fields: the draft, the fields
      `generate_followup` was called for, in order, and the error raised, if any. */
  datatype Gaps = Gaps(draft: Draft, asked: seq<FieldName>, failure: Option<string>)

  /** One iteration for field `f`. The user is `ask`: `ask(n, q)` is the answer typed to the
      `n`-th question asked (counting from 0), whose text is `q`. */
  function ResolveStep(s: Gaps, p: Provider, ask: (nat, string) -> string, f: FieldName): (t: Gaps)
    ensures forall g :: g != f ==> t.draft.Get(g) == s.draft.Get(g)
    ensures s.failure.None? && Meets(s.draft.Get(f), NeedsAnswer) ==> t.asked == s.asked + [f]
    ensures s.failure.Some? || !Meets(s.draft.Get(f), NeedsAnswer) ==> t == s
    ensures t.draft.Get(f) == s.draft.Get(f) || FromAnswer(f, t.draft.Get(f))
  {
    if s.failure.Some? || !Meets(s.draft.Get(f), NeedsAnswer) then s
    else match Followup(p, f, s.draft)
      case Err(e) => Gaps(s.draft, s.asked + [f], Some(e))
      case Ok(question) =>
        var answer := Strip(ask(|s.asked|, question));
        if answer == [] then Gaps(s.draft, s.asked + [f], None)
        else
          StripIdempotent(ask(|s.asked|, question));
          Gaps(s.draft.With(f, AnswerCandidate(f, answer)), s.asked + [f], None)
  }

  /** A blank answer only records that the question was asked. */
  lemma StepBlankAnswer(s: Gaps, p: Provider, ask: (nat, string) -> string, f: FieldName, q: string)
    requires s.failure.None? && Meets(s.draft.Get(f), NeedsAnswer) && Followup(p, f, s.draft) == Ok(q)
    requires Strip(ask(|s.asked|, q)) == []
    ensures ResolveStep(s, p, ask, f) == Gaps(s.draft, s.asked + [f], None)
  {
  }

  /** A non-blank answer is stored, normalised, in the visited field. */
  lemma StepAnswer(s: Gaps, p: Provider, ask: (nat, string) -> string, f: FieldName, q: string)
    requires s.failure.None? && Meets(s.draft.Get(f), NeedsAnswer) && Followup(p, f, s.draft) == Ok(q)
    requires Strip(ask(|s.asked|, q)) != []
    ensures ResolveStep(s, p, ask, f) == Gaps(s.draft.With(f, AnswerCandidate(f, Strip(ask(|s.asked|, q)))), s.asked + [f], None)
  {
  }

  /** The state after the loop has visited the fields `fs`, in order, starting from `d`. */
  function Resolved(d: Draft, p: Provider, ask: (nat, string) -> string, fs: seq<FieldName>): Gaps {
    if fs == [] then Gaps(d, [], None)
    else ResolveStep(Resolved(d, p, ask, fs[..|fs| - 1]), p, ask, fs[|fs| - 1])
  }

  lemma ResolvedExtend(d: Draft, p: Provider, ask: (nat, string) -> string, fs: seq<FieldName>, i: nat)
    requires i < |fs|
    ensures Resolved(d, p, ask, fs[..i + 1]) == ResolveStep(Resolved(d, p, ask, fs[..i]), p, ask, fs[i])
  {
    assert fs[..i + 1][..i] == fs[..i];
  }

  /** An ordered list's last field does not occur before it. */
  lemma LastNotEarlier(fs: seq<FieldName>)
    requires fs != [] && InFieldOrder(fs)
    ensures fs[|fs| - 1] !in fs[..|fs| - 1]
    ensures InFieldOrder(fs[..|fs| - 1])
  {
    var init := fs[..|fs| - 1];
    forall j | 0 <= j < |init| ensures init[j] != fs[|fs| - 1] {
      assert fs[j].Index() < fs[|fs| - 1].Index();
    }
  }

  /** Fields the loop does not visit keep their candidates. */
  lemma {:induction false} ResolvedOutside(d: Draft, p: Provider, ask: (nat, string) -> string, fs: seq<FieldName>, f: FieldName)
    requires f !in fs
    ensures Resolved(d, p, ask, fs).draft.Get(f) == d.Get(f)
    decreases |fs|
  {
    if fs != [] {
      ResolvedOutside(d, p, ask, fs[..|fs| - 1], f);
    }
  }

  /** Every field ends with its original candidate or with the candidate of an answer. */
  lemma {:induction false} ResolvedCandidates(d: Draft, p: Provider, ask: (nat, string) -> string, fs: seq<FieldName>, f: FieldName)
    ensures var c := Resolved(d, p, ask, fs).draft.Get(f); c == d.Get(f) || FromAnswer(f, c)
    decreases |fs|
  {
    if fs != [] {
      ResolvedCandidates(d, p, ask, fs[..|fs| - 1], f);
    }
  }

  /** The loop asks only about visited fields that needed an answer when it started, and, when
      nothing was raised, about exactly those, in order. */
  lemma {:induction false} ResolvedAsked(d: Draft, p: Provider, ask: (nat, string) -> string, fs: seq<FieldName>)
    requires InFieldOrder(fs)
    ensures var g := Resolved(d, p, ask, fs);
      && (forall f :: f in g.asked ==> f in fs && Meets(d.Get(f), NeedsAnswer))
      && (g.failure.None? ==> g.asked == Select(d, fs, NeedsAnswer))
    decreases |fs|
  {
    if fs != [] {
      var init := fs[..|fs| - 1];
      var f := fs[|fs| - 1];
      LastNotEarlier(fs);
      ResolvedAsked(d, p, ask, init);
      ResolvedOutside(d, p, ask, init, f);
      StepAsked(Resolved(d, p, ask, init), p, ask, f);
      assert fs == init + [f];
    }
  }

  /** One step asks about its field at most, and exactly when nothing was raised before and
      the field needs an answer. */
  lemma StepAsked(s: Gaps, p: Provider, ask: (nat, string) -> string, f: FieldName)
    ensures var t := ResolveStep(s, p, ask, f);
      && (t.asked == s.asked || (t.asked == s.asked + [f] && Meets(s.draft.Get(f), NeedsAnswer)))
      && (t.failure.None? ==> s.failure.None? && t.asked == s.asked + (if Meets(s.draft.Get(f), NeedsAnswer) then [f] else []))
  {
  }

  /** A field that did not need an answer is never asked about and never changed. */
  lemma {:induction false} ResolvedKeepsAccepted(d: Draft, p: Provider, ask: (nat, string) -> string, fs: seq<FieldName>, f: FieldName)
    requires InFieldOrder(fs)
    requires !Meets(d.Get(f), NeedsAnswer)
    ensures Resolved(d, p, ask, fs).draft.Get(f) == d.Get(f)
    ensures f !in Resolved(d, p, ask, fs).asked
    decreases |fs|
  {
    if fs != [] {
      var init := fs[..|fs| - 1];
      var last := fs[|fs| - 1];
      LastNotEarlier(fs);
      ResolvedKeepsAccepted(d, p, ask, init, f);
      StepKeepsAccepted(Resolved(d, p, ask, init), p, ask, last, f);
    }
  }

  /** One step leaves a field that needs no answer as it was, and does not ask about it. */
  lemma StepKeepsAccepted(s: Gaps, p: Provider, ask: (nat, string) -> string, last: FieldName, f: FieldName)
    requires !Meets(s.draft.Get(f), NeedsAnswer) && f !in s.asked
    ensures ResolveStep(s, p, ask, last).draft.Get(f) == s.draft.Get(f)
    ensures f !in ResolveStep(s, p, ask, last).asked
  {
  }

  /** The local provider never raises, so the loop runs to the end. */
  lemma {:induction false} LocalNeverFails(d: Draft, ask: (nat, string) -> string, fs: seq<FieldName>)
    ensures Resolved(d, Local, ask, fs).failure.None?
    decreases |fs|
  {
    if fs != [] {
      var s := Resolved(d, Local, ask, fs[..|fs| - 1]);
      LocalNeverFails(d, ask, fs[..|fs| - 1]);
      LocalFollowupAsks(fs[|fs| - 1], s.draft);
    }
  }

  /** A field visited with a non-blank answer ends with that answer's candidate. */
  lemma {:induction false} AnsweredFields(d: Draft, p: Provider, ask: (nat, string) -> string, fs: seq<FieldName>)
    requires InFieldOrder(fs)
    requires forall n, q :: !IsBlank(ask(n, q))
    requires Resolved(d, p, ask, fs).failure.None?
    ensures forall f :: f in fs && Meets(d.Get(f), NeedsAnswer) ==> FromAnswer(f, Resolved(d, p, ask, fs).draft.Get(f))
    decreases |fs|
  {
    if fs != [] {
      var init := fs[..|fs| - 1];
      var f := fs[|fs| - 1];
      LastNotEarlier(fs);
      var s := Resolved(d, p, ask, init);
      assert s.failure.None?;
      AnsweredFields(d, p, ask, init);
      ResolvedOutside(d, p, ask, init, f);
      if Meets(d.Get(f), NeedsAnswer) {
        StepAnswered(s, p, ask, f);
      }
    }
  }

  /** A step that asks about a field and gets a non-blank answer stores that answer. */
  lemma StepAnswered(s: Gaps, p: Provider, ask: (nat, string) -> string, f: FieldName)
    requires s.failure.None? && Meets(s.draft.Get(f), NeedsAnswer)
    requires ResolveStep(s, p, ask, f).failure.None?
    requires forall n, q :: !IsBlank(ask(n, q))
    ensures FromAnswer(f, ResolveStep(s, p, ask, f).draft.Get(f))
  {
    var q := Followup(p, f, s.draft).value;
    var a := ask(|s.asked|, q);
    StripEmptyIffBlank(a);
    StripIdempotent(a);
    assert ResolveStep(s, p, ask, f).draft.Get(f) == AnswerCandidate(f, Strip(a));
  }

  /** An answer's candidate has a non-blank value, and a confidence of 1.0 except for a
      `project_type` answer that names no project type, which gets 0.4. */
  lemma AnswerCandidateShape(f: FieldName, c: FieldCandidate)
    requires FromAnswer(f, c)
    ensures !IsBlank(c.value)
    ensures c.confidence == 1.0 || (f == ProjectTypeField && c.confidence == 0.4)
    ensures c.rationale == InteractiveRationale
  {
    var a :| a != [] && Strip(a) == a && c == AnswerCandidate(f, a);
    StripEmptyIffBlank(a);
    CollapseShape(a);
    var cleaned := Collapse(a);
    if f == ProjectTypeField {
      match MatchProjectType(cleaned, ProjectTypes)
      case Some(t) => {
        ValueCollapsed(t);
        CollapseShape(t.Value());
        assert c.value == t.Value();
        assert !IsBlank(t.Value()) by {
          if IsBlank(t.Value()) {
            CollapseShape(t.Value());
          }
          assert t.Value() != [];
        }
      }
      case None => {}
    } else {
      NormalizeOtherField(f, a);
    }
    if c.value != [] {
      assert !IsSpace(c.value[0]);
    }
  }

  /** `_resolve_gaps_interactively(draft, provider, ask_fn)`: one pass over `REQUIRED_FIELDS`
      that asks about each weak field and stores each non-blank answer, normalised, in place.
      A raised error stops the pass with the fields visited so far updated. */
  method ResolveGapsInteractively(draft: SpecDraft, p: Provider, ask: (nat, string) -> string)
    returns (failure: Option<string>, ghost asked: seq<FieldName>)
    modifies draft
    ensures var g := Resolved(old(draft.Snapshot()), p, ask, RequiredFields);
      draft.Snapshot() == g.draft && failure == g.failure && asked == g.asked
  {
    failure, asked := ResolveFields(draft, p, ask, RequiredFields);
  }

  /** The loop of `_resolve_gaps_interactively` over the fields `fs`. */
  method ResolveFields(draft: SpecDraft, p: Provider, ask: (nat, string) -> string, fs: seq<FieldName>)
    returns (failure: Option<string>, ghost asked: seq<FieldName>)
    modifies draft
    ensures var g := Resolved(old(draft.Snapshot()), p, ask, fs);
      draft.Snapshot() == g.draft && failure == g.failure && asked == g.asked
  {
    ghost var d0 := draft.Snapshot();
    var questions: nat := 0;
    asked := [];
    var i := 0;
    while i < |fs|
      invariant 0 <= i <= |fs|
      invariant Resolved(d0, p, ask, fs[..i]) == Gaps(draft.Snapshot(), asked, None)
      invariant questions == |asked|
    {
      ResolvedExtend(d0, p, ask, fs, i);
      failure, asked, questions := VisitField(draft, p, ask, fs[i], asked, questions);
      if failure.Some? {
        FailureStays(d0, p, ask, fs, i + 1);
        return;
      }
      i := i + 1;
    }
    assert fs[..i] == fs;
    return None, asked;
  }

  /** One iteration of the loop: ask about `f` when it needs an answer, and store a non-blank
      answer. `questions` counts the questions asked so far. */
  method VisitField(draft: SpecDraft, p: Provider, ask: (nat, string) -> string, f: FieldName,
                    ghost asked: seq<FieldName>, questions: nat)
    returns (failure: Option<string>, ghost asked': seq<FieldName>, questions': nat)
    requires questions == |asked|
    modifies draft
    ensures Gaps(draft.Snapshot(), asked', failure) == ResolveStep(Gaps(old(draft.Snapshot()), asked, None), p, ask, f)
    ensures questions' == |asked'|
  {
    ghost var s := Gaps(draft.Snapshot(), asked, None);
    var candidate := draft.Snapshot().Get(f);
    if !Meets(candidate, NeedsAnswer) {
      return None, asked, questions;
    }
    var question := Followup(p, f, draft.Snapshot());
    if question.Err? {
      return Some(question.error), asked + [f], questions + 1;
    }
    var answer := Strip(ask(questions, question.value));
    if answer == [] {
      StepBlankAnswer(s, p, ask, f, question.value);
      return None, asked + [f], questions + 1;
    }
    var (normalized, confidence) := NormalizeUserFieldValue(f, answer);
    draft.Set(f, FieldCandidate(normalized, confidence, InteractiveRationale));
    StepAnswer(s, p, ask, f, question.value);
    return None, asked + [f], questions + 1;
  }

  /** Once an error is raised the remaining fields change nothing. */
  lemma {:induction false} FailureStays(d: Draft, p: Provider, ask: (nat, string) -> string, fs: seq<FieldName>, n: nat)
    requires n <= |fs| && Resolved(d, p, ask, fs[..n]).failure.Some?
    ensures Resolved(d, p, ask, fs) == Resolved(d, p, ask, fs[..n])
    decreases |fs| - n
  {
    if n < |fs| {
      ResolvedExtend(d, p, ask, fs, n);
      FailureStays(d, p, ask, fs, n + 1);
    } else {
      assert fs[..n] == fs;
    }
  }

  /** With every answer non-blank and no error raised, the only field that can still be missing
      afterwards is `project_type`, and only when its answer named no project type (kept at 0.4). */
  lemma AllAnsweredOnlyTypeMissing(d: Draft, p: Provider, ask: (nat, string) -> string)
    requires forall n, q :: !IsBlank(ask(n, q))
    requires Resolved(d, p, ask, RequiredFields).failure.None?
    ensures var r := Resolved(d, p, ask, RequiredFields).draft;
      forall f :: f in r.Missing(DefaultMinConfidence) ==> f == ProjectTypeField && r.Get(f).confidence == 0.4
  {
    var r := Resolved(d, p, ask, RequiredFields).draft;
    RequiredFieldsInOrder();
    AnsweredFields(d, p, ask, RequiredFields);
    forall f | f in r.Missing(DefaultMinConfidence)
      ensures f == ProjectTypeField && r.Get(f).confidence == 0.4
    {
      MissingField(r, DefaultMinConfidence, f);
      assert RequiredFields[f.Index()] == f;
      if Meets(d.Get(f), NeedsAnswer) {
        AnswerCandidateShape(f, r.Get(f));
      } else {
        ResolvedKeepsAccepted(d, p, ask, RequiredFields, f);
        StripEmptyIffBlank(d.Get(f).value);
      }
    }
  }

  /* ---------------------------------------------------------------------------------------- */
  /* build_spec_draft                                                                          */
  /* ---------------------------------------------------------------------------------------- */

  /** The field names as the JSON strings `to_json_dict` lists. */
  function KeyList(fs: seq<FieldName>): (r: seq<Json>)
    ensures |r| == |fs|
    ensures forall i :: 0 <= i < |fs| ==> r[i] == JStr(fs[i].Key())
  {
    if fs == [] then [] else [JStr(fs[0].Key())] + KeyList(fs[1..])
  }

  /** Each listed name reads back as the field it names. */
  lemma KeyListDecodes(fs: seq<FieldName>)
    ensures forall i :: 0 <= i < |fs| ==> FieldNamed(KeyList(fs)[i].s, RequiredFields) == Some(fs[i])
  {
    RequiredFieldsInOrder();
    forall i | 0 <= i < |fs| ensures FieldNamed(fs[i].Key(), RequiredFields) == Some(fs[i]) {
      var r := FieldNamed(fs[i].Key(), RequiredFields);
      assert RequiredFields[fs[i].Index()] == fs[i];
      if r.Some? && r.value != fs[i] {
        KeysDistinct(r.value, fs[i]);
      }
    }
  }

  /** `BuildResult`: the final draft and the fields still missing or ambiguous in it. */
  datatype BuildResult = BuildResult(draft: Draft, missingFields: seq<FieldName>, ambiguousFields: seq<FieldName>) {
    /** `to_json_dict()`: the draft's dictionary and both lists of field names. */
    function ToJsonDict(): map<string, Json> {
      map["fields" := JObj(draft.AsDict()),
          "missing_fields" := JArr(KeyList(missingFields)),
          "ambiguous_fields" := JArr(KeyList(ambiguousFields))]
    }
  }

  /** `to_json_dict` holds exactly the three keys: the draft's dictionary, one entry per required
      field, and both lists of field names, each name as the key of the field it lists. */
  lemma ToJsonDictShape(b: BuildResult)
    ensures var m := b.ToJsonDict();
      && m.Keys == {"fields", "missing_fields", "ambiguous_fields"}
      && m["fields"].JObj?
      && (forall k :: k in m["fields"].fields <==> k in RequiredKeys)
      && (forall f: FieldName :: f.Key() in m["fields"].fields && m["fields"].fields[f.Key()] == CandidateJson(b.draft.Get(f)))
      && m["missing_fields"] == JArr(KeyList(b.missingFields))
      && m["ambiguous_fields"] == JArr(KeyList(b.ambiguousFields))
  {
    AsDictEntries(b.draft);
  }

  /** `missing_fields()` and `ambiguous_fields()` with their default thresholds. */
  function Classified(d: Draft): BuildResult {
    BuildResult(d, d.Missing(DefaultMinConfidence), d.Ambiguous(DefaultMinConfidence, DefaultAcceptedConfidence))
  }

  /** `provider or LocalProvider()` */
  function Selected(provider: Option<Provider>): Provider {
    if provider.Some? then provider.value else Local
  }

  /** What `build_spec_draft(prompt, interactive, provider, ask_fn)` returns, or the error it
      raises: extract, resolve gaps when interactive, normalise, classify. */
  function Built(prompt: string, interactive: bool, provider: Option<Provider>, ask: (nat, string) -> string): Result<BuildResult, string> {
    var p := Selected(provider);
    match Extract(p, prompt)
    case Err(e) => Err(e)
    case Ok(d) =>
      var g := if interactive then Resolved(d, p, ask, RequiredFields) else Gaps(d, [], None);
      if g.failure.Some? then Err(g.failure.value)
      else match NormalizeSpec(p, g.draft)
        case Err(e) => Err(e)
        case Ok(n) => Ok(Classified(n))
  }

  /** `build_spec_draft`: the local provider parses into a fresh draft object and normalises it
      in place; another provider's drafts are taken as new objects. */
  method BuildSpecDraft(prompt: string, interactive: bool, provider: Option<Provider>, ask: (nat, string) -> string)
    returns (r: Result<BuildResult, string>)
    ensures r == Built(prompt, interactive, provider, ask)
  {
    var p := if provider.Some? then provider.value else Local;
    var draft: SpecDraft;
    if p.Local? {
      draft := ParsePrompt(prompt);
    } else {
      var extracted := p.extract(prompt);
      if extracted.Err? {
        return Err(extracted.error);
      }
      draft := new SpecDraft.FromDraft(extracted.value);
    }
    ghost var d0 := draft.Snapshot();
    if interactive {
      var failure: Option<string>;
      ghost var asked: seq<FieldName>;
      failure, asked := ResolveGapsInteractively(draft, p, ask);
      if failure.Some? {
        return Err(failure.value);
      }
    }
    var normalized := NormalizeSpec(p, draft.Snapshot());
    if normalized.Err? {
      return Err(normalized.error);
    }
    if p.Injected? {
      draft := new SpecDraft.FromDraft(normalized.value);
    }
    var missing := draft.MissingFields(DefaultMinConfidence);
    var ambiguous := draft.AmbiguousFields(DefaultMinConfidence, DefaultAcceptedConfidence);
    return Ok(BuildResult(draft.Snapshot(), missing, ambiguous));
  }

  /** The result lists the missing and ambiguous fields of its own draft, each in
      `REQUIRED_FIELDS` order, and no field in both. */
  lemma BuiltClassifies(prompt: string, interactive: bool, provider: Option<Provider>, ask: (nat, string) -> string)
    requires Built(prompt, interactive, provider, ask).Ok?
    ensures var b := Built(prompt, interactive, provider, ask).value;
      && InFieldOrder(b.missingFields) && InFieldOrder(b.ambiguousFields)
      && (forall f :: f in b.missingFields <==> IsBlank(b.draft.Get(f).value) || b.draft.Get(f).confidence < DefaultMinConfidence)
      && (forall f :: !(f in b.missingFields && f in b.ambiguousFields))
  {
    var d := Built(prompt, interactive, provider, ask).value.draft;
    MissingInOrder(d, DefaultMinConfidence);
    AmbiguousInOrder(d, DefaultMinConfidence, DefaultAcceptedConfidence);
    MissingAmbiguousDisjoint(d, DefaultMinConfidence, DefaultAcceptedConfidence);
    forall f ensures f in d.Missing(DefaultMinConfidence) <==> IsBlank(d.Get(f).value) || d.Get(f).confidence < DefaultMinConfidence {
      MissingField(d, DefaultMinConfidence, f);
    }
  }

  /** Without a provider and without the interactive pass, the result classifies the parsed
      prompt and the answers are never consulted. */
  lemma LocalNonInteractive(prompt: string, ask: (nat, string) -> string)
    ensures Built(prompt, false, None, ask) == Ok(Classified(Parsed(prompt)))
  {
  }

  /** A blank prompt, parsed locally without questions, leaves every required field missing
      and none ambiguous. */
  lemma BlankPromptAllMissing(prompt: string, ask: (nat, string) -> string)
    requires IsBlank(prompt)
    ensures Built(prompt, false, None, ask) == Ok(BuildResult(DefaultDraft, RequiredFields, []))
  {
    ParsedBlankPrompt(prompt);
    DefaultDraftClassification(DefaultMinConfidence, DefaultAcceptedConfidence);
  }

  /** With the local provider and every answer non-blank the interactive build succeeds and at
      most `project_type` is left missing. */
  lemma LocalAllAnswered(prompt: string, ask: (nat, string) -> string)
    requires forall n, q :: !IsBlank(ask(n, q))
    ensures Built(prompt, true, None, ask).Ok?
    ensures forall f :: f in Built(prompt, true, None, ask).value.missingFields ==> f == ProjectTypeField
  {
    var d := Parsed(prompt);
    LocalNeverFails(d, ask, RequiredFields);
    AllAnsweredOnlyTypeMissing(d, Local, ask);
  }

  /** Test instance: the draft returned by the fake provider of `tests/test_engine.py:11-21`,
      with a name and a goal accepted and every other field empty. */
  const SeededDraft := Draft(
    FieldCandidate("Demo", 1.0, "seed"),
    FieldCandidate("", 0.0, "missing"),
    FieldCandidate("Ship MVP", 0.9, "seed"),
    FieldCandidate("", 0.0, "missing"),
    FieldCandidate("", 0.0, "missing"),
    FieldCandidate("", 0.0, "missing"),
    FieldCandidate("", 0.0, "missing"),
    FieldCandidate("", 0.0, "missing"))

  /** Test instance: in that draft exactly the name and the goal need no answer. */
  lemma SeededWeakFields(f: FieldName)
    ensures Meets(SeededDraft.Get(f), NeedsAnswer) <==> f != ProjectNameField && f != PrimaryGoalField
  {
    var demo, goal := SeededDraft.projectName.value, SeededDraft.primaryGoal.value;
    assert !IsSpace(demo[0]) && !IsSpace(goal[0]);
    StripEmptyIffBlank(demo);
    StripEmptyIffBlank(goal);
    StripEmptyIffBlank("");
  }

  /** Test instance: the weak fields of that draft, in order. The general fact is
      `NameAndGoalAccepted`. */
  lemma SeededSelection()
    ensures Select(SeededDraft, RequiredFields, NeedsAnswer) ==
      [ProjectTypeField, TargetUsersField, InputsField, OutputsField, ConstraintsField, NonGoalsField]
  {
    forall f ensures Meets(SeededDraft.Get(f), NeedsAnswer) <==> f != ProjectNameField && f != PrimaryGoalField {
      SeededWeakFields(f);
    }
    NameAndGoalAccepted(SeededDraft);
  }

  /** Any draft whose only accepted fields are the name and the goal. */
  lemma NameAndGoalAccepted(d: Draft)
    requires forall f :: Meets(d.Get(f), NeedsAnswer) <==> f != ProjectNameField && f != PrimaryGoalField
    ensures Select(d, RequiredFields, NeedsAnswer) ==
      [ProjectTypeField, TargetUsersField, InputsField, OutputsField, ConstraintsField, NonGoalsField]
  {
    var weak := [ProjectTypeField, TargetUsersField, InputsField, OutputsField, ConstraintsField, NonGoalsField];
    RequiredFieldsInOrder();
    SelectInOrder(d, RequiredFields, NeedsAnswer);
    SelectedNeedsAnswer(d);
    assert forall f :: f in weak <==> f != ProjectNameField && f != PrimaryGoalField;
    SameMembersInOrder(Select(d, RequiredFields, NeedsAnswer), weak);
  }

  /** The fields selected from `REQUIRED_FIELDS` as needing an answer are those that do. */
  lemma SelectedNeedsAnswer(d: Draft)
    ensures forall f :: f in Select(d, RequiredFields, NeedsAnswer) <==> Meets(d.Get(f), NeedsAnswer)
  {
    RequiredFieldsInOrder();
    forall f ensures f in Select(d, RequiredFields, NeedsAnswer) <==> Meets(d.Get(f), NeedsAnswer) {
      SelectMember(d, RequiredFields, NeedsAnswer, f);
      assert RequiredFields[f.Index()] == f;
    }
  }

  lemma IndexDetermines(f: FieldName, g: FieldName)
    requires f.Index() == g.Index()
    ensures f == g
  {
  }

  /** Two ordered lists of fields with the same members are equal. */
  lemma {:induction false} SameMembersInOrder(a: seq<FieldName>, b: seq<FieldName>)
    requires InFieldOrder(a) && InFieldOrder(b)
    requires forall f :: f in a <==> f in b
    ensures a == b
    decreases |a|
  {
    HeadMember(b);
    if a != [] {
      assert a[0] in b;
      SameFirst(a, b);
      forall f ensures f in a[1..] <==> f in b[1..] {
        if f in a[1..] {
          TailMember(a, b, f);
        }
        if f in b[1..] {
          TailMember(b, a, f);
        }
      }
      SameMembersInOrder(a[1..], b[1..]);
      assert a == [a[0]] + a[1..];
      assert b == [b[0]] + b[1..];
    }
  }

  lemma HeadMember(b: seq<FieldName>)
    ensures b != [] ==> b[0] in b
  {
  }

  /** Two non-empty ordered lists with the same members start with the same field. */
  lemma SameFirst(a: seq<FieldName>, b: seq<FieldName>)
    requires InFieldOrder(a) && InFieldOrder(b) && a != [] && b != []
    requires a[0] in b && b[0] in a
    ensures a[0] == b[0]
  {
    var i :| 0 <= i < |a| && a[i] == b[0];
    var j :| 0 <= j < |b| && b[j] == a[0];
    assert a[0].Index() <= a[i].Index();
    assert b[0].Index() <= b[j].Index();
    IndexDetermines(a[0], b[0]);
  }

  /** A later member of one list is a later member of another with the same first field. */
  lemma TailMember(a: seq<FieldName>, b: seq<FieldName>, f: FieldName)
    requires InFieldOrder(a) && InFieldOrder(b) && a != [] && b != [] && a[0] == b[0]
    requires f in a[1..] && f in b
    ensures f in b[1..]
  {
    var k :| 0 <= k < |a[1..]| && a[1..][k] == f;
    assert a[0].Index() < a[k + 1].Index();
    var m :| 0 <= m < |b| && b[m] == f;
    assert m != 0;
    assert b[1..][m - 1] == f;
  }

  /** Test instance of `tests/test_engine.py:32-57`: from that draft, whatever the provider and
      the answers, and with nothing raised, the follow-ups are asked one field at a time for
      exactly the six weak fields, in order. The general fact is `ResolvedAsked`. */
  lemma SeededFollowupOrder(p: Provider, ask: (nat, string) -> string, fs: seq<FieldName>)
    requires fs == RequiredFields
    requires Resolved(SeededDraft, p, ask, fs).failure.None?
    ensures Resolved(SeededDraft, p, ask, fs).asked ==
      [ProjectTypeField, TargetUsersField, InputsField, OutputsField, ConstraintsField, NonGoalsField]
  {
    RequiredFieldsInOrder();
    ResolvedAsked(SeededDraft, p, ask, fs);
    SeededSelection();
  }
}
