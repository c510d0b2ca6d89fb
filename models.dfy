/**
 * The field model of a specification draft (src/spec_engine/models.py): the closed set of
 * project types, the eight required fields in their fixed order, one extracted candidate per
 * field, the mutable draft and the two derived classifications `missing_fields` and
 * `ambiguous_fields`.
 */
module Models {
  import opened Text
  import opened JsonValues

  /** `ProjectType`: the seven project types, in declaration order. */
  datatype ProjectType = Library | Service | CliTool | WebApp | BackendApi | FrontendUi | FullStackApp {
    /** The enumeration member's `.value`. */
    function Value(): string {
      match this
      case Library => "library"
      case Service => "service"
      case CliTool => "CLI tool"
      case WebApp => "web app"
      case BackendApi => "backend API"
      case FrontendUi => "frontend UI"
      case FullStackApp => "full-stack app"
    }
  }

  /** Iteration order of `for project_type in ProjectType`. */
  const ProjectTypes: seq<ProjectType> := [Library, Service, CliTool, WebApp, BackendApi, FrontendUi, FullStackApp]

  /** The seven values are pairwise distinct even after lower-casing, so matching a text
      case-insensitively against them picks at most one. */
  lemma ProjectTypeValuesDistinct(a: ProjectType, b: ProjectType)
    requires a != b
    ensures Lower(a.Value()) != Lower(b.Value())
  {
    var s, t := a.Value(), b.Value();
    if |s| == |t| {
      assert LowerChar(s[0]) != LowerChar(t[0]);
      assert Lower(s)[0] != Lower(t)[0];
    }
  }

  /** Every project type appears exactly once in the iteration order. */
  lemma ProjectTypesEnumerated(t: ProjectType)
    ensures t in ProjectTypes
    ensures forall i, j :: 0 <= i < j < |ProjectTypes| ==> ProjectTypes[i] != ProjectTypes[j]
  {
  }

  /** The names in `REQUIRED_FIELDS`. */
  datatype FieldName =
    | ProjectNameField | ProjectTypeField | PrimaryGoalField | TargetUsersField
    | InputsField | OutputsField | ConstraintsField | NonGoalsField
  {
    /** The attribute name, which is also the key in every dictionary form of a draft. */
    function Key(): string {
      match this
      case ProjectNameField => "project_name"
      case ProjectTypeField => "project_type"
      case PrimaryGoalField => "primary_goal"
      case TargetUsersField => "target_users"
      case InputsField => "inputs"
      case OutputsField => "outputs"
      case ConstraintsField => "constraints"
      case NonGoalsField => "non_goals"
    }

    /** The position of the field in `REQUIRED_FIELDS`. */
    function Index(): nat {
      match this
      case ProjectNameField => 0
      case ProjectTypeField => 1
      case PrimaryGoalField => 2
      case TargetUsersField => 3
      case InputsField => 4
      case OutputsField => 5
      case ConstraintsField => 6
      case NonGoalsField => 7
    }
  }

  /** `REQUIRED_FIELDS`, in its fixed order. */
  const RequiredFields: seq<FieldName> := [
    ProjectNameField, ProjectTypeField, PrimaryGoalField, TargetUsersField,
    InputsField, OutputsField, ConstraintsField, NonGoalsField
  ]

  /** The keys are pairwise distinct, so a field is identified by its key. */
  lemma KeysDistinct(f: FieldName, g: FieldName)
    requires f != g
    ensures f.Key() != g.Key()
  {
    var s, t := f.Key(), g.Key();
    if |s| == |t| {
      assert s[0] != t[0] || s[2] != t[2] || s[8] != t[8];
    }
  }

  /** The keys of `REQUIRED_FIELDS`, position by position. */
  const RequiredKeys: seq<string> :=
    ["project_name", "project_type", "primary_goal", "target_users", "inputs", "outputs", "constraints", "non_goals"]

  /** A list of field names that follows `REQUIRED_FIELDS` order without repeating a field. */
  predicate InFieldOrder(fs: seq<FieldName>) {
    forall i, j :: 0 <= i < j < |fs| ==> fs[i].Index() < fs[j].Index()
  }

  lemma RequiredFieldsInOrder()
    ensures InFieldOrder(RequiredFields)
    ensures forall i :: 0 <= i < |RequiredFields| ==> RequiredFields[i].Index() == i
    ensures forall f: FieldName :: f.Index() < |RequiredFields| && RequiredFields[f.Index()] == f
    ensures forall i :: 0 <= i < |RequiredKeys| ==> RequiredKeys[i] == RequiredFields[i].Key()
  {
  }

  /** `FieldCandidate`: one extracted value with its confidence and the reason it was chosen. */
  datatype FieldCandidate = FieldCandidate(value: string, confidence: real, rationale: string)

  /** `FieldCandidate()`: the defaults `("", 0.0, "")`. */
  const EmptyCandidate := FieldCandidate("", 0.0, "")

  /** The candidate as a dictionary, as `as_dict` lays it out. */
  function CandidateJson(c: FieldCandidate): Json {
    JObj(map["value" := JStr(c.value), "confidence" := JNum(c.confidence), "rationale" := JStr(c.rationale)])
  }

  /** `min_confidence` and `accepted_confidence` defaults. */
  const DefaultMinConfidence: real := 0.5
  const DefaultAcceptedConfidence: real := 0.8

  /** The two per-field tests a draft is classified by. */
  datatype Criterion =
    | /** `not candidate.value.strip() or candidate.confidence < min_confidence` */
      MissingBelow(minConfidence: real)
    | /** `candidate.value.strip() and min_confidence <= candidate.confidence < accepted_confidence` */
      AmbiguousBetween(minConfidence: real, acceptedConfidence: real)

  predicate Meets(c: FieldCandidate, k: Criterion) {
    match k
    case MissingBelow(m) => Strip(c.value) == [] || c.confidence < m
    case AmbiguousBetween(m, a) => Strip(c.value) != [] && m <= c.confidence < a
  }

  /** The fields of `fs` whose candidate in `d` meets `k`, in the order of `fs`. */
  function Select(d: Draft, fs: seq<FieldName>, k: Criterion): (r: seq<FieldName>)
    ensures |r| <= |fs|
  {
    if fs == [] then []
    else Select(d, fs[..|fs| - 1], k) + (if Meets(d.Get(fs[|fs| - 1]), k) then [fs[|fs| - 1]] else [])
  }

  /** A field is selected exactly when it is in the list and meets the criterion. */
  lemma {:induction false} SelectMember(d: Draft, fs: seq<FieldName>, k: Criterion, f: FieldName)
    ensures f in Select(d, fs, k) <==> f in fs && Meets(d.Get(f), k)
    decreases |fs|
  {
    if fs != [] {
      var init := fs[..|fs| - 1];
      SelectMember(d, init, k, f);
      assert fs == init + [fs[|fs| - 1]];
    }
  }

  /** Extending the examined prefix by one field appends that field when it meets the criterion. */
  lemma SelectExtend(d: Draft, fs: seq<FieldName>, i: nat, k: Criterion)
    requires i < |fs|
    ensures Select(d, fs[..i + 1], k) == Select(d, fs[..i], k) + (if Meets(d.Get(fs[i]), k) then [fs[i]] else [])
  {
    assert fs[..i + 1][..i] == fs[..i];
  }

  /** Selecting from an ordered list keeps the order and repeats nothing. */
  lemma {:induction false} SelectInOrder(d: Draft, fs: seq<FieldName>, k: Criterion)
    requires InFieldOrder(fs)
    ensures InFieldOrder(Select(d, fs, k))
    decreases |fs|
  {
    if fs != [] {
      var init := fs[..|fs| - 1];
      SelectInOrder(d, init, k);
      var s := Select(d, init, k);
      forall i | 0 <= i < |s| ensures s[i].Index() < fs[|fs| - 1].Index() {
        SelectMember(d, init, k, s[i]);
        var j :| 0 <= j < |init| && init[j] == s[i];
      }
    }
  }

  /** Selecting when every field meets the criterion gives the list back. */
  lemma {:induction false} SelectAll(d: Draft, fs: seq<FieldName>, k: Criterion)
    requires forall i :: 0 <= i < |fs| ==> Meets(d.Get(fs[i]), k)
    ensures Select(d, fs, k) == fs
    decreases |fs|
  {
    if fs != [] {
      SelectAll(d, fs[..|fs| - 1], k);
    }
  }

  /** Selecting when no field meets the criterion gives the empty list. */
  lemma {:induction false} SelectNone(d: Draft, fs: seq<FieldName>, k: Criterion)
    requires forall i :: 0 <= i < |fs| ==> !Meets(d.Get(fs[i]), k)
    ensures Select(d, fs, k) == []
    decreases |fs|
  {
    if fs != [] {
      SelectNone(d, fs[..|fs| - 1], k);
    }
  }

  /** The value of a `SpecDraft`: one candidate per required field. */
  datatype Draft = Draft(
    projectName: FieldCandidate,
    projectType: FieldCandidate,
    primaryGoal: FieldCandidate,
    targetUsers: FieldCandidate,
    inputs: FieldCandidate,
    outputs: FieldCandidate,
    constraints: FieldCandidate,
    nonGoals: FieldCandidate)
  {
    /** `getattr(draft, field_name)` */
    function Get(f: FieldName): FieldCandidate {
      match f
      case ProjectNameField => projectName
      case ProjectTypeField => projectType
      case PrimaryGoalField => primaryGoal
      case TargetUsersField => targetUsers
      case InputsField => inputs
      case OutputsField => outputs
      case ConstraintsField => constraints
      case NonGoalsField => nonGoals
    }

    /** `setattr(draft, field_name, c)`: replaces that one field and leaves the other seven. */
    function With(f: FieldName, c: FieldCandidate): (d: Draft)
      ensures d.Get(f) == c
      ensures forall g :: g != f ==> d.Get(g) == Get(g)
    {
      match f
      case ProjectNameField => this.(projectName := c)
      case ProjectTypeField => this.(projectType := c)
      case PrimaryGoalField => this.(primaryGoal := c)
      case TargetUsersField => this.(targetUsers := c)
      case InputsField => this.(inputs := c)
      case OutputsField => this.(outputs := c)
      case ConstraintsField => this.(constraints := c)
      case NonGoalsField => this.(nonGoals := c)
    }

    /** `as_dict`: one entry per required field, keyed by its name. */
    function AsDict(): map<string, Json> {
      map[
        "project_name" := CandidateJson(projectName),
        "project_type" := CandidateJson(projectType),
        "primary_goal" := CandidateJson(primaryGoal),
        "target_users" := CandidateJson(targetUsers),
        "inputs" := CandidateJson(inputs),
        "outputs" := CandidateJson(outputs),
        "constraints" := CandidateJson(constraints),
        "non_goals" := CandidateJson(nonGoals)]
    }

    /** What `missing_fields(min_confidence)` returns. */
    function Missing(minConfidence: real): seq<FieldName> {
      Select(this, RequiredFields, MissingBelow(minConfidence))
    }

    /** What `ambiguous_fields(min_confidence, accepted_confidence)` returns. */
    function Ambiguous(minConfidence: real, acceptedConfidence: real): seq<FieldName> {
      Select(this, RequiredFields, AmbiguousBetween(minConfidence, acceptedConfidence))
    }
  }

  /** `as_dict` has one entry per required field, keyed by its name and holding that field's
      candidate. */
  lemma AsDictEntries(d: Draft)
    ensures forall k :: k in d.AsDict() <==> k in RequiredKeys
    ensures forall f: FieldName :: f.Key() in d.AsDict() && d.AsDict()[f.Key()] == CandidateJson(d.Get(f))
  {
    AsDictKeys(d);
    forall f: FieldName ensures f.Key() in d.AsDict() && d.AsDict()[f.Key()] == CandidateJson(d.Get(f)) {
      AsDictEntry(d, f);
    }
  }

  lemma AsDictKeys(d: Draft)
    ensures forall k :: k in d.AsDict() <==> k in RequiredKeys
  {
    assert d.AsDict().Keys == set k | k in RequiredKeys;
  }

  lemma AsDictEntry(d: Draft, f: FieldName)
    ensures f.Key() in d.AsDict() && d.AsDict()[f.Key()] == CandidateJson(d.Get(f))
  {
    match f
    case ProjectNameField =>
    case ProjectTypeField =>
    case PrimaryGoalField =>
    case TargetUsersField =>
    case InputsField =>
    case OutputsField =>
    case ConstraintsField =>
    case NonGoalsField =>
  }

  /** `SpecDraft()`: every field `("", 0.0, "")`. */
  const DefaultDraft := Draft(EmptyCandidate, EmptyCandidate, EmptyCandidate, EmptyCandidate,
                              EmptyCandidate, EmptyCandidate, EmptyCandidate, EmptyCandidate)

  /** A field is missing exactly when its value strips to "" or its confidence is below
      `min_confidence`. */
  lemma MissingField(d: Draft, minConfidence: real, f: FieldName)
    ensures f in d.Missing(minConfidence) <==> IsBlank(d.Get(f).value) || d.Get(f).confidence < minConfidence
  {
    SelectMember(d, RequiredFields, MissingBelow(minConfidence), f);
    RequiredFieldsInOrder();
    StripEmptyIffBlank(d.Get(f).value);
  }

  /** A field is ambiguous exactly when its value is not blank and
      `min_confidence <= confidence < accepted_confidence`. */
  lemma AmbiguousField(d: Draft, minConfidence: real, acceptedConfidence: real, f: FieldName)
    ensures f in d.Ambiguous(minConfidence, acceptedConfidence) <==>
      !IsBlank(d.Get(f).value) && minConfidence <= d.Get(f).confidence < acceptedConfidence
  {
    SelectMember(d, RequiredFields, AmbiguousBetween(minConfidence, acceptedConfidence), f);
    RequiredFieldsInOrder();
    StripEmptyIffBlank(d.Get(f).value);
  }

  /** `missing_fields` lists its fields in `REQUIRED_FIELDS` order, once each. */
  lemma MissingInOrder(d: Draft, minConfidence: real)
    ensures InFieldOrder(d.Missing(minConfidence))
  {
    RequiredFieldsInOrder();
    SelectInOrder(d, RequiredFields, MissingBelow(minConfidence));
  }

  /** `ambiguous_fields` lists its fields in `REQUIRED_FIELDS` order, once each. */
  lemma AmbiguousInOrder(d: Draft, minConfidence: real, acceptedConfidence: real)
    ensures InFieldOrder(d.Ambiguous(minConfidence, acceptedConfidence))
  {
    RequiredFieldsInOrder();
    SelectInOrder(d, RequiredFields, AmbiguousBetween(minConfidence, acceptedConfidence));
  }

  /** With the same `min_confidence`, no field is both missing and ambiguous. */
  lemma MissingAmbiguousDisjoint(d: Draft, minConfidence: real, acceptedConfidence: real)
    ensures forall f :: !(f in d.Missing(minConfidence) && f in d.Ambiguous(minConfidence, acceptedConfidence))
  {
    forall f: FieldName ensures !(f in d.Missing(minConfidence) && f in d.Ambiguous(minConfidence, acceptedConfidence)) {
      SelectMember(d, RequiredFields, MissingBelow(minConfidence), f);
      SelectMember(d, RequiredFields, AmbiguousBetween(minConfidence, acceptedConfidence), f);
    }
  }

  /** A field with a non-blank value and a confidence of at least 0.8 is in neither list. */
  lemma AcceptedFieldUnlisted(d: Draft, f: FieldName)
    requires !IsBlank(d.Get(f).value) && d.Get(f).confidence >= DefaultAcceptedConfidence
    ensures f !in d.Missing(DefaultMinConfidence)
    ensures f !in d.Ambiguous(DefaultMinConfidence, DefaultAcceptedConfidence)
  {
    StripEmptyIffBlank(d.Get(f).value);
    SelectMember(d, RequiredFields, MissingBelow(DefaultMinConfidence), f);
    SelectMember(d, RequiredFields, AmbiguousBetween(DefaultMinConfidence, DefaultAcceptedConfidence), f);
  }

  /** The default draft is missing every field, in order, and has no ambiguous field. */
  lemma DefaultDraftClassification(minConfidence: real, acceptedConfidence: real)
    ensures DefaultDraft.Missing(minConfidence) == RequiredFields
    ensures DefaultDraft.Ambiguous(minConfidence, acceptedConfidence) == []
  {
    SelectAll(DefaultDraft, RequiredFields, MissingBelow(minConfidence));
    SelectNone(DefaultDraft, RequiredFields, AmbiguousBetween(minConfidence, acceptedConfidence));
  }

  /** `SpecDraft`: the mutable record whose eight fields the parser and the engine reassign. */
  class SpecDraft {
    var projectName: FieldCandidate
    var projectType: FieldCandidate
    var primaryGoal: FieldCandidate
    var targetUsers: FieldCandidate
    var inputs: FieldCandidate
    var outputs: FieldCandidate
    var constraints: FieldCandidate
    var nonGoals: FieldCandidate

    /** The current value of the eight fields. */
    function Snapshot(): Draft
      reads this
    {
      Draft(projectName, projectType, primaryGoal, targetUsers, inputs, outputs, constraints, nonGoals)
    }

    /** `SpecDraft()` */
    constructor ()
      ensures Snapshot() == DefaultDraft
    {
      projectName, projectType, primaryGoal, targetUsers := EmptyCandidate, EmptyCandidate, EmptyCandidate, EmptyCandidate;
      inputs, outputs, constraints, nonGoals := EmptyCandidate, EmptyCandidate, EmptyCandidate, EmptyCandidate;
    }

    /** `SpecDraft(project_name=..., ..., non_goals=...)` */
    constructor FromDraft(d: Draft)
      ensures Snapshot() == d
    {
      projectName, projectType, primaryGoal, targetUsers := d.projectName, d.projectType, d.primaryGoal, d.targetUsers;
      inputs, outputs, constraints, nonGoals := d.inputs, d.outputs, d.constraints, d.nonGoals;
    }

    /** `setattr(self, field_name, c)` */
    method Set(f: FieldName, c: FieldCandidate)
      modifies this
      ensures Snapshot() == old(Snapshot()).With(f, c)
    {
      match f
      case ProjectNameField => projectName := c;
      case ProjectTypeField => projectType := c;
      case PrimaryGoalField => primaryGoal := c;
      case TargetUsersField => targetUsers := c;
      case InputsField => inputs := c;
      case OutputsField => outputs := c;
      case ConstraintsField => constraints := c;
      case NonGoalsField => nonGoals := c;
    }

    /** `missing_fields`: one pass over `REQUIRED_FIELDS`, appending each missing field. */
    method MissingFields(minConfidence: real) returns (missing: seq<FieldName>)
      ensures missing == Snapshot().Missing(minConfidence)
    {
      var d := Snapshot();
      missing := [];
      var i := 0;
      while i < |RequiredFields|
        invariant 0 <= i <= |RequiredFields|
        invariant missing == Select(d, RequiredFields[..i], MissingBelow(minConfidence))
      {
        var name := RequiredFields[i];
        var candidate := d.Get(name);
        SelectExtend(d, RequiredFields, i, MissingBelow(minConfidence));
        if Strip(candidate.value) == [] || candidate.confidence < minConfidence {
          missing := missing + [name];
        }
        i := i + 1;
      }
      assert RequiredFields[..i] == RequiredFields;
    }

    /** `ambiguous_fields`: one pass over `REQUIRED_FIELDS`, appending each ambiguous field. */
    method AmbiguousFields(minConfidence: real, acceptedConfidence: real) returns (ambiguous: seq<FieldName>)
      ensures ambiguous == Snapshot().Ambiguous(minConfidence, acceptedConfidence)
    {
      var d := Snapshot();
      ambiguous := [];
      var i := 0;
      while i < |RequiredFields|
        invariant 0 <= i <= |RequiredFields|
        invariant ambiguous == Select(d, RequiredFields[..i], AmbiguousBetween(minConfidence, acceptedConfidence))
      {
        var name := RequiredFields[i];
        var candidate := d.Get(name);
        SelectExtend(d, RequiredFields, i, AmbiguousBetween(minConfidence, acceptedConfidence));
        if Strip(candidate.value) != [] && minConfidence <= candidate.confidence < acceptedConfidence {
          ambiguous := ambiguous + [name];
        }
        i := i + 1;
      }
      assert RequiredFields[..i] == RequiredFields;
    }
  }
}
