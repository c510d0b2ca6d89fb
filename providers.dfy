/**
 * Spec providers: the `SpecProvider` operations the engine calls, the local heuristic provider,
 * the LLM provider's payload validation, its retry loop and follow-up question, the JSON
 * keyword guard and the API client configuration.
 */
module Providers {
  import opened Wrappers
  import opened Text
  import opened JsonValues
  import opened Models
  import opened Parser

  /* ---------------------------------------------------------------------------------------- */
  /* SpecProvider and LocalProvider                                                            */
  /* ---------------------------------------------------------------------------------------- */

  /** A `SpecProvider`: the local provider, or any other provider given by its three
      operations. An operation that raises is an `Err` carrying the message. */
  datatype Provider =
    | Local
    | Injected(
        extract: string -> Result<Draft, string>,
        followup: (string, Draft) -> Result<string, string>,
        normalize: Draft -> Result<Draft, string>)

  /** The questions of `LocalProvider.generate_followup`, one per required field. */
  function LocalPrompt(f: FieldName): (q: string)
    ensures q != [] && q[0] == 'W'
  {
    match f
    case ProjectNameField => "What is the project name?"
    case ProjectTypeField =>
      "What is the project type? " + "(library, service, CLI tool, " + "web app, backend API, frontend UI, " + "full-stack app)"
    case PrimaryGoalField => "What is the primary goal in one sentence?"
    case TargetUsersField => "Who are the target users?"
    case InputsField => "What inputs does the system receive?"
    case OutputsField => "What outputs does the system produce?"
    case ConstraintsField =>
      "What constraints must be followed? " + "(language/runtime/performance/" + "security/platform)"
    case NonGoalsField => "What is explicitly out of scope (non-goals)?"
  }

  /** The field of `fs` whose name is `name`, if any. */
  function FieldNamed(name: string, fs: seq<FieldName>): (r: Option<FieldName>)
    ensures r.Some? ==> r.value in fs && r.value.Key() == name
    ensures r.None? ==> forall i :: 0 <= i < |fs| ==> fs[i].Key() != name
  {
    if fs == [] then None
    else if fs[0].Key() == name then Some(fs[0])
    else FieldNamed(name, fs[1..])
  }

  /** A name is found among `REQUIRED_FIELDS` exactly when it is one of their keys. */
  lemma NamedIffRequired(name: string)
    ensures FieldNamed(name, RequiredFields).Some? <==> name in RequiredKeys
  {
    RequiredFieldsInOrder();
    var r := FieldNamed(name, RequiredFields);
    if r.Some? {
      assert RequiredKeys[r.value.Index()] == name;
    }
  }

  /** `LocalProvider.generate_followup`: a fixed question for each required field name; the
      dictionary lookup raises `KeyError` for any other name. */
  function LocalFollowup(name: string): (r: Result<string, string>)
    ensures r.Ok? <==> name in RequiredKeys
    ensures r.Ok? ==> r.value != [] && !IsSpace(r.value[0])
  {
    NamedIffRequired(name);
    match FieldNamed(name, RequiredFields)
    case Some(f) => Ok(LocalPrompt(f))
    case None => Err("KeyError: " + name)
  }

  /** `provider.extract_requirements(prompt)` */
  function Extract(p: Provider, prompt: string): Result<Draft, string> {
    match p
    case Local => Ok(Parsed(prompt))
    case Injected(extract, _, _) => extract(prompt)
  }

  /** `provider.generate_followup(field_name, draft)` */
  function Followup(p: Provider, f: FieldName, d: Draft): Result<string, string> {
    match p
    case Local => LocalFollowup(f.Key())
    case Injected(_, followup, _) => followup(f.Key(), d)
  }

  /** `provider.normalize_spec(draft)` */
  function NormalizeSpec(p: Provider, d: Draft): Result<Draft, string> {
    match p
    case Local => Ok(d)
    case Injected(_, _, normalize) => normalize(d)
  }

  /** The local provider asks a non-blank question about every required field and never fails. */
  lemma LocalFollowupAsks(f: FieldName, d: Draft)
    ensures Followup(Local, f, d).Ok?
    ensures !IsBlank(Followup(Local, f, d).value)
  {
    RequiredFieldsInOrder();
    assert RequiredKeys[f.Index()] == f.Key();
  }

  /* ---------------------------------------------------------------------------------------- */
  /* _ensure_json_keyword                                                                      */
  /* ---------------------------------------------------------------------------------------- */

  const JsonReminder := "\nReturn valid json."

  /** `_ensure_json_keyword(text)`: the stripped text, with a reminder line appended unless it
      already mentions json in any letter case. */
  function EnsureJsonKeyword(text: string): (r: string)
    ensures Contains(Lower(r), "json")
  {
    var value := Strip(text);
    if Contains(Lower(value), "json") then value
    else
      ReminderMentionsJson(value);
      value + JsonReminder
  }

  lemma ReminderMentionsJson(value: string)
    ensures Contains(Lower(value + JsonReminder), "json")
  {
    LowerConcat(value, JsonReminder);
    ReminderJsonAt();
    ContainsSuffix(Lower(value), Lower(JsonReminder), "json");
  }

  lemma ReminderJsonAt()
    ensures OccursAt(Lower(JsonReminder), "json", 14)
  {
    var low := Lower(JsonReminder);
    assert low[14..18] == "json";
  }

  /** A stripped text that already mentions json comes back unchanged; any other text gets the
      reminder appended to its stripped form. */
  lemma EnsureJsonKeywordShape(text: string)
    ensures Contains(Lower(Strip(text)), "json") ==> EnsureJsonKeyword(text) == Strip(text)
    ensures !Contains(Lower(Strip(text)), "json") ==> EnsureJsonKeyword(text) == Strip(text) + JsonReminder
  {
  }

  /** Guarding a non-blank text twice is the same as guarding it once. */
  lemma EnsureJsonKeywordIdempotent(text: string)
    requires !IsBlank(text)
    ensures EnsureJsonKeyword(EnsureJsonKeyword(text)) == EnsureJsonKeyword(text)
  {
    var value := Strip(text);
    var r := EnsureJsonKeyword(text);
    StripEmptyIffBlank(text);
    StripIdempotent(text);
    if !Contains(Lower(value), "json") {
      assert r == value + JsonReminder;
      StripFirst(value);
      StripUntrimmed(r);
    }
  }

  /** On a blank text the guard is not idempotent: the reminder line's leading line break is
      stripped on the second pass. */
  lemma EnsureJsonKeywordBlankNotIdempotent()
    ensures EnsureJsonKeyword("") == JsonReminder
    ensures EnsureJsonKeyword(EnsureJsonKeyword("")) == JsonReminder[1..]
    ensures EnsureJsonKeyword(EnsureJsonKeyword("")) != EnsureJsonKeyword("")
  {
    GuardOfEmpty();
    GuardOfReminder();
  }

  lemma GuardOfEmpty()
    ensures EnsureJsonKeyword("") == JsonReminder
  {
    assert Strip("") == "";
    assert !OccursAt(Lower(""), "json", 0);
  }

  lemma GuardOfReminder()
    ensures EnsureJsonKeyword(JsonReminder) == JsonReminder[1..]
  {
    StripReminder();
    ReminderTailJson();
  }

  lemma StripReminder()
    ensures Strip(JsonReminder) == JsonReminder[1..]
  {
    var t := JsonReminder[1..];
    assert JsonReminder == [JsonReminder[0]] + t;
    StripSpaceHead(JsonReminder[0], t);
  }

  lemma ReminderTailJson()
    ensures OccursAt(Lower(JsonReminder[1..]), "json", 13)
  {
    ReminderJsonAt();
    var full := Lower(JsonReminder);
    var low := Lower(JsonReminder[1..]);
    assert low == full[1..];
    assert low[13..17] == full[14..18];
  }

  /* ---------------------------------------------------------------------------------------- */
  /* resolve_llm_client_config and _provider_to_client_config                                  */
  /* ---------------------------------------------------------------------------------------- */

  const OpenRouterBaseUrl := "https://openrouter.ai/api/v1"

  /** The keyword arguments the OpenAI client is built with. */
  datatype ClientConfig = ClientConfig(apiKey: string, baseUrl: Option<string>)

  /** A usable API key: non-empty and already stripped. */
  predicate CleanKey(key: string) {
    key != [] && Strip(key) == key
  }

  /** `_provider_to_client_config(provider_name, api_key)`: a blank key is refused first, then
      the lower-cased, stripped provider name must be `openrouter` or `openai`. */
  function ProviderToClientConfig(providerName: string, apiKey: string): (r: Result<ClientConfig, string>)
    ensures IsBlank(apiKey) ==> r == Err("API key is empty.")
    ensures r.Ok? ==> r.value.apiKey == Strip(apiKey) && CleanKey(r.value.apiKey)
  {
    var provider := Lower(Strip(providerName));
    var key := Strip(apiKey);
    StripEmptyIffBlank(apiKey);
    StripIdempotent(apiKey);
    if key == [] then Err("API key is empty.")
    else if provider == "openrouter" then Ok(ClientConfig(key, Some(OpenRouterBaseUrl)))
    else if provider == "openai" then Ok(ClientConfig(key, None))
    else Err("Unsupported provider: " + providerName)
  }

  /** With a non-blank key the provider name alone decides: `openrouter` gets the OpenRouter
      base URL, `openai` no base URL, and every other name, in any letter case and with any
      surrounding whitespace, is refused. */
  lemma ProviderNameDecides(providerName: string, apiKey: string)
    requires !IsBlank(apiKey)
    ensures var r := ProviderToClientConfig(providerName, apiKey);
      && (r == Ok(ClientConfig(Strip(apiKey), Some(OpenRouterBaseUrl))) <==> Lower(Strip(providerName)) == "openrouter")
      && (r == Ok(ClientConfig(Strip(apiKey), None)) <==> Lower(Strip(providerName)) == "openai")
      && (r.Err? <==> Lower(Strip(providerName)) != "openrouter" && Lower(Strip(providerName)) != "openai")
  {
    StripEmptyIffBlank(apiKey);
  }

  /** `os.getenv(name, "")` */
  function Getenv(env: map<string, string>, name: string): string {
    if name in env then env[name] else ""
  }

  /** Python truthiness of an optional string argument. */
  predicate Truthy(s: Option<string>) {
    s.Some? && s.value != []
  }

  /** The environment branch of `resolve_llm_client_config`: the OpenRouter key, else the
      OpenAI key, each stripped; neither set is an error. */
  function EnvClientConfig(env: map<string, string>): (r: Result<ClientConfig, string>)
    ensures r.Ok? ==> CleanKey(r.value.apiKey)
  {
    var openrouterKey := Strip(Getenv(env, "OPENROUTER_API_KEY"));
    var openaiKey := Strip(Getenv(env, "OPENAI_API_KEY"));
    StripIdempotent(Getenv(env, "OPENROUTER_API_KEY"));
    StripIdempotent(Getenv(env, "OPENAI_API_KEY"));
    if openrouterKey != [] then Ok(ClientConfig(openrouterKey, Some(OpenRouterBaseUrl)))
    else if openaiKey != [] then Ok(ClientConfig(openaiKey, None))
    else Err("Missing API key. Set OPENAI_API_KEY " + "or OPENROUTER_API_KEY when " + "--use-llm is enabled.")
  }

  /** `resolve_llm_client_config(provider_name, api_key)` in the environment `env`. */
  function ResolveLlmClientConfig(providerName: Option<string>, apiKey: Option<string>, env: map<string, string>): (r: Result<ClientConfig, string>)
    ensures r.Ok? ==> CleanKey(r.value.apiKey)
  {
    if Truthy(providerName) && Truthy(apiKey) then ProviderToClientConfig(providerName.value, apiKey.value)
    else EnvClientConfig(env)
  }

  /** An explicit provider name and key, both non-empty, decide alone: the environment is not read. */
  lemma ExplicitConfigWins(providerName: string, apiKey: string, env: map<string, string>, env': map<string, string>)
    requires providerName != [] && apiKey != []
    ensures ResolveLlmClientConfig(Some(providerName), Some(apiKey), env) == ResolveLlmClientConfig(Some(providerName), Some(apiKey), env')
    ensures ResolveLlmClientConfig(Some(providerName), Some(apiKey), env) == ProviderToClientConfig(providerName, apiKey)
  {
  }

  /** Without explicit arguments a non-blank OpenRouter key is used with the OpenRouter base
      URL, whatever the OpenAI key is. */
  lemma OpenRouterTakesPrecedence(env: map<string, string>)
    requires !IsBlank(Getenv(env, "OPENROUTER_API_KEY"))
    ensures ResolveLlmClientConfig(None, None, env) ==
      Ok(ClientConfig(Strip(Getenv(env, "OPENROUTER_API_KEY")), Some(OpenRouterBaseUrl)))
  {
    StripEmptyIffBlank(Getenv(env, "OPENROUTER_API_KEY"));
  }

  /** Without explicit arguments and with a blank OpenRouter key, the OpenAI key is used and no
      base URL is set. */
  lemma OpenAiKeyFallback(env: map<string, string>)
    requires IsBlank(Getenv(env, "OPENROUTER_API_KEY")) && !IsBlank(Getenv(env, "OPENAI_API_KEY"))
    ensures ResolveLlmClientConfig(None, None, env) == Ok(ClientConfig(Strip(Getenv(env, "OPENAI_API_KEY")), None))
  {
    StripEmptyIffBlank(Getenv(env, "OPENROUTER_API_KEY"));
    StripEmptyIffBlank(Getenv(env, "OPENAI_API_KEY"));
  }

  /** Without explicit arguments the configuration fails exactly when both keys are blank. */
  lemma MissingKeysFail(providerName: Option<string>, apiKey: Option<string>, env: map<string, string>)
    requires !(Truthy(providerName) && Truthy(apiKey))
    ensures ResolveLlmClientConfig(providerName, apiKey, env).Err? <==>
      IsBlank(Getenv(env, "OPENROUTER_API_KEY")) && IsBlank(Getenv(env, "OPENAI_API_KEY"))
  {
    StripEmptyIffBlank(Getenv(env, "OPENROUTER_API_KEY"));
    StripEmptyIffBlank(Getenv(env, "OPENAI_API_KEY"));
  }

  /* ---------------------------------------------------------------------------------------- */
  /* OpenAIProvider._validate_and_build                                                        */
  /* ---------------------------------------------------------------------------------------- */

  /** `mapping.get(key, default)` */
  function Lookup(m: map<string, Json>, key: string, default: Json): Json {
    if key in m then m[key] else default
  }

  /** `float(x)` on a decoded JSON value; `None` stands for the `TypeError` or `ValueError` it raises. */
  function FloatOf(j: Json): Option<real> {
    match j
    case JNum(n) => Some(n)
    case JBool(b) => Some(if b then 1.0 else 0.0)
    case JStr(s) => ParseDecimal(s)
    case _ => None
  }

  /** The checks `_validate_and_build` makes on one field's entry, in their order: the entry is an
      object, its value a string, its confidence a number, in [0, 1], and its rationale a string.
      An entry passes exactly when all five hold, and otherwise fails with the message of the first
      check it violates; `Ok` carries the normalised candidate. */
  function CheckEntry(name: string, entry: Json): (r: Result<FieldCandidate, string>)
    ensures r.Ok? ==> (entry.JObj? && Lookup(entry.fields, "value", JStr("")).JStr?
      && r.value.value == Strip(Lookup(entry.fields, "value", JStr("")).s))
    ensures r.Ok? ==> (FloatOf(Lookup(entry.fields, "confidence", JNum(0.0))) == Some(r.value.confidence)
      && 0.0 <= r.value.confidence <= 1.0)
    ensures r.Ok? ==> (Lookup(entry.fields, "rationale", JStr("")).JStr?
      && r.value.rationale == Strip(Lookup(entry.fields, "rationale", JStr("")).s))
    ensures !entry.JObj? ==> r == Err("LLM payload missing object for field: " + name)
    ensures entry.JObj? ==>
      var value := Lookup(entry.fields, "value", JStr(""));
      var confidence := FloatOf(Lookup(entry.fields, "confidence", JNum(0.0)));
      var rationale := Lookup(entry.fields, "rationale", JStr(""));
      && (r.Ok? <==> value.JStr? && confidence.Some? && 0.0 <= confidence.value <= 1.0 && rationale.JStr?)
      && (!value.JStr? ==> r == Err("Field " + name + ".value must be string."))
      && (value.JStr? && confidence.None? ==> r == Err("Field " + name + ".confidence must be number."))
      && (value.JStr? && confidence.Some? && !(0.0 <= confidence.value <= 1.0) ==>
            r == Err("Field " + name + ".confidence out of range [0,1]."))
      && (value.JStr? && confidence.Some? && 0.0 <= confidence.value <= 1.0 && !rationale.JStr? ==>
            r == Err("Field " + name + ".rationale must be string."))
  {
    if !entry.JObj? then Err("LLM payload missing object for field: " + name)
    else
      var fieldValue := Lookup(entry.fields, "value", JStr(""));
      var confidence := Lookup(entry.fields, "confidence", JNum(0.0));
      var rationale := Lookup(entry.fields, "rationale", JStr(""));
      if !fieldValue.JStr? then Err("Field " + name + ".value must be string.")
      else match FloatOf(confidence)
        case None => Err("Field " + name + ".confidence must be number.")
        case Some(c) =>
          if c < 0.0 || c > 1.0 then Err("Field " + name + ".confidence out of range [0,1].")
          else if !rationale.JStr? then Err("Field " + name + ".rationale must be string.")
          else Ok(FieldCandidate(Strip(fieldValue.s), c, Strip(rationale.s)))
  }

  /** The check of field `f`'s entry in the payload object `m`. */
  function CheckField(m: map<string, Json>, f: FieldName): Result<FieldCandidate, string> {
    CheckEntry(f.Key(), Lookup(m, f.Key(), JNull))
  }

  /** The `normalized` dictionary after checking the fields `fs` in order, or the first error. */
  function CheckedPrefix(m: map<string, Json>, fs: seq<FieldName>): (r: Result<map<FieldName, FieldCandidate>, string>)
    ensures r.Ok? ==> forall f :: f in fs ==> f in r.value && CheckField(m, f) == Ok(r.value[f])
  {
    if fs == [] then Ok(map[])
    else
      var f := fs[|fs| - 1];
      match CheckedPrefix(m, fs[..|fs| - 1])
      case Err(e) => Err(e)
      case Ok(normalized) =>
        match CheckField(m, f)
        case Err(e) => Err(e)
        case Ok(c) => Ok(normalized[f := c])
  }

  /** `SpecDraft.from_dict(normalized)`: the draft holding each field's normalised candidate. */
  function FromDict(normalized: map<FieldName, FieldCandidate>): (d: Draft)
    requires forall f: FieldName :: f in normalized
    ensures forall f: FieldName :: d.Get(f) == normalized[f]
  {
    Draft(normalized[ProjectNameField], normalized[ProjectTypeField], normalized[PrimaryGoalField],
          normalized[TargetUsersField], normalized[InputsField], normalized[OutputsField],
          normalized[ConstraintsField], normalized[NonGoalsField])
  }

  lemma AllFieldsRequired(f: FieldName)
    ensures f in RequiredFields
  {
    RequiredFieldsInOrder();
    assert RequiredFields[f.Index()] == f;
  }

  /** `_validate_and_build(payload)`: the draft, or the message of the first violation. */
  function Validated(payload: Json): Result<Draft, string> {
    if !payload.JObj? then Err("LLM payload must be a JSON object.")
    else
      match CheckedPrefix(payload.fields, RequiredFields)
      case Err(e) => Err(e)
      case Ok(normalized) =>
        forall f: FieldName ensures f in normalized {
          AllFieldsRequired(f);
        }
        Ok(FromDict(normalized))
  }

  /** A payload validates exactly when it is an object and every field's entry passes its
      checks; each field of the draft is then that entry's normalised candidate. */
  lemma ValidatedFields(payload: Json)
    ensures Validated(payload).Ok? <==> payload.JObj? && forall f :: CheckField(payload.fields, f).Ok?
    ensures Validated(payload).Ok? ==> forall f :: Ok(Validated(payload).value.Get(f)) == CheckField(payload.fields, f)
  {
    ValidatedPasses(payload);
    ValidatedValues(payload);
  }

  /** A payload validates exactly when it is an object whose every field passes. */
  lemma ValidatedPasses(payload: Json)
    ensures Validated(payload).Ok? <==> payload.JObj? && forall f :: CheckField(payload.fields, f).Ok?
  {
    if payload.JObj? {
      var m := payload.fields;
      if forall f :: CheckField(m, f).Ok? {
        CheckedAllPass(m, RequiredFields);
      } else {
        var f :| !CheckField(m, f).Ok?;
        AllFieldsRequired(f);
      }
    }
  }

  /** Each field of a validated draft is its entry's normalised candidate. */
  lemma ValidatedValues(payload: Json)
    ensures Validated(payload).Ok? ==> forall f :: Ok(Validated(payload).value.Get(f)) == CheckField(payload.fields, f)
  {
    forall f: FieldName {
      AllFieldsRequired(f);
    }
  }

  lemma {:induction false} CheckedAllPass(m: map<string, Json>, fs: seq<FieldName>)
    requires forall i :: 0 <= i < |fs| ==> CheckField(m, fs[i]).Ok?
    ensures CheckedPrefix(m, fs).Ok?
    decreases |fs|
  {
    if fs != [] {
      CheckedAllPass(m, fs[..|fs| - 1]);
    }
  }

  /** A rejected object payload is rejected with the error of the first field, in
      `REQUIRED_FIELDS` order, whose entry fails; all fields before it pass. */
  lemma ValidatedFirstError(m: map<string, Json>)
    requires Validated(JObj(m)).Err?
    ensures exists i :: (0 <= i < |RequiredFields| && CheckField(m, RequiredFields[i]) == Err(Validated(JObj(m)).error)
      && forall j :: 0 <= j < i ==> CheckField(m, RequiredFields[j]).Ok?)
  {
    var i := FirstFailure(m, RequiredFields);
  }

  lemma {:induction false} FirstFailure(m: map<string, Json>, fs: seq<FieldName>) returns (i: nat)
    requires CheckedPrefix(m, fs).Err?
    ensures i < |fs| && CheckField(m, fs[i]) == Err(CheckedPrefix(m, fs).error)
    ensures forall j :: 0 <= j < i ==> CheckField(m, fs[j]).Ok?
    decreases |fs|
  {
    var init := fs[..|fs| - 1];
    if CheckedPrefix(m, init).Err? {
      i := FirstFailure(m, init);
      assert CheckedPrefix(m, fs) == CheckedPrefix(m, init);
      assert forall j :: 0 <= j <= i ==> fs[j] == init[j];
    } else {
      i := |fs| - 1;
      LastFails(m, fs);
    }
  }

  /** When every field before the last passes, the error is the last field's. */
  lemma LastFails(m: map<string, Json>, fs: seq<FieldName>)
    requires fs != [] && CheckedPrefix(m, fs[..|fs| - 1]).Ok? && CheckedPrefix(m, fs).Err?
    ensures CheckField(m, fs[|fs| - 1]) == Err(CheckedPrefix(m, fs).error)
    ensures forall j :: 0 <= j < |fs| - 1 ==> CheckField(m, fs[j]).Ok?
  {
    var init := fs[..|fs| - 1];
    forall j | 0 <= j < |fs| - 1 ensures CheckField(m, fs[j]).Ok? {
      assert fs[j] == init[j] && init[j] in init;
    }
  }

  /** Keys other than the eight field names do not affect validation. */
  lemma ExtraKeysIgnored(m: map<string, Json>, m': map<string, Json>)
    requires forall k :: k in RequiredKeys ==> Lookup(m, k, JNull) == Lookup(m', k, JNull)
    ensures Validated(JObj(m)) == Validated(JObj(m'))
  {
    RequiredFieldsInOrder();
    forall i | 0 <= i < |RequiredFields| ensures CheckField(m, RequiredFields[i]) == CheckField(m', RequiredFields[i]) {
      assert RequiredFields[i].Key() == RequiredKeys[i];
    }
    SameChecks(m, m', RequiredFields);
  }

  lemma {:induction false} SameChecks(m: map<string, Json>, m': map<string, Json>, fs: seq<FieldName>)
    requires forall i :: 0 <= i < |fs| ==> CheckField(m, fs[i]) == CheckField(m', fs[i])
    ensures CheckedPrefix(m, fs) == CheckedPrefix(m', fs)
    decreases |fs|
  {
    if fs != [] {
      SameChecks(m, m', fs[..|fs| - 1]);
    }
  }

  /** An empty entry object takes the defaults `""`, `0.0` and `""`. */
  lemma EmptyEntryDefaults(name: string)
    ensures CheckEntry(name, JObj(map[])) == Ok(EmptyCandidate)
  {
    var none: map<string, Json> := map[];
    assert Lookup(none, "value", JStr("")) == JStr("");
    assert Lookup(none, "confidence", JNum(0.0)) == JNum(0.0);
    assert Lookup(none, "rationale", JStr("")) == JStr("");
    assert Strip("") == "";
  }

  /** A validated draft has stripped values and rationales and confidences in [0, 1]. */
  lemma ValidatedDraftClean(payload: Json, f: FieldName)
    requires Validated(payload).Ok?
    ensures var c := Validated(payload).value.Get(f);
      Strip(c.value) == c.value && Strip(c.rationale) == c.rationale && 0.0 <= c.confidence <= 1.0
  {
    ValidatedFields(payload);
    var entry := Lookup(payload.fields, f.Key(), JNull);
    StripIdempotent(Lookup(entry.fields, "value", JStr("")).s);
    StripIdempotent(Lookup(entry.fields, "rationale", JStr("")).s);
  }

  /** `_validate_and_build`: checks the payload is an object, fills the `normalized`
      dictionary and builds the draft from it. */
  method ValidateAndBuild(payload: Json) returns (r: Result<SpecDraft, string>)
    ensures r.Ok? ==> fresh(r.value) && Validated(payload) == Ok(r.value.Snapshot())
    ensures r.Err? ==> Validated(payload) == Err(r.error)
  {
    if !payload.JObj? {
      return Err("LLM payload must be a JSON object.");
    }
    var checked := CheckFields(payload.fields, RequiredFields);
    if checked.Err? {
      return Err(checked.error);
    }
    var normalized := checked.value;
    forall f: FieldName ensures f in normalized {
      AllFieldsRequired(f);
    }
    var draft := new SpecDraft.FromDraft(FromDict(normalized));
    return Ok(draft);
  }

  /** The loop of `_validate_and_build`: checks the fields of `fs` in order, adding each
      normalised candidate to `normalized`, and stops at the first violation. */
  method CheckFields(m: map<string, Json>, fs: seq<FieldName>) returns (r: Result<map<FieldName, FieldCandidate>, string>)
    ensures r == CheckedPrefix(m, fs)
  {
    var normalized: map<FieldName, FieldCandidate> := map[];
    var i := 0;
    while i < |fs|
      invariant 0 <= i <= |fs|
      invariant CheckedPrefix(m, fs[..i]) == Ok(normalized)
    {
      var fieldName := fs[i];
      var checked := CheckField(m, fieldName);
      CheckedExtend(m, fs, i, normalized);
      if checked.Err? {
        FailureStops(m, fs, i + 1);
        return Err(checked.error);
      }
      normalized := normalized[fieldName := checked.value];
      i := i + 1;
    }
    assert fs[..i] == fs;
    return Ok(normalized);
  }

  /** Checking one more field either fails with its error or adds its candidate. */
  lemma CheckedExtend(m: map<string, Json>, fs: seq<FieldName>, i: nat, normalized: map<FieldName, FieldCandidate>)
    requires i < |fs| && CheckedPrefix(m, fs[..i]) == Ok(normalized)
    ensures CheckField(m, fs[i]).Err? ==> CheckedPrefix(m, fs[..i + 1]) == Err(CheckField(m, fs[i]).error)
    ensures CheckField(m, fs[i]).Ok? ==> CheckedPrefix(m, fs[..i + 1]) == Ok(normalized[fs[i] := CheckField(m, fs[i]).value])
  {
    assert fs[..i + 1][..i] == fs[..i];
  }

  /** Once a prefix fails, the whole list fails with the same error. */
  lemma {:induction false} FailureStops(m: map<string, Json>, fs: seq<FieldName>, n: nat)
    requires n <= |fs| && CheckedPrefix(m, fs[..n]).Err?
    ensures CheckedPrefix(m, fs) == CheckedPrefix(m, fs[..n])
    decreases |fs| - n
  {
    if n < |fs| {
      assert fs[..n + 1][..n] == fs[..n];
      FailureStops(m, fs, n + 1);
    } else {
      assert fs[..n] == fs;
    }
  }

  /* ---------------------------------------------------------------------------------------- */
  /* OpenAIProvider._call_json                                                                 */
  /* ---------------------------------------------------------------------------------------- */

  /** What one `responses.create` call comes to: an exception, or a response whose
      `output_text` `json.loads` decodes, or fails to decode, as given. */
  datatype Attempt =
    | ClientError(message: string)
    | Response(outputText: string, decoded: Result<Json, string>)

  /** The arguments of one `responses.create` call. */
  datatype Request = Request(model: string, instructions: string, input: string)

  /** The observer event of `_emit_call_event`, without its latency, token and cost figures. */
  datatype CallEvent = CallEvent(stage: string, model: string, retryCount: nat, schemaValid: bool)

  /** The `try` block of one attempt: the decoded payload, or the message of what it raised. */
  function AttemptResult(a: Attempt): Result<Json, string> {
    match a
    case ClientError(message) => Err(message)
    case Response(raw, decoded) => if raw == [] then Err("LLM returned empty response.") else decoded
  }

  /** What the request numbered `k` comes to. */
  function Outcome(client: (nat, Request) -> Attempt, req: Request, k: nat): Result<Json, string> {
    AttemptResult(client(k, req))
  }

  /** Attempts `attempt` to `maxRetries` of one call whose requests are numbered from `base`:
      how many attempts were made in all, and what the last of them yielded. */
  function Attempts(client: (nat, Request) -> Attempt, base: nat, req: Request, attempt: nat, maxRetries: nat): (r: (nat, Result<Json, string>))
    requires attempt <= maxRetries
    ensures attempt < r.0 <= maxRetries + 1
    decreases maxRetries - attempt
  {
    var outcome := Outcome(client, req, base + attempt);
    if outcome.Ok? || attempt == maxRetries then (attempt + 1, outcome)
    else Attempts(client, base, req, attempt + 1, maxRetries)
  }

  /** The message of the `ProviderError` raised when every attempt failed. */
  function FailureMessage(maxRetries: int, lastError: string): string {
    "LLM request failed after " + IntToString(maxRetries + 1) + " attempt(s): " + lastError
  }

  /** `_call_json`: the number of attempts made, and the payload returned or the error raised.
      With a negative `max_retries` no attempt is made and `last_error` is still `None`. */
  function CallOutcome(client: (nat, Request) -> Attempt, base: nat, req: Request, maxRetries: int): (nat, Result<Json, string>) {
    if maxRetries < 0 then (0, Err(FailureMessage(maxRetries, "None")))
    else
      var (n, last) := Attempts(client, base, req, 0, maxRetries);
      (n, if last.Ok? then last else Err(FailureMessage(maxRetries, last.error)))
  }

  /** The attempts stop at the first success: every attempt before the last failed, the
      result is the last attempt's, and a failed last attempt is attempt `max_retries`. */
  lemma {:induction false} AttemptsStopAtFirstSuccess(client: (nat, Request) -> Attempt, base: nat, req: Request, attempt: nat, maxRetries: nat)
    requires attempt <= maxRetries
    ensures var (n, last) := Attempts(client, base, req, attempt, maxRetries);
      && (forall k :: base + attempt <= k < base + n - 1 ==> Outcome(client, req, k).Err?)
      && last == Outcome(client, req, base + n - 1)
      && (last.Err? ==> n == maxRetries + 1)
    decreases maxRetries - attempt
  {
    var outcome := Outcome(client, req, base + attempt);
    if !(outcome.Ok? || attempt == maxRetries) {
      AttemptsStopAtFirstSuccess(client, base, req, attempt + 1, maxRetries);
    }
  }

  /** `_call_json` makes at most `max_retries + 1` attempts and returns a payload exactly when
      one of them succeeds, namely the first successful one's; otherwise every attempt failed
      and it raises with the last attempt's error. */
  lemma CallOutcomeSpec(client: (nat, Request) -> Attempt, base: nat, req: Request, maxRetries: int)
    ensures var (n, r) := CallOutcome(client, base, req, maxRetries);
      && (maxRetries < 0 ==> n == 0 && r.Err?)
      && (maxRetries >= 0 ==> 1 <= n <= maxRetries + 1)
      && (r.Ok? <==> exists k :: base <= k <= base + maxRetries && Outcome(client, req, k).Ok?)
      && (r.Ok? ==> (r == Outcome(client, req, base + n - 1)
            && forall k :: base <= k < base + n - 1 ==> Outcome(client, req, k).Err?))
      && (r.Err? && maxRetries >= 0 ==> (n == maxRetries + 1
            && r.error == FailureMessage(maxRetries, Outcome(client, req, base + maxRetries).error)))
  {
    if maxRetries >= 0 {
      AttemptsStopAtFirstSuccess(client, base, req, 0, maxRetries);
      var (n, last) := Attempts(client, base, req, 0, maxRetries);
      if last.Ok? {
        assert Outcome(client, req, base + n - 1).Ok?;
      }
    }
  }

  lemma FailuresExtend(client: (nat, Request) -> Attempt, req: Request, base: nat, a: nat)
    requires forall k :: base <= k < base + a ==> Outcome(client, req, k).Err?
    requires Outcome(client, req, base + a).Err?
    ensures forall k :: base <= k < base + a + 1 ==> Outcome(client, req, k).Err?
  {
  }

  /** Skipping attempts that failed does not change where the attempts end. */
  lemma {:induction false} AttemptsSkip(client: (nat, Request) -> Attempt, base: nat, req: Request, a: nat, maxRetries: nat)
    requires a <= maxRetries
    requires forall k :: base <= k < base + a ==> Outcome(client, req, k).Err?
    ensures Attempts(client, base, req, 0, maxRetries) == Attempts(client, base, req, a, maxRetries)
    decreases a
  {
    if a > 0 {
      AttemptsSkip(client, base, req, a - 1, maxRetries);
      assert Outcome(client, req, base + (a - 1)).Err?;
    }
  }

  const ExtractInstructions: string :=
    "Extract required spec fields from the " + "prompt. Return JSON object with keys: "
    + "project_name, project_type, " + "primary_goal, target_users, inputs, " + "outputs, constraints, non_goals"
    + ". Each key must map to object: " + "{\"value\": string, \"confidence\": " + "number, \"rationale\": string}. "
    + "confidence must be between 0 and 1. No " + "extra keys."

  const FollowupInstructions: string :=
    "Generate one concise follow-up " + "question. Ask for exactly one missing " + "or ambiguous field. No preamble. One " + "sentence."
    + " Return JSON: {\"question\": \"...\"}."

  const NormalizeInstructions: string :=
    "Normalize terminology and wording for " + "consistency. Do not invent missing " + "facts. Return same schema used for " + "extraction."

  /** The question of a follow-up payload: `str(payload.get("question", "")).strip()`, where
      `display` is `str` on a value that is not a string; a blank question raises. */
  function FollowupQuestion(payload: Json, display: Json -> string): (r: Result<string, string>)
    ensures r.Ok? ==> r.value != [] && Strip(r.value) == r.value
  {
    if !payload.JObj? then Err("payload has no attribute 'get'")
    else
      var raw := match Lookup(payload.fields, "question", JStr("")) case JStr(s) => s case other => display(other);
      var question := Strip(raw);
      StripIdempotent(raw);
      if question == [] then Err("LLM follow-up generation " + "returned empty question.") else Ok(question)
  }

  /** A follow-up payload is refused exactly when it is not an object or its question is blank. */
  lemma FollowupQuestionRefusesBlank(payload: Json, display: Json -> string)
    requires payload.JObj?
    ensures var raw := match Lookup(payload.fields, "question", JStr("")) case JStr(s) => s case other => display(other);
      FollowupQuestion(payload, display).Err? <==> IsBlank(raw)
  {
    var raw := match Lookup(payload.fields, "question", JStr("")) case JStr(s) => s case other => display(other);
    StripEmptyIffBlank(raw);
  }

  /** The object `generate_followup` serialises: the target field and the whole draft. */
  function FollowupInput(missingField: string, d: Draft): Json {
    JObj(map["target_field" := JStr(missingField), "existing_fields" := JObj(d.AsDict())])
  }

  /** `n` copies of the same request. */
  function Repeat(req: Request, n: nat): (r: seq<Request>)
    ensures |r| == n
  {
    if n == 0 then [] else Repeat(req, n - 1) + [req]
  }

  /** `OpenAIProvider`: the LLM-backed provider. Its API client is a fixed function from the
      request number and the request to the outcome; the observer's events and the sleeps
      between attempts are recorded in ghost fields. */
  class OpenAIProvider {
    const model: string
    const maxRetries: int
    const hasObserver: bool
    const client: (nat, Request) -> Attempt
    /** `json.dumps` */
    const dumps: Json -> string
    /** `str` on a JSON value that is not a string */
    const display: Json -> string
    /** Every request sent to the client, in order. */
    var sent: seq<Request>
    ghost var events: seq<CallEvent>
    ghost var sleeps: nat

    constructor (model: string, maxRetries: int, hasObserver: bool, client: (nat, Request) -> Attempt,
                 dumps: Json -> string, display: Json -> string)
      ensures this.model == model && this.maxRetries == maxRetries && this.hasObserver == hasObserver
      ensures this.client == client && this.dumps == dumps && this.display == display
      ensures sent == [] && events == [] && sleeps == 0
    {
      this.model, this.maxRetries, this.hasObserver := model, maxRetries, hasObserver;
      this.client, this.dumps, this.display := client, dumps, display;
      sent, events, sleeps := [], [], 0;
    }

    /** The request `_call_json` sends for these instructions and input. */
    function RequestFor(instructions: string, inputText: string): Request {
      Request(model, EnsureJsonKeyword(instructions), EnsureJsonKeyword(inputText))
    }

    /** `_call_json(stage, instructions, input_text)`: up to `max_retries + 1` attempts with the
        same request, a sleep between consecutive attempts, and one observer event for the call. */
    method CallJson(stage: string, instructions: string, inputText: string) returns (r: Result<Json, string>)
      modifies this
      ensures var req := RequestFor(instructions, inputText);
        var out := CallOutcome(client, old(|sent|), req, maxRetries);
        && r == out.1
        && sent == old(sent) + Repeat(req, out.0)
        && sleeps == old(sleeps) + (if out.0 == 0 then 0 else out.0 - 1)
        && events == old(events) + (if hasObserver && out.0 > 0 then [CallEvent(stage, model, out.0 - 1, r.Ok?)] else [])
    {
      var req := RequestFor(instructions, inputText);
      var attempts;
      attempts, r := RunAttempts(|sent|, req);
      sent := sent + Repeat(req, attempts);
      if attempts > 0 {
        sleeps := sleeps + (attempts - 1);
        if hasObserver {
          events := events + [CallEvent(stage, model, attempts - 1, r.Ok?)];
        }
      }
    }

    /** The attempt loop of `_call_json` for requests numbered from `base`: stops at the first
        attempt whose response is non-empty and decodes, else raises after the last attempt
        with its error. Returns how many attempts were made. */
    method RunAttempts(base: nat, req: Request) returns (attempts: nat, r: Result<Json, string>)
      ensures (attempts, r) == CallOutcome(client, base, req, maxRetries)
    {
      var lastError := "None";
      var attempt := 0;
      while attempt < maxRetries + 1
        invariant 0 <= attempt <= (if maxRetries < 0 then 0 else maxRetries)
        invariant forall k :: base <= k < base + attempt ==> Outcome(client, req, k).Err?
        invariant attempt == 0 ==> lastError == "None"
        invariant attempt > 0 ==> lastError == Outcome(client, req, base + attempt - 1).error
      {
        var outcome := AttemptResult(client(base + attempt, req));
        assert outcome == Outcome(client, req, base + attempt);
        AttemptsSkip(client, base, req, attempt, maxRetries);
        if outcome.Ok? {
          return attempt + 1, outcome;
        }
        lastError := outcome.error;
        if attempt == maxRetries {
          return attempt + 1, Err(FailureMessage(maxRetries, lastError));
        }
        FailuresExtend(client, req, base, attempt);
        attempt := attempt + 1;
      }
      // Only reached when `max_retries` is negative and no attempt was made.
      return 0, Err(FailureMessage(maxRetries, lastError));
    }

    /** `extract_requirements(prompt)`: one call, then validation of its payload; a payload
        that fails validation is not retried. */
    method ExtractRequirements(prompt: string) returns (r: Result<SpecDraft, string>)
      modifies this
      ensures var req := RequestFor(ExtractInstructions, prompt);
        var out := CallOutcome(client, old(|sent|), req, maxRetries);
        && |sent| == old(|sent|) + out.0
        && sent == old(sent) + Repeat(req, out.0)
        && sleeps == old(sleeps) + (if out.0 == 0 then 0 else out.0 - 1)
        && events == old(events) + (if hasObserver && out.0 > 0 then [CallEvent("parse_prompt", model, out.0 - 1, out.1.Ok?)] else [])
        && (out.1.Err? ==> r == Err(out.1.error))
        && (out.1.Ok? && r.Ok? ==> fresh(r.value) && Validated(out.1.value) == Ok(r.value.Snapshot()))
        && (out.1.Ok? && r.Err? ==> Validated(out.1.value) == Err(r.error))
    {
      var payload := CallJson("parse_prompt", ExtractInstructions, prompt);
      if payload.Err? {
        return Err(payload.error);
      }
      r := ValidateAndBuild(payload.value);
    }

    /** `generate_followup(missing_field, draft)`: one call whose payload must hold a non-blank
        question. */
    method GenerateFollowup(missingField: string, draft: SpecDraft) returns (r: Result<string, string>)
      modifies this
      ensures var input := dumps(FollowupInput(missingField, draft.Snapshot()));
        var req := RequestFor(FollowupInstructions, input);
        var out := CallOutcome(client, old(|sent|), req, maxRetries);
        && |sent| == old(|sent|) + out.0
        && sent == old(sent) + Repeat(req, out.0)
        && sleeps == old(sleeps) + (if out.0 == 0 then 0 else out.0 - 1)
        && events == old(events) + (if hasObserver && out.0 > 0 then [CallEvent("generate_followup", model, out.0 - 1, out.1.Ok?)] else [])
        && r == (if out.1.Err? then Err(out.1.error) else FollowupQuestion(out.1.value, display))
    {
      var inputText := dumps(FollowupInput(missingField, draft.Snapshot()));
      var payload := CallJson("generate_followup", FollowupInstructions, inputText);
      if payload.Err? {
        return Err(payload.error);
      }
      r := FollowupQuestion(payload.value, display);
    }

    /** `normalize_spec(draft)`: one call on the serialised draft, then validation. */
    method NormalizeSpec(draft: SpecDraft) returns (r: Result<SpecDraft, string>)
      modifies this
      ensures var input := dumps(JObj(draft.Snapshot().AsDict()));
        var req := RequestFor(NormalizeInstructions, input);
        var out := CallOutcome(client, old(|sent|), req, maxRetries);
        && |sent| == old(|sent|) + out.0
        && sent == old(sent) + Repeat(req, out.0)
        && sleeps == old(sleeps) + (if out.0 == 0 then 0 else out.0 - 1)
        && events == old(events) + (if hasObserver && out.0 > 0 then [CallEvent("normalize", model, out.0 - 1, out.1.Ok?)] else [])
        && (out.1.Err? ==> r == Err(out.1.error))
        && (out.1.Ok? && r.Ok? ==> fresh(r.value) && Validated(out.1.value) == Ok(r.value.Snapshot()))
        && (out.1.Ok? && r.Err? ==> Validated(out.1.value) == Err(r.error))
    {
      var payload := CallJson("normalize", NormalizeInstructions, dumps(JObj(draft.Snapshot().AsDict())));
      if payload.Err? {
        return Err(payload.error);
      }
      r := ValidateAndBuild(payload.value);
    }
  }
}
