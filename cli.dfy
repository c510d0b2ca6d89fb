/**
 * The decisions `cli.py` makes around a generation run: which API keys it accepts, which
 * model it picks by default, and which exit code `spec-engine generate` ends with.
 */
module Cli {
  import opened Wrappers
  import opened Text
  import opened JsonValues
  import opened Models
  import opened Providers
  import opened Engine
  import opened Renderer

  /* ---------------------------------------------------------------------------------------- */
  /* `_is_valid_api_key` and `_default_model_for_provider`                                    */
  /* ---------------------------------------------------------------------------------------- */

  /** The prefix every accepted key starts with. */
  const KeyPrefix := "sk-"

  /** `_is_valid_api_key(provider_name, api_key)` */
  function IsValidApiKey(providerName: string, apiKey: string): bool {
    var key := Strip(apiKey);
    if key == [] then false
    else if !StartsWith(key, KeyPrefix) then false
    else if providerName == "openrouter" then StartsWith(key, "sk-or-") || StartsWith(key, KeyPrefix)
    else if providerName == "openai" then StartsWith(key, KeyPrefix)
    else false
  }

  /** A key is accepted exactly for the two known providers and a stripped key starting with
      `sk-`: the `sk-or-` alternative adds nothing, and a blank key is never accepted. */
  lemma IsValidApiKeySpec(providerName: string, apiKey: string)
    ensures IsValidApiKey(providerName, apiKey) <==>
      (providerName == "openrouter" || providerName == "openai") && StartsWith(Strip(apiKey), KeyPrefix)
    ensures IsBlank(apiKey) ==> !IsValidApiKey(providerName, apiKey)
  {
    StripEmptyIffBlank(apiKey);
    var key := Strip(apiKey);
    if StartsWith(key, "sk-or-") {
      assert key[..3] == key[..6][..3];
    }
  }

  /** `_default_model_for_provider(provider_name)` */
  function DefaultModelForProvider(providerName: string): (model: string)
    ensures model == "openai/gpt-4o-mini" <==> providerName == "openrouter"
    ensures model == "gpt-5-mini" <==> providerName != "openrouter"
  {
    if providerName == "openrouter" then "openai/gpt-4o-mini" else "gpt-5-mini"
  }

  /* ---------------------------------------------------------------------------------------- */
  /* `_generate_spec`                                                                         */
  /* ---------------------------------------------------------------------------------------- */

  /** How `_generate_spec` ends: it returns an exit code, or it writes the content to the
      output file and returns `None`. */
  datatype Generated = Stopped(code: nat) | Written(content: string)

  /** `content + ("" if content.endswith("\n") else "\n")` */
  function WithFinalBreak(content: string): string {
    if content != [] && content[|content| - 1] == '\n' then content else content + "\n"
  }

  /** The written text always ends with a line break, is the content itself when that already
      does, and adding the break twice changes nothing. */
  lemma WithFinalBreakSpec(content: string)
    ensures var w := WithFinalBreak(content); w != [] && w[|w| - 1] == '\n'
    ensures content != [] && content[|content| - 1] == '\n' ==> WithFinalBreak(content) == content
    ensures content == [] || content[|content| - 1] != '\n' ==> WithFinalBreak(content) == content + "\n"
    ensures WithFinalBreak(WithFinalBreak(content)) == WithFinalBreak(content)
  {
    var w := WithFinalBreak(content);
    assert w[|w| - 1] == '\n';
  }

  /** What `_generate_spec` does once `build_spec_draft` has returned `built` (or raised): stop
      with 1 when a non-interactive run leaves required fields missing, else write the JSON
      result (`dumps` stands for `json.dumps(..., indent=2)`) or the Markdown document. */
  function GenerateFrom(built: Result<BuildResult, string>, asJson: bool, interactive: bool,
                        dumps: Json -> string): (g: Result<Generated, string>)
    ensures g.Ok? && g.value.Stopped? ==> g.value.code == 1
  {
    match built
    case Err(e) => Err(e)
    case Ok(b) =>
      if !interactive && b.missingFields != [] then Ok(Stopped(1))
      else
        Ok(Written(WithFinalBreak(Content(b, asJson, dumps))))
  }

  /** The text `_generate_spec` writes before its final line break. */
  function Content(b: BuildResult, asJson: bool, dumps: Json -> string): string {
    if asJson then dumps(JObj(b.ToJsonDict())) else Render(b.draft)
  }

  /** `_generate_spec(prompt, output, as_json, interactive, provider)`: build the draft, then
      stop or write. An error `build_spec_draft` raises propagates. */
  function GenerateSpec(prompt: string, asJson: bool, interactive: bool, provider: Option<Provider>,
                        ask: (nat, string) -> string, dumps: Json -> string): Result<Generated, string>
  {
    GenerateFrom(Built(prompt, interactive, provider, ask), asJson, interactive, dumps)
  }

  /** The run stops, always with 1, exactly when it is not interactive and the build misses a
      required field; a failed build is the only error, and otherwise the output is written. */
  lemma GenerateStops(built: Result<BuildResult, string>, asJson: bool, interactive: bool, dumps: Json -> string)
    ensures var g := GenerateFrom(built, asJson, interactive, dumps);
      && (g.Ok? <==> built.Ok?)
      && (g.Ok? ==> (g.value.Stopped? <==> !interactive && built.value.missingFields != []))
  {
  }

  /** A Markdown run that is not stopped writes the rendered document itself: it already ends
      in one line break, so none is added. */
  lemma MarkdownWrittenAsRendered(b: BuildResult, interactive: bool, dumps: Json -> string)
    requires interactive || b.missingFields == []
    ensures GenerateFrom(Ok(b), false, interactive, dumps) == Ok(Written(Render(b.draft)))
  {
    assert Content(b, false, dumps) == Render(b.draft);
    RenderEnd(b.draft);
    KeepsFinalBreak(Render(b.draft));
  }

  lemma KeepsFinalBreak(doc: string)
    requires EndsInOneBreak(doc)
    ensures WithFinalBreak(doc) == doc
  {
  }

  /** A blank prompt built without questions always stops with 1. */
  lemma BlankPromptStops(prompt: string, asJson: bool, ask: (nat, string) -> string, dumps: Json -> string)
    requires IsBlank(prompt)
    ensures GenerateSpec(prompt, asJson, false, None, ask, dumps) == Ok(Stopped(1))
  {
    BlankPromptAllMissing(prompt, ask);
  }

  /* ---------------------------------------------------------------------------------------- */
  /* `_run_generate`                                                                          */
  /* ---------------------------------------------------------------------------------------- */

  /** `OpenAIProvider(model=...)`: resolving the client configuration from the environment can
      raise, and so can a missing `openai` package; otherwise `llm` gives the provider's
      operations for the resolved configuration. */
  function NewOpenAIProvider(env: map<string, string>, installed: bool, llm: ClientConfig -> Provider): Result<Provider, string> {
    match ResolveLlmClientConfig(None, None, env)
    case Err(e) => Err(e)
    case Ok(config) =>
      if !installed then Err("openai package is required for " + "--use-llm. Install it with " + "`pip install openai`.")
      else Ok(llm(config))
  }

  /** The arguments of `spec-engine generate`. */
  datatype GenerateArgs = GenerateArgs(prompt: Option<string>, useLlm: bool, asJson: bool, interactive: bool)

  /** The prompt argument as `_run_generate` reads it: `args.prompt or ""`. */
  function PromptText(args: GenerateArgs): string {
    if args.prompt.Some? then args.prompt.value else ""
  }

  /** The exit code for how `_generate_spec` ended: its own code, or 0 once it wrote the
      output; an error it raised propagates. */
  function ExitOf(g: Result<Generated, string>): Result<nat, string> {
    match g
    case Err(e) => Err(e)
    case Ok(Stopped(code)) => Ok(code)
    case Ok(Written(_)) => Ok(0)
  }

  /** `_run_generate(args)`: 2 for a blank prompt, before any provider is made; 3 when making
      the LLM provider raises; otherwise the exit code of `_generate_spec` with the provider
      made, or with none when the LLM is not asked for. */
  function RunGenerate(args: GenerateArgs, env: map<string, string>, installed: bool, llm: ClientConfig -> Provider,
                       ask: (nat, string) -> string, dumps: Json -> string): Result<nat, string>
  {
    var prompt := Strip(PromptText(args));
    if prompt == [] then Ok(2)
    else if !args.useLlm then ExitOf(GenerateSpec(prompt, args.asJson, args.interactive, None, ask, dumps))
    else match NewOpenAIProvider(env, installed, llm)
      case Err(_) => Ok(3)
      case Ok(p) => ExitOf(GenerateSpec(prompt, args.asJson, args.interactive, Some(p), ask, dumps))
  }

  /** The provider `_run_generate` hands to `_generate_spec` when it gets that far. */
  function Chosen(args: GenerateArgs, env: map<string, string>, installed: bool, llm: ClientConfig -> Provider): Option<Provider> {
    var made := NewOpenAIProvider(env, installed, llm);
    if args.useLlm && made.Ok? then Some(made.value) else None
  }

  /** Past the prompt and provider checks, the exit code is 1 exactly when the run is not
      interactive and the build misses a required field, 0 when the output is written, and
      never 2 or 3. */
  lemma GeneratedExit(prompt: string, asJson: bool, interactive: bool, provider: Option<Provider>,
                      ask: (nat, string) -> string, dumps: Json -> string)
    ensures var r, b := ExitOf(GenerateSpec(prompt, asJson, interactive, provider, ask, dumps)),
      Built(prompt, interactive, provider, ask);
      && (r.Ok? <==> b.Ok?)
      && (r.Ok? ==> r.value in {0, 1})
      && (r == Ok(1) <==> b.Ok? && !interactive && b.value.missingFields != [])
  {
    GenerateStops(Built(prompt, interactive, provider, ask), asJson, interactive, dumps);
  }

  /** The exit code once the prompt is known not to be blank. */
  lemma PastPrompt(args: GenerateArgs, env: map<string, string>, installed: bool, llm: ClientConfig -> Provider,
                   ask: (nat, string) -> string, dumps: Json -> string)
    requires Strip(PromptText(args)) != []
    ensures var r, prompt := RunGenerate(args, env, installed, llm, ask, dumps), Strip(PromptText(args));
      var chosen := Chosen(args, env, installed, llm);
      && (args.useLlm && NewOpenAIProvider(env, installed, llm).Err? ==> r == Ok(3))
      && (!(args.useLlm && NewOpenAIProvider(env, installed, llm).Err?) ==>
            r == ExitOf(GenerateSpec(prompt, args.asJson, args.interactive, chosen, ask, dumps)))
  {
  }

  /** The exit code is 2 exactly when the prompt is missing or blank, whatever the environment,
      the provider and the answers. */
  lemma ExitTwoIffBlankPrompt(args: GenerateArgs, env: map<string, string>, installed: bool, llm: ClientConfig -> Provider,
                              ask: (nat, string) -> string, dumps: Json -> string)
    ensures RunGenerate(args, env, installed, llm, ask, dumps) == Ok(2) <==> IsBlank(PromptText(args))
  {
    StripEmptyIffBlank(PromptText(args));
    var prompt := Strip(PromptText(args));
    if prompt != [] {
      PastPrompt(args, env, installed, llm, ask, dumps);
      GeneratedExit(prompt, args.asJson, args.interactive, Chosen(args, env, installed, llm), ask, dumps);
    }
  }

  /** With a non-blank prompt the exit code is 3 exactly when the LLM provider is asked for and
      cannot be made: no API key in the environment, or no `openai` package. */
  lemma ExitThreeIffNoProvider(args: GenerateArgs, env: map<string, string>, installed: bool, llm: ClientConfig -> Provider,
                               ask: (nat, string) -> string, dumps: Json -> string)
    requires !IsBlank(PromptText(args))
    ensures RunGenerate(args, env, installed, llm, ask, dumps) == Ok(3) <==>
      args.useLlm && (!installed ||
        (IsBlank(Getenv(env, "OPENROUTER_API_KEY")) && IsBlank(Getenv(env, "OPENAI_API_KEY"))))
  {
    StripEmptyIffBlank(PromptText(args));
    MissingKeysFail(None, None, env);
    PastPrompt(args, env, installed, llm, ask, dumps);
    GeneratedExit(Strip(PromptText(args)), args.asJson, args.interactive, Chosen(args, env, installed, llm), ask, dumps);
  }

  /** Every exit code is one of 0, 1, 2 and 3, and it is 1 exactly when the prompt is not
      blank, the provider could be made, and a non-interactive build succeeded with a required
      field missing. */
  lemma ExitCodes(args: GenerateArgs, env: map<string, string>, installed: bool, llm: ClientConfig -> Provider,
                  ask: (nat, string) -> string, dumps: Json -> string)
    ensures var r := RunGenerate(args, env, installed, llm, ask, dumps);
      r.Ok? ==> r.value in {0, 1, 2, 3}
    ensures var prompt, chosen := Strip(PromptText(args)), Chosen(args, env, installed, llm);
      RunGenerate(args, env, installed, llm, ask, dumps) == Ok(1) <==>
        && prompt != []
        && !(args.useLlm && NewOpenAIProvider(env, installed, llm).Err?)
        && !args.interactive
        && Built(prompt, false, chosen, ask).Ok?
        && Built(prompt, false, chosen, ask).value.missingFields != []
  {
    var prompt := Strip(PromptText(args));
    if prompt != [] {
      PastPrompt(args, env, installed, llm, ask, dumps);
      GeneratedExit(prompt, args.asJson, args.interactive, Chosen(args, env, installed, llm), ask, dumps);
    }
  }
}
