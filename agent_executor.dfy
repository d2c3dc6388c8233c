/** Sub-agent calls (cli/src/services/agent-executor.ts, with the shapes of
    cli/src/agents/types.ts): the prompt a sub-agent is given and how the
    outcome of the text-generation call is reported. The call itself is an
    oracle, `generate(systemPrompt, prompt)`. */
module AgentExecutor {
  import opened Common

  /** What the main agent passes down: a conversation snippet and,
      optionally, the user's goal. */
  datatype AgentContext = AgentContext(conversationContext: string, userIntent: Option<string>)

  datatype AgentExecutorConfig = AgentExecutorConfig(name: string, systemPrompt: string, userPrompt: string, context: AgentContext)

  datatype AgentExecutorResult = AgentExecutorResult(success: bool, text: string, error: Option<string>)

  /** What the text-generation call comes back with: text, or the message of
      what it threw. */
  datatype Generation = Generated(text: string) | GenerationFailed(message: string)

  /** The parts `buildAgentPrompt` collects, before they are joined. */
  function PromptParts(config: AgentExecutorConfig): (r: seq<string>)
    ensures |r| == 2 + (if config.context.conversationContext != "" then 3 else 0)
      + (if Given(config.context.userIntent) then 3 else 0)
    ensures r[|r| - 2..] == ["## Task", config.userPrompt]
    ensures config.context.conversationContext != "" ==>
      r[..3] == ["## Conversation Context", config.context.conversationContext, ""]
    ensures Given(config.context.userIntent) ==>
      r[|r| - 5..|r| - 2] == ["## User Intent", config.context.userIntent.value, ""]
  {
    (if config.context.conversationContext != "" then ["## Conversation Context", config.context.conversationContext, ""] else [])
    + (if Given(config.context.userIntent) then ["## User Intent", config.context.userIntent.value, ""] else [])
    + ["## Task", config.userPrompt]
  }

  function Prompt(config: AgentExecutorConfig): string
  {
    Join(PromptParts(config), "\n")
  }

  /** `buildAgentPrompt`: pushes the sections that apply, then joins them. */
  method BuildAgentPrompt(config: AgentExecutorConfig) returns (r: string)
    ensures r == Prompt(config)
  {
    var parts: seq<string> := [];
    if config.context.conversationContext != "" {
      parts := parts + ["## Conversation Context"];
      parts := parts + [config.context.conversationContext];
      parts := parts + [""];
    }
    if Given(config.context.userIntent) {
      parts := parts + ["## User Intent"];
      parts := parts + [config.context.userIntent.value];
      parts := parts + [""];
    }
    parts := parts + ["## Task"];
    parts := parts + [config.userPrompt];
    assert parts == PromptParts(config);
    r := Join(parts, "\n");
  }

  /** The prompt always ends with the task section. */
  lemma PromptEndsWithTask(config: AgentExecutorConfig)
    ensures var p := Prompt(config); var tail := "## Task\n" + config.userPrompt;
      |tail| <= |p| && p[|p| - |tail|..] == tail
  {
    var parts := PromptParts(config);
    var front := parts[..|parts| - 2];
    var tail := "## Task\n" + config.userPrompt;
    assert parts == front + ["## Task"] + [config.userPrompt];
    if front == [] {
      assert parts == ["## Task", config.userPrompt];
      assert Join(parts, "\n") == tail;
    } else {
      JoinSnoc(front, "## Task", "\n");
      JoinSnoc(front + ["## Task"], config.userPrompt, "\n");
      assert Join(parts, "\n") == Join(front, "\n") + "\n" + tail;
    }
  }

  /** With no context and no intent, the prompt is the task section alone. */
  lemma PromptBareTask(config: AgentExecutorConfig)
    requires config.context.conversationContext == "" && !Given(config.context.userIntent)
    ensures Prompt(config) == "## Task\n" + config.userPrompt
  {
    var parts := PromptParts(config);
    assert parts == ["## Task", config.userPrompt];
    assert parts[1..] == [config.userPrompt];
    assert Join(parts, "\n") == "## Task" + "\n" + config.userPrompt;
  }

  /** A conversation context comes first, under its heading, followed by a
      blank line. */
  lemma PromptStartsWithContext(config: AgentExecutorConfig)
    requires config.context.conversationContext != ""
    ensures StartsWith(Prompt(config), "## Conversation Context\n" + config.context.conversationContext + "\n\n")
  {
    var parts := PromptParts(config);
    var c := config.context.conversationContext;
    assert parts[0] == "## Conversation Context" && parts[1] == c && parts[2] == "";
    assert parts[1..][1..] == parts[2..];
    var rest := Join(parts[3..], "\n");
    assert parts[2..][1..] == parts[3..];
    assert Join(parts[2..], "\n") == "" + "\n" + rest;
    assert Join(parts, "\n") == "## Conversation Context" + "\n" + (c + "\n" + ("" + "\n" + rest));
    assert Join(parts, "\n") == ("## Conversation Context\n" + c + "\n\n") + rest;
  }

  /** `executeAgentLLM` as a function of the key and of the generation oracle. */
  function Run(config: AgentExecutorConfig, apiKey: Option<string>, generate: (string, string) -> Generation): (r: AgentExecutorResult)
    ensures !Given(apiKey) ==> r == AgentExecutorResult(false, "", Some("OPENROUTER_API_KEY not set"))
    ensures r.success <==> Given(apiKey) && generate(config.systemPrompt, Prompt(config)).Generated?
    ensures r.success ==> r.text == Trim(generate(config.systemPrompt, Prompt(config)).text) && r.error.None?
    ensures !r.success ==> r.text == "" && r.error.Some?
    ensures Given(apiKey) && generate(config.systemPrompt, Prompt(config)).GenerationFailed? ==>
      r.error == Some(generate(config.systemPrompt, Prompt(config)).message)
  {
    if !Given(apiKey) then AgentExecutorResult(false, "", Some("OPENROUTER_API_KEY not set"))
    else match generate(config.systemPrompt, Prompt(config))
      case Generated(text) => AgentExecutorResult(true, Trim(text), None)
      case GenerationFailed(message) => AgentExecutorResult(false, "", Some(message))
  }

  /** `executeAgentLLM`: the key guard, then one generation call on the
      built prompt. */
  method ExecuteAgentLLM(config: AgentExecutorConfig, apiKey: Option<string>, generate: (string, string) -> Generation)
    returns (r: AgentExecutorResult)
    ensures r == Run(config, apiKey, generate)
  {
    if !Given(apiKey) {
      return AgentExecutorResult(false, "", Some("OPENROUTER_API_KEY not set"));
    }
    var fullPrompt := BuildAgentPrompt(config);
    match generate(config.systemPrompt, fullPrompt)
    case Generated(text) =>
      r := AgentExecutorResult(true, Trim(text), None);
    case GenerationFailed(message) =>
      r := AgentExecutorResult(false, "", Some(message));
  }
}
