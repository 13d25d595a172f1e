/** The activity that runs one agent on one request: it validates the agent
    definition (provider, tools, model) in a fixed order, builds the initial
    conversation from the system prompt, the request text and the file URLs,
    and hands it to the OpenAI loop, the only provider that is implemented. */
module InvokeAgent {
  import opened Common
  import opened Enums
  import opened Schemas
  import opened OpenAIToolConverter
  import opened ToolConverter
  import opened OpenAIInvocation
  import ToolRegistry

  const MissingAgent: Error := ValueError("Agent must be provided")

  /** The provider name used in the model and not-implemented messages. */
  function ProviderLabel(p: LLMProvider): string
  {
    match p
    case OpenAI => "OpenAI"
    case Anthropic => "Anthropic"
    case Gemini => "Gemini"
  }

  function InvalidProvider(value: string): Error
  {
    ValueError("Invalid llm_provider '" + value + "'. Must be one of " + QuotedList(ProviderValues))
  }

  function UnsupportedModel(p: LLMProvider, model: string): Error
  {
    ValueError("Unsupported " + ProviderLabel(p) + " model: " + model + ". Supported models: " + QuotedList(ModelsOf(p)))
  }

  function ProviderNotImplemented(p: LLMProvider): Error
  {
    NotImplementedError(ProviderLabel(p) + " provider not yet implemented")
  }

  // ---------------------------------------------------------------------------
  // Validation

  /** The checks `invoke_agent` makes before any model call, in its order: an
      agent is given; its provider string names a provider; its tools, when
      there are any, convert for that provider; its model is one of that
      provider's models; and the provider is OPENAI. On success, the converted
      tools (`None` for an agent without tools). */
  function Validate(agent: Option<AgentDefinition>): (r: Result<Option<seq<OpenAIFunction>>, Error>)
    ensures r.Success? <==> agent.Some? && agent.value.llmProvider == "OPENAI" && agent.value.model in OpenAIModels
    ensures r.Success? ==> r.value == if agent.value.tools == [] then None else Some(ConvertAll(agent.value.tools))
  {
    if agent.None? then Failure(MissingAgent)
    else
      var a := agent.value;
      match ParseProvider(a.llmProvider)
      case None => Failure(InvalidProvider(a.llmProvider))
      case Some(p) =>
        var converted := if a.tools != [] then ConvertTools(a.tools, ProviderValue(p)) else Success([]);
        if converted.Failure? then Failure(converted.error)
        else if a.model !in ModelsOf(p) then Failure(UnsupportedModel(p, a.model))
        else if p != OpenAI then Failure(ProviderNotImplemented(p))
        else Success(if a.tools != [] then Some(converted.value) else None)
  }

  /** Each error of the validation and the exact condition under which it is the
      one raised: the first failing check wins. */
  lemma ValidationErrors(agent: Option<AgentDefinition>)
    ensures agent.None? ==> Validate(agent) == Failure(MissingAgent)
    ensures agent.Some? && agent.value.llmProvider !in ProviderValues ==>
              Validate(agent) == Failure(InvalidProvider(agent.value.llmProvider))
    ensures agent.Some? && agent.value.llmProvider == "OPENAI" && agent.value.model !in OpenAIModels ==>
              Validate(agent) == Failure(UnsupportedModel(OpenAI, agent.value.model))
    ensures agent.Some? && agent.value.llmProvider == "ANTHROPIC" && agent.value.tools != [] ==>
              Validate(agent) == Failure(NotImplementedError("Anthropic tool conversion not yet implemented"))
    ensures agent.Some? && agent.value.llmProvider == "GEMINI" && agent.value.tools != [] ==>
              Validate(agent) == Failure(NotImplementedError("Gemini tool conversion not yet implemented"))
  {
  }

  /** An ANTHROPIC or GEMINI agent without tools fails on its model when that is
      not one of the provider's models, and otherwise because the provider is
      not implemented. */
  lemma UnimplementedProviders(agent: AgentDefinition, p: LLMProvider)
    requires p != OpenAI && agent.llmProvider == ProviderValue(p) && agent.tools == []
    ensures agent.model !in ModelsOf(p) ==> Validate(Some(agent)) == Failure(UnsupportedModel(p, agent.model))
    ensures agent.model in ModelsOf(p) ==> Validate(Some(agent)) == Failure(ProviderNotImplemented(p))
  {
    assert ParseProvider(agent.llmProvider) == Some(p) by {
      ProviderValueRoundTrip(p);
    }
  }

  /** Tool conversion comes before the model check: an ANTHROPIC or GEMINI agent
      with tools fails with the conversion error whatever its model. */
  lemma ToolConversionPrecedesModelCheck(a: AgentDefinition, b: AgentDefinition)
    requires a.llmProvider == b.llmProvider != "OPENAI" && a.tools != [] && b.tools != []
    requires a.llmProvider in ProviderValues
    ensures Validate(Some(a)) == Validate(Some(b))
    ensures Validate(Some(a)).Failure? && Validate(Some(a)).error.NotImplementedError?
  {
    NonOpenAIOutcomeIgnoresTools(a.tools, b.tools, a.llmProvider);
  }

  // ---------------------------------------------------------------------------
  // The initial conversation

  /** The user message content: the request text, then one file part per URL. */
  function UserContent(requestText: string, files: seq<string>): (c: seq<InputPart>)
    ensures |c| == 1 + |files| && c[0] == InputText(requestText)
    ensures forall k :: 0 <= k < |files| ==> c[1 + k] == InputFile(files[k])
  {
    [InputText(requestText)] + seq(|files|, k requires 0 <= k < |files| => InputFile(files[k]))
  }

  /** The conversation the loop starts from: a system message when the prompt is
      not empty, then the user message. A missing file list is no files. */
  function InitialInput(systemPrompt: string, requestText: string, requestFiles: Option<seq<string>>): (r: seq<Item>)
    ensures |r| == (if systemPrompt != "" then 2 else 1)
    ensures r[0].SystemMessage? <==> systemPrompt != ""
    ensures systemPrompt != "" ==> r[0] == SystemMessage(systemPrompt)
    ensures r[|r| - 1] == UserMessage(UserContent(requestText, if requestFiles.Some? then requestFiles.value else []))
  {
    var files := if requestFiles.Some? then requestFiles.value else [];
    (if systemPrompt != "" then [SystemMessage(systemPrompt)] else []) + [UserMessage(UserContent(requestText, files))]
  }

  // ---------------------------------------------------------------------------
  // The activity

  /** The whole activity: the validation error, or the answer of the OpenAI loop
      run with the default cap on the initial conversation, with the agent's
      model, its converted tools, and the system's tool registry. */
  function InvokeAgentSpec(requestText: string, requestFiles: Option<seq<string>>, agent: Option<AgentDefinition>, fx: Env)
    : Result<string, Error>
  {
    match Validate(agent)
    case Failure(e) => Failure(e)
    case Success(tools) =>
      LoopSpec(InitialInput(agent.value.systemPrompt, requestText, requestFiles), tools, agent.value.model,
               DefaultMaxIterations, fx.(registry := ToolRegistry.Registry)).answer
  }

  /** The checks of `invoke_agent` before the conversation is built, step by step
      as the activity makes them. */
  method ValidateAgent(agent: Option<AgentDefinition>) returns (r: Result<Option<seq<OpenAIFunction>>, Error>)
    ensures r == Validate(agent)
  {
    if agent.None? {
      return Failure(MissingAgent);
    }
    var a := agent.value;
    var parsed := ParseProvider(a.llmProvider);
    if parsed.None? {
      return Failure(InvalidProvider(a.llmProvider));
    }
    var provider := parsed.value;
    var tools: Option<seq<OpenAIFunction>> := None;
    if a.tools != [] {
      var converted := ConvertTools(a.tools, ProviderValue(provider));
      if converted.Failure? {
        return Failure(converted.error);
      }
      tools := Some(converted.value);
    }
    if a.model !in ModelsOf(provider) {
      return Failure(UnsupportedModel(provider, a.model));
    }
    if provider != OpenAI {
      return Failure(ProviderNotImplemented(provider));
    }
    r := Success(tools);
  }

  /** The initial conversation, built step by step: the system message when the
      prompt is not empty, then the user message with one file part per URL. */
  method BuildInitialInput(systemPrompt: string, requestText: string, requestFiles: Option<seq<string>>)
    returns (inputList: seq<Item>)
    ensures inputList == InitialInput(systemPrompt, requestText, requestFiles)
  {
    inputList := [];
    if systemPrompt != "" {
      inputList := inputList + [SystemMessage(systemPrompt)];
    }
    ghost var head := inputList;
    assert head == if systemPrompt != "" then [SystemMessage(systemPrompt)] else [];
    var content := [InputText(requestText)];
    assert content == UserContent(requestText, []);
    if requestFiles.Some? && requestFiles.value != [] {
      var files := requestFiles.value;
      for k := 0 to |files|
        invariant content == UserContent(requestText, files[..k])
      {
        content := content + [InputFile(files[k])];
      }
      assert files[..|files|] == files;
    }
    assert content == UserContent(requestText, if requestFiles.Some? then requestFiles.value else []);
    inputList := inputList + [UserMessage(content)];
    assert inputList == head + [UserMessage(content)];
  }

  /** `invoke_agent`. */
  method Invoke(requestText: string, requestFiles: Option<seq<string>>, agent: Option<AgentDefinition>, fx: Env)
    returns (r: Result<string, Error>)
    ensures r == InvokeAgentSpec(requestText, requestFiles, agent, fx)
  {
    var validated := ValidateAgent(agent);
    if validated.Failure? {
      return Failure(validated.error);
    }
    var tools := validated.value;
    var inputList := BuildInitialInput(agent.value.systemPrompt, requestText, requestFiles);
    var env := fx.(registry := ToolRegistry.Registry);
    var answer, conversation, replies := InvokeOpenAILoop(inputList, tools, agent.value.model, DefaultMaxIterations, env);
    r := answer;
  }

  /** The activity answers only for an OPENAI agent with a supported model, and
      then exactly as the loop does; every other agent gets its validation error
      without any model call. */
  lemma OnlyValidOpenAIAgentsReachTheModel(requestText: string, requestFiles: Option<seq<string>>,
                                           agent: Option<AgentDefinition>, fx: Env)
    ensures InvokeAgentSpec(requestText, requestFiles, agent, fx).Success? ==>
              agent.Some? && agent.value.llmProvider == "OPENAI" && agent.value.model in OpenAIModels
    ensures Validate(agent).Failure? ==> InvokeAgentSpec(requestText, requestFiles, agent, fx) == Failure(Validate(agent).error)
  {
  }

  /** A valid agent runs the loop once, capped at five model calls, on the
      initial conversation with the agent's own model, and with its tools
      converted to the OpenAI format (no tools at all for an agent without
      tools); the activity's answer is the loop's. */
  lemma ValidAgentsRunTheLoop(requestText: string, requestFiles: Option<seq<string>>, agent: AgentDefinition, fx: Env)
    requires agent.llmProvider == "OPENAI" && agent.model in OpenAIModels
    ensures InvokeAgentSpec(requestText, requestFiles, Some(agent), fx) ==
      LoopSpec(InitialInput(agent.systemPrompt, requestText, requestFiles),
               if agent.tools == [] then None else Some(ConvertAll(agent.tools)),
               agent.model, 5, fx.(registry := ToolRegistry.Registry)).answer
  {
  }

  /** Without an API key, a valid agent fails with the missing-key error before
      any model call. */
  lemma MissingKeyStopsValidAgents(requestText: string, requestFiles: Option<seq<string>>,
                                   agent: Option<AgentDefinition>, fx: Env)
    requires !fx.apiKeySet && Validate(agent).Success?
    ensures InvokeAgentSpec(requestText, requestFiles, agent, fx) == Failure(MissingApiKey)
  {
  }
}
