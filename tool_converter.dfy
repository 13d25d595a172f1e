/** Provider dispatch for tool conversion. The provider is compared as a string:
    the provider enumeration's members are strings, so a plain value compares
    equal to its member. */
module ToolConverter {
  import opened Common
  import opened Enums
  import opened ToolBase
  import opened OpenAIToolConverter

  /** `convert_tools`: the OpenAI conversion for OPENAI, NotImplementedError for
      ANTHROPIC and GEMINI whatever the tools, ValueError for anything else. */
  function ConvertTools(tools: seq<Tool>, targetProvider: string): (r: Result<seq<OpenAIFunction>, Error>)
    ensures r.Success? <==> targetProvider == ProviderValue(OpenAI)
    ensures r.Success? ==> |r.value| == |tools| && forall i :: 0 <= i < |tools| ==> r.value[i] == FunctionFor(tools[i])
    ensures targetProvider == ProviderValue(Anthropic) ==>
              r == Failure(NotImplementedError("Anthropic tool conversion not yet implemented"))
    ensures targetProvider == ProviderValue(Gemini) ==>
              r == Failure(NotImplementedError("Gemini tool conversion not yet implemented"))
    ensures targetProvider !in ProviderValues ==>
              r == Failure(ValueError("Unsupported LLM provider: " + targetProvider))
  {
    if targetProvider == ProviderValue(OpenAI) then Success(ConvertAll(tools))
    else if targetProvider == ProviderValue(Anthropic) then
      Failure(NotImplementedError("Anthropic tool conversion not yet implemented"))
    else if targetProvider == ProviderValue(Gemini) then
      Failure(NotImplementedError("Gemini tool conversion not yet implemented"))
    else Failure(ValueError("Unsupported LLM provider: " + targetProvider))
  }

  /** Only the OPENAI route looks at the tools: every other provider gives the
      same outcome for any two tool lists, the empty list included. */
  lemma NonOpenAIOutcomeIgnoresTools(s: seq<Tool>, t: seq<Tool>, targetProvider: string)
    requires targetProvider != ProviderValue(OpenAI)
    ensures ConvertTools(s, targetProvider) == ConvertTools(t, targetProvider)
    ensures ConvertTools(s, targetProvider).Failure?
  {
  }
}
