/** The enumerations of the system: input types, providers and each provider's models. */
module Enums {
  import opened Common

  /** The semantic type of a tool input. */
  datatype InputType = String | Integer | Float | Boolean | List | Dict | Any

  /** The supported language-model providers. */
  datatype LLMProvider = OpenAI | Anthropic | Gemini

  /** The string value of each provider member. */
  function ProviderValue(p: LLMProvider): string
  {
    match p
    case OpenAI => "OPENAI"
    case Anthropic => "ANTHROPIC"
    case Gemini => "GEMINI"
  }

  /** The member values in declaration order. */
  const ProviderValues: seq<string> := ["OPENAI", "ANTHROPIC", "GEMINI"]

  /** `LLMProvider(value)`: lookup by value, which fails for any other string. */
  function ParseProvider(value: string): (r: Option<LLMProvider>)
    ensures r.Some? <==> value in ProviderValues
    ensures r.Some? ==> ProviderValue(r.value) == value
  {
    if value == "OPENAI" then Some(OpenAI)
    else if value == "ANTHROPIC" then Some(Anthropic)
    else if value == "GEMINI" then Some(Gemini)
    else None
  }

  const OpenAIModels: seq<string> :=
    ["gpt-5", "gpt-5-mini", "gpt-4", "gpt-4-turbo", "gpt-4o", "gpt-4o-mini", "gpt-3.5-turbo"]

  const AnthropicModels: seq<string> :=
    ["claude-3-5-sonnet-20241022", "claude-3-opus-20240229", "claude-3-haiku-20240307"]

  const GeminiModels: seq<string> :=
    ["gemini-pro", "gemini-pro-vision", "gemini-1.5-pro", "gemini-1.5-flash"]

  /** The model values of a provider's model enumeration. */
  function ModelsOf(p: LLMProvider): seq<string>
  {
    match p
    case OpenAI => OpenAIModels
    case Anthropic => AnthropicModels
    case Gemini => GeminiModels
  }

  /** Every provider value parses back to its member. */
  lemma ProviderValueRoundTrip(p: LLMProvider)
    ensures ParseProvider(ProviderValue(p)) == Some(p)
  {
  }
}
