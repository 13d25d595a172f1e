# Agent tool-calling core, modelled in Dafny

This project models the request path of a small agent service. It covers five pieces:

- **Turn parsing.** One call to the OpenAI Responses endpoint, with the reply parsed into function calls and tool uses (`invoke_openai`).
- **The tool loop.** A bounded loop (`invoke_openai_loop`) sends the conversation to the model. For every function call it appends one `function_call_output`; for every tool use it appends one `tool_result`. It stops at the first reply without calls, or after `max_iterations` model calls.
- **Schema conversion.** Tool schemas are translated into the strict OpenAI function format (`convert_tools_to_openai`, `input_type_to_openai_type`), behind a dispatch on the provider (`convert_tools`).
- **The agent activity.** `invoke_agent` validates an agent definition in a fixed order: agent present, provider, tools, model. It then builds the initial conversation and runs the loop.
- **The registries.** The tool registry (`get_tool`) and the agent registry (`get_agent`, `get_agents`).

Modules, one per source file:

- `Common`: `Option`, `Result`, and Python's exceptions as the `Error` datatype.
- `Json`: JSON values and an abstract codec.
- `Enums`: providers, input types and each provider's model list.
- `ToolBase` and `Schemas`: the declaration records.
- `ToolRegistry` and `AgentRegistry`: the two registries.
- `OpenAIToolConverter`: the schema conversion.
- `ToolConverter`: the provider dispatch.
- `OpenAIInvocation`: the provider call and the loop.
- `InvokeAgent`: the activity.

The outside world is passed in as an `Env` value:

- whether `OPENAI_API_KEY` is set and non-empty (a boolean);
- the provider, as a function from request to reply;
- the tool registry the loop consults;
- each tool's `__call__`, which returns a string or raises;
- the message of the TypeError that `**` raises on arguments that are not an object;
- the JSON codec;
- `json.dumps` of a whole turn result, which may fail.

The loop is an imperative method. It is proved equal to a recursive specification, `Run`/`LoopSpec`. That specification records the replies the model gave, so lemmas can state facts about them:

- how many model calls happen;
- when the loop stops;
- what it answers;
- how the conversation grows.

The other loops are also methods with loop invariants: the parsing loops, the per-call loops, the schema builder and the file loop of the activity. Each is proved against the function that specifies it.

## Model

| member | source | states |
|---|---|---|
| OpenAIInvocation.BuildRequest | py_version/llm_provider_invocations/openai.py:43-49 | The request carries the model and the input. `tools` is sent exactly when the tool list is present and non-empty. `tool_choice` is "auto" exactly when tools are sent. |
| OpenAIInvocation.ExtractCalls | py_version/llm_provider_invocations/openai.py:53-73 | The nested parsing loops produce exactly the function calls and tool uses of the reply specification. |
| OpenAIInvocation.InvokeOpenAI | py_version/llm_provider_invocations/openai.py:37-82 | Without an API key: ValueError with the exact message. Otherwise: one provider call on the built request, and its parsed reply. |
| OpenAIInvocation.FunctionCallsOfMembers | py_version/llm_provider_invocations/openai.py:58-65 | A call is listed if and only if it is the record of an item of type "function_call", with `arguments` defaulting to "{}". There are no calls exactly when no item is a function call. There are never more calls than items. |
| OpenAIInvocation.FunctionCallsOfConcat | py_version/llm_provider_invocations/openai.py:58-65 | Function calls keep the output order: parsing distributes over concatenation of the item list. |
| OpenAIInvocation.ToolUsesInPartsMembers | py_version/llm_provider_invocations/openai.py:67-73 | Within one item, a tool use is listed if and only if it is the record of a content part of type "tool_use", with `input` defaulting to {}. |
| OpenAIInvocation.ToolUsesOfMembers | py_version/llm_provider_invocations/openai.py:66-73 | A tool use is listed if and only if it is the record of a "tool_use" part of some item's content. Missing content counts as empty. |
| OpenAIInvocation.ToolUsesOfConcat | py_version/llm_provider_invocations/openai.py:66-73 | Tool uses keep the item order: parsing distributes over concatenation of the item list. |
| OpenAIInvocation.ExecuteFunctionCall | py_version/llm_provider_invocations/openai.py:133-158 | The step-by-step body with its `executed` flag computes exactly the specified payload of the call. |
| OpenAIInvocation.ToolProblemsBecomePayloads | py_version/llm_provider_invocations/openai.py:138-158 | See the list after the table. |
| OpenAIInvocation.FunctionCallOutputsMatch | py_version/llm_provider_invocations/openai.py:159-163 | One `function_call_output` per call, in call order. Each carries its call's `call_id` and the serialised payload of that call. |
| OpenAIInvocation.FunctionCallOutputIds | py_version/llm_provider_invocations/openai.py:159-163 | The k-th output is a `function_call_output` whose `call_id` is the k-th call's. |
| OpenAIInvocation.ToolResultsMatch | py_version/llm_provider_invocations/openai.py:166-176 | One `tool_result` per tool use, in order. Each carries the use's id and the serialised "Implementation needed." placeholder. |
| OpenAIInvocation.ToolResultIds | py_version/llm_provider_invocations/openai.py:166-176 | The k-th result is a `tool_result` whose `tool_use_id` is the k-th use's id. |
| OpenAIInvocation.AppendFunctionCallOutputs | py_version/llm_provider_invocations/openai.py:133-163 | The per-call loop appends exactly the outputs of the calls, after the existing items. |
| OpenAIInvocation.AppendToolResults | py_version/llm_provider_invocations/openai.py:166-176 | The per-use loop appends exactly the results of the tool uses, after the existing items. |
| OpenAIInvocation.TurnAppends | py_version/llm_provider_invocations/openai.py:115-176 | See the list after the table. |
| OpenAIInvocation.NextInputExtends | py_version/llm_provider_invocations/openai.py:115-176 | A turn only appends: the conversation before it is a prefix of the one after it. |
| OpenAIInvocation.ReturnFinalAnswer | py_version/llm_provider_invocations/openai.py:125-130 | The answer to a reply without calls: its `output_text`, unchanged, when that is non-blank under Python's `strip()`. Otherwise the JSON dump of the turn result, whose failure is a TypeError. |
| OpenAIInvocation.RunStops | py_version/llm_provider_invocations/openai.py:124-130 | A round whose reply has no calls ends the loop: the reply's answer, its items appended, and that reply as the last model call. |
| OpenAIInvocation.RunContinues | py_version/llm_provider_invocations/openai.py:115-176 | A round whose reply has calls leaves the rest of the loop to run, with one iteration fewer, on the conversation extended by that turn. |
| OpenAIInvocation.InvokeOpenAILoop | py_version/llm_provider_invocations/openai.py:85-179 | See the list after the table. |
| OpenAIInvocation.LoopSpecTrace | py_version/llm_provider_invocations/openai.py:104-111 | See the list after the table. |
| OpenAIInvocation.RunReplies | py_version/llm_provider_invocations/openai.py:111-130 | See the list after the table. |
| OpenAIInvocation.RunAnswer | py_version/llm_provider_invocations/openai.py:124-179 | The loop answers with the final answer of its last reply when that reply has no calls, and with "Reached max tool iterations without final answer." otherwise. |
| OpenAIInvocation.RunConversation | py_version/llm_provider_invocations/openai.py:108-176 | The loop only appends to the conversation it starts from, so the caller's list is a prefix of the final one. |
| OpenAIInvocation.RunExhaustion | py_version/llm_provider_invocations/openai.py:111-179 | When every reply asks for calls, the loop makes exactly `max_iterations` model calls and returns the exhaustion message. |
| OpenAIInvocation.NoIterationsNoCalls | py_version/llm_provider_invocations/openai.py:111-179 | With the key set and `max_iterations <= 0`: no model call, the conversation unchanged, and the exhaustion message. |
| OpenAIInvocation.ToolFailuresDoNotStopTheLoop | py_version/llm_provider_invocations/openai.py:132-176 | See the list after the table. |
| OpenAIToolConverter.OpenAITypeOf | py_version/llm_tool_converters/openai.py:37-48 | `input_type_to_openai_type` gives one of the six JSON-schema type names. It gives "string" exactly for STRING and ANY, "object" exactly for DICT and "array" exactly for LIST. |
| OpenAIToolConverter.OpenAITypeOfCollapsesOnlyAnyToString | py_version/llm_tool_converters/openai.py:37-48 | Every input type maps to a JSON-schema type name. Two types map to the same name exactly when they are equal, or both are STRING/ANY. |
| OpenAIToolConverter.ConvertToolsToOpenAI | py_version/llm_tool_converters/openai.py:51-105 | See the list after the table. |
| OpenAIToolConverter.PropertiesOfPrefix | py_version/llm_tool_converters/openai.py:59-77 | Each further input is one further dict assignment of its name to its property. |
| OpenAIToolConverter.PropertyForIsWellShaped | py_version/llm_tool_converters/openai.py:60-75 | A property has the closed-object extras exactly when its type is "object". It has the string-items extra exactly when its type is "array". |
| OpenAIToolConverter.KeysFollowNames | py_version/llm_tool_converters/openai.py:77-79 | The property keys, and so `required`, are the input names with repeats dropped, each at its first occurrence. |
| OpenAIToolConverter.PropertyKeysAreFirstOccurrences | py_version/llm_tool_converters/openai.py:77-79 | Every declared input name is a key and nothing else is. No key appears twice. The keys follow first-occurrence order. |
| OpenAIToolConverter.PropertyValuesAreLastWrites | py_version/llm_tool_converters/openai.py:59-77 | Under a repeated name, the value is the property of the last input with that name. Every value is well shaped. |
| OpenAIToolConverter.DistinctNamesKeepEveryInput | py_version/llm_tool_converters/openai.py:59-77 | With distinct names, the dict has one entry per input, in input order. |
| OpenAIToolConverter.RequiredFlagIsIgnored | py_version/llm_tool_converters/openai.py:59-79 | Inputs that differ only in their `required` flags give the same properties. |
| OpenAIToolConverter.ConversionIgnoresRequiredFlags | py_version/llm_tool_converters/openai.py:51-105 | Tool lists that differ only in `required` flags convert to the same list. Every entry requires exactly its property keys. |
| ToolConverter.ConvertTools | py_version/tool_converter.py:21-30 | Success exactly for "OPENAI", and then the converted entries tool by tool. "ANTHROPIC" and "GEMINI" give their NotImplementedError messages. Any other value gives ValueError "Unsupported LLM provider: …". |
| ToolConverter.NonOpenAIOutcomeIgnoresTools | py_version/tool_converter.py:23-30 | For any provider other than OPENAI, the outcome is a failure and does not depend on the tools, the empty list included. |
| Enums.ParseProvider | py_version/enums.py:14-17 | Parsing succeeds exactly for the three member values and returns the member with that value. |
| InvokeAgent.Validate | py_version/temporal/activities/invoke_agent.py:29-95 | Validation succeeds exactly for an OPENAI agent whose model is an OpenAI model. It then yields the converted tools, or None for an agent without tools. |
| InvokeAgent.ValidationErrors | py_version/temporal/activities/invoke_agent.py:29-50 | See the list after the table. |
| InvokeAgent.ToolConversionPrecedesModelCheck | py_version/temporal/activities/invoke_agent.py:39-42 | An ANTHROPIC or GEMINI agent with tools fails with the tool-conversion NotImplementedError, whatever its model and tools. |
| InvokeAgent.UnimplementedProviders | py_version/temporal/activities/invoke_agent.py:77-95 | An ANTHROPIC or GEMINI agent without tools fails on an unsupported model with the exact message. With a supported model it fails with "… provider not yet implemented". |
| InvokeAgent.UserContent | py_version/temporal/activities/invoke_agent.py:59-65 | The user content is one `input_text` with the request text, followed by one `input_file` per URL in order. Its length is 1 + the number of URLs. |
| InvokeAgent.InitialInput | py_version/temporal/activities/invoke_agent.py:53-69 | There is a leading system message exactly when the system prompt is non-empty. The last element is the single user message. A missing file list counts as no files. |
| InvokeAgent.ValidateAgent | py_version/temporal/activities/invoke_agent.py:29-95 | The step-by-step checks (agent, provider, tool conversion, model, OpenAI-only) give exactly the outcome `Validate` specifies. |
| InvokeAgent.BuildInitialInput | py_version/temporal/activities/invoke_agent.py:53-69 | The appends, with the loop over the file URLs, build exactly the initial conversation `InitialInput` specifies. |
| InvokeAgent.Invoke | py_version/temporal/activities/invoke_agent.py:29-75 | The activity returns exactly the specified outcome: the validation error, or the answer of the loop run on the initial conversation. |
| InvokeAgent.OnlyValidOpenAIAgentsReachTheModel | py_version/temporal/activities/invoke_agent.py:29-95 | A successful answer implies an OPENAI agent with a supported model. Every validation error is returned as is. |
| InvokeAgent.ValidAgentsRunTheLoop | py_version/temporal/activities/invoke_agent.py:71-75 | A valid agent gets the loop's answer. The loop runs on the initial conversation, with the agent's model, its converted tools, the system's tool registry and a cap of 5. |
| InvokeAgent.MissingKeyStopsValidAgents | py_version/temporal/activities/invoke_agent.py:71-75 | Without an API key, a valid agent fails with the missing-key ValueError. |
| ToolRegistry.RegistryWellFormed | py_version/tools/registry.py:13-19 | The registry's keys are exactly the five canonical tool names. Each key maps to the tool that carries that name. |
| ToolRegistry.Lookup | py_version/tools/registry.py:24 | `.get` on a registry: some tool exactly when the name is a key, and then the tool under that key. |
| ToolRegistry.GetTool | py_version/tools/registry.py:22-24 | A tool exactly for the canonical names, and then the one whose name is the one asked for. Any other name gives None. |
| AgentRegistry.GetAgent | py_version/agents/registry.py:17-21 | Success exactly for "benefits", with the benefits agent. Any other name fails with ValueError "Agent '…' not found. Available agents: ['benefits']". |
| AgentRegistry.GetAgents | py_version/agents/registry.py:24-26 | Success exactly when every name is known. The result then has the same length and order as the names, repeats included; `[]` gives `[]`. Otherwise the error is the one for the first unknown name. |

The rows above that point here state the following.

**OpenAIInvocation.ToolProblemsBecomePayloads**
- Arguments that do not decode become {}.
- A missing, empty or unregistered name gets the "Implementation needed." placeholder.
- Arguments that are not an object make the `**` call raise TypeError, which gets the `{"error", "input"}` payload.
- A raising tool gets the `{"error", "input"}` payload.
- A tool whose output does not decode also gets the `{"error", "input"}` payload.
- Otherwise the payload is the decoded tool output. No case fails.

**OpenAIInvocation.TurnAppends.** A turn with calls grows the conversation by |items| + |calls| + |uses|. The old conversation stays as the prefix. After it come, in order:
- the reply's items;
- one `function_call_output` per call, with that call's `call_id`;
- one `tool_result` per use, with that use's id.

**OpenAIInvocation.InvokeOpenAILoop.** The loop's answer, its final local conversation and the replies it received equal the specification `LoopSpec`. Also:
- with the key set, it makes at most `max_iterations` model calls, and none when that is not positive;
- the input list is a prefix of the final conversation.

**OpenAIInvocation.LoopSpecTrace.** Without the key: the missing-key error. With the key:
- at most `max_iterations` model calls;
- the conversation only grows at its end.

**OpenAIInvocation.RunReplies.**
- At most `fuel` model calls, and at least one when any is allowed.
- Every reply but the last asked for calls.
- The loop stops before its cap only on a reply without calls.

**OpenAIInvocation.ToolFailuresDoNotStopTheLoop.** A reply with calls, whatever the tools did, is followed by another model call when the cap allows. That call is made on the conversation extended by the turn.

**OpenAIToolConverter.ConvertToolsToOpenAI.** The nested loops return one entry per tool, in order. Each entry has:
- type "function" and strict set;
- the tool's name and description, both at the top level and in the nested record, and equal parameters in both places;
- parameters of type "object" with additionalProperties false;
- the dict built from the inputs as its properties;
- `required` equal to the property keys.

**InvokeAgent.ValidationErrors.** The first failing check decides the error:
- a missing agent gives "Agent must be provided";
- an unknown provider string gives "Invalid llm_provider '…'. Must be one of ['OPENAI', 'ANTHROPIC', 'GEMINI']";
- an OPENAI agent with an unsupported model gives "Unsupported OpenAI model: …. Supported models: […]";
- an ANTHROPIC or GEMINI agent with tools gives the tool-conversion NotImplementedError.

## Left out

- **The network call.** The OpenAI client, its construction and `responses.create` are modelled as a deterministic function from request to reply. Exceptions raised by the client (network or API errors) are not modelled.
- **Environment.** `os.getenv("OPENAI_API_KEY")` and `load_dotenv` become one boolean. The model does not capture that the variable is read twice, once by the loop and once per model call; both reads give the same value. An empty value counts as missing, as `if not openai_api_key` does.
- **JSON.** `json.loads`, `json.dumps` and Python's `str()` of decoded values are abstract functions of the codec; RFC 8259 is not re-implemented. JSON numbers are integers only: floating point is not modelled. `json.dumps` of a whole turn result is a separate function that may fail, because the SDK's output objects are not serialisable in general.
- **Tool execution.** A tool's `__call__` on keyword arguments is an abstract function that returns a string or raises. A `**` expansion of arguments that are not an object raises TypeError before the tool runs (`OpenAIInvocation.CallWithKeywords`); only the wording of that TypeError's message is abstract. The stub tools' bodies are not modelled. Neither is the FSA/HSA calculator, which uses floating point.
- **Default arguments.** The defaults of `invoke_openai` and `invoke_openai_loop` (`tools=None`, `model="gpt-4"`) are not modelled: every parameter is explicit, and the only caller passes all of them.
- **Output.** `print` of each tool's output is a side effect and is left out.
- **Unreachable fallbacks.** The fallback `"string"` of `mapping.get` in `input_type_to_openai_type` cannot be reached, because the input type is a closed datatype. The final `else` of `invoke_agent` cannot be reached either, because the provider is parsed into a closed datatype first.
- **Agent truthiness.** `if not agent` only rejects a missing agent: an agent definition object is always truthy.
- **SDK attributes.** Attributes read with `getattr` from reply objects are optional fields of the model. An absent `arguments` defaults to the string "{}"; an absent `input` defaults to {}. Attributes of unexpected Python types (for example a non-string `type`) are not modelled.
- **String formatting.** `QuotedList` renders Python's list repr for lists of strings without quotes or backslashes. That covers the constant lists used in the error messages.
- **The tool registry in the loop.** The loop reads the registry from `Env`. `InvokeAgent.Invoke` fixes it to `ToolRegistry.Registry`, the registry the running system uses.
- **Other code.** The durable-workflow plumbing, the worker, the HTTP front door and file upload are not part of this model: `temporal/agent.py`, `temporal/worker.py`, `main.py` and `utils.py`.
- **Arrays.** `OpenAIInvocation.InvokeOpenAILoop` models `loop_input` as an immutable sequence that the method reassigns. Since the caller's list is a separate value, "not mutated" is stated as the input list being a prefix of the final conversation.
