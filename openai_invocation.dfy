/** One call to the provider's Responses endpoint with its reply parsed into
    function calls and tool uses, and the bounded loop that feeds tool results
    back to the model until it answers without calls. The provider, the tools'
    own code, the API-key lookup and the JSON codec are supplied as `Env`. */
module OpenAIInvocation {
  import opened Common
  import opened Json
  import opened ToolBase
  import opened OpenAIToolConverter
  import ToolRegistry

  // ---------------------------------------------------------------------------
  // Conversation items, requests and replies

  /** A part of the user message's content. */
  datatype InputPart = InputText(text: string) | InputFile(fileUrl: string)

  /** A content part of a reply item, with the attributes the parser reads.
      `None` stands for an attribute that is absent or None; `input` is `None`
      only when the attribute is absent (a present None is `Some(Null)`). */
  datatype ContentPart = ContentPart(kind: Option<string>, id: Option<string>, name: Option<string>, input: Option<Json>)

  /** An item of the reply's `output` list. `arguments` is `None` only when the
      attribute is absent; `content` is `None` when absent or None. */
  datatype OutputItem = OutputItem(
    kind: Option<string>, name: Option<string>, arguments: Option<Json>,
    callId: Option<string>, content: Option<seq<ContentPart>>)

  /** An element of the conversation list sent to the provider. */
  datatype Item =
    | SystemMessage(systemContent: string)
    | UserMessage(userContent: seq<InputPart>)
    | ModelOutput(output: OutputItem)
    | FunctionCallOutput(callId: Option<string>, callOutput: string)
    | ToolResult(toolUseId: Option<string>, resultContent: string)

  /** The keyword arguments of the provider call. */
  datatype Request = Request(model: string, input: seq<Item>, tools: Option<seq<OpenAIFunction>>, toolChoice: Option<string>)

  /** The provider's reply object: its `output` list (`None` when absent or None)
      and its convenience `output_text`. */
  datatype Response = Response(output: Option<seq<OutputItem>>, outputText: Option<string>)

  datatype FunctionCall = FunctionCall(name: Option<string>, arguments: Json, callId: Option<string>)

  datatype ToolUse = ToolUse(id: Option<string>, name: Option<string>, input: Json)

  /** The dict `invoke_openai` returns. */
  datatype TurnResult = TurnResult(
    outputItems: seq<OutputItem>, functionCalls: seq<FunctionCall>, toolUses: seq<ToolUse>, outputText: Option<string>)

  /** What calling a tool instance does: return a string, or raise with a message. */
  datatype ToolOutcome = Returned(text: string) | Raised(message: string)

  /** The loop's environment: whether OPENAI_API_KEY is set and non-empty, the
      provider, the tool registry `get_tool` consults (`ToolRegistry.Registry` in
      the running system), the tools' own `__call__` on keyword arguments, the
      message of the TypeError that `**` raises on arguments that are not an
      object, the JSON codec, and `json.dumps` of a whole turn result, which
      fails (TypeError) when the reply objects are not serialisable. */
  datatype Env = Env(
    apiKeySet: bool,
    provider: Request -> Response,
    registry: map<string, BaseTool>,
    runTool: (BaseTool, Json) -> ToolOutcome,
    notMapping: Json -> string,
    codec: Codec,
    dumpsTurn: TurnResult -> Result<string, string>)

  const MissingApiKey: Error := ValueError("OPENAI_API_KEY environment variable is required")

  const MaxIterationsMessage: string := "Reached max tool iterations without final answer."

  /** The default iteration cap of the loop. */
  const DefaultMaxIterations: int := 5

  // ---------------------------------------------------------------------------
  // A single provider call

  /** The request: `tools` and `tool_choice = "auto"` are sent only for a
      non-empty tool list. */
  function BuildRequest(input: seq<Item>, tools: Option<seq<OpenAIFunction>>, model: string): (req: Request)
    ensures req.model == model && req.input == input
    ensures req.tools.Some? <==> tools.Some? && tools.value != []
    ensures req.tools.Some? ==> req.tools == tools
    ensures req.toolChoice == (if req.tools.Some? then Some("auto") else None)
  {
    if tools.Some? && tools.value != [] then Request(model, input, tools, Some("auto"))
    else Request(model, input, None, None)
  }

  function ItemsOf(resp: Response): seq<OutputItem>
  {
    if resp.output.Some? then resp.output.value else []
  }

  function PartsOf(item: OutputItem): seq<ContentPart>
  {
    if item.content.Some? then item.content.value else []
  }

  predicate IsFunctionCallItem(item: OutputItem)
  {
    item.kind == Some("function_call")
  }

  predicate IsToolUsePart(part: ContentPart)
  {
    part.kind == Some("tool_use")
  }

  /** The record for a function-call item; absent `arguments` default to "{}". */
  function AsFunctionCall(item: OutputItem): FunctionCall
  {
    FunctionCall(item.name, if item.arguments.Some? then item.arguments.value else Str("{}"), item.callId)
  }

  /** The record for a tool-use part; an absent `input` defaults to {}. */
  function AsToolUse(part: ContentPart): ToolUse
  {
    ToolUse(part.id, part.name, if part.input.Some? then part.input.value else EmptyObject)
  }

  /** The function calls of a reply: one per function-call item, in output order. */
  function FunctionCallsOf(items: seq<OutputItem>): seq<FunctionCall>
  {
    if items == [] then []
    else
      var last := items[|items| - 1];
      FunctionCallsOf(items[..|items| - 1]) + if IsFunctionCallItem(last) then [AsFunctionCall(last)] else []
  }

  function ToolUsesInParts(parts: seq<ContentPart>): seq<ToolUse>
  {
    if parts == [] then []
    else
      var last := parts[|parts| - 1];
      ToolUsesInParts(parts[..|parts| - 1]) + if IsToolUsePart(last) then [AsToolUse(last)] else []
  }

  /** The tool uses of a reply: every tool-use part of every item, in order. */
  function ToolUsesOf(items: seq<OutputItem>): seq<ToolUse>
  {
    if items == [] then []
    else ToolUsesOf(items[..|items| - 1]) + ToolUsesInParts(PartsOf(items[|items| - 1]))
  }

  function ParseResponse(resp: Response): TurnResult
  {
    var items := ItemsOf(resp);
    TurnResult(items, FunctionCallsOf(items), ToolUsesOf(items), resp.outputText)
  }

  /** The parsed reply of the provider to one request. */
  function Turn(input: seq<Item>, tools: Option<seq<OpenAIFunction>>, model: string, fx: Env): TurnResult
  {
    ParseResponse(fx.provider(BuildRequest(input, tools, model)))
  }

  /** The parsing loops of `invoke_openai`. */
  method ExtractCalls(outputItems: seq<OutputItem>) returns (functionCalls: seq<FunctionCall>, toolUses: seq<ToolUse>)
    ensures functionCalls == FunctionCallsOf(outputItems)
    ensures toolUses == ToolUsesOf(outputItems)
  {
    functionCalls, toolUses := [], [];
    for i := 0 to |outputItems|
      invariant functionCalls == FunctionCallsOf(outputItems[..i])
      invariant toolUses == ToolUsesOf(outputItems[..i])
    {
      var item := outputItems[i];
      assert outputItems[..i + 1][..i] == outputItems[..i];
      if item.kind == Some("function_call") {
        functionCalls := functionCalls + [AsFunctionCall(item)];
      }
      var contents := PartsOf(item);
      ghost var before := toolUses;
      for j := 0 to |contents|
        invariant toolUses == before + ToolUsesInParts(contents[..j])
      {
        assert contents[..j + 1][..j] == contents[..j];
        if contents[j].kind == Some("tool_use") {
          toolUses := toolUses + [AsToolUse(contents[j])];
        }
      }
      assert contents[..|contents|] == contents;
    }
    assert outputItems[..|outputItems|] == outputItems;
  }

  /** `invoke_openai`: fails without an API key, otherwise calls the provider once
      and returns its parsed reply. */
  method InvokeOpenAI(input: seq<Item>, tools: Option<seq<OpenAIFunction>>, model: string, fx: Env)
    returns (r: Result<TurnResult, Error>)
    ensures !fx.apiKeySet ==> r == Failure(MissingApiKey)
    ensures fx.apiKeySet ==> r == Success(Turn(input, tools, model, fx))
  {
    if !fx.apiKeySet {
      return Failure(MissingApiKey);
    }
    var request := BuildRequest(input, tools, model);
    var response := fx.provider(request);
    var outputItems := ItemsOf(response);
    var functionCalls, toolUses := ExtractCalls(outputItems);
    r := Success(TurnResult(outputItems, functionCalls, toolUses, response.outputText));
  }

  // ---------------------------------------------------------------------------
  // Executing one call

  /** The arguments a tool is called with: a string is decoded (undecodable text
      gives {}); any other value is used when truthy, and {} otherwise. */
  function ParsedArgs(arguments: Json, codec: Codec): Json
  {
    if arguments.Str? then
      match codec.loads(arguments.s)
      case Success(j) => j
      case Failure(_) => EmptyObject
    else if Truthy(arguments) then arguments
    else EmptyObject
  }

  /** The payload recorded when the tool raised or its output did not decode. */
  function ToolFailure(message: string, parsedArgs: Json): Json
  {
    Obj([("error", Str("Tool execution failed: " + message)), ("input", parsedArgs)])
  }

  /** The payload recorded for a call whose name is missing or unknown. */
  function Placeholder(fc: FunctionCall, codec: Codec): Json
  {
    Obj([("result", Str("Function '" + FormatName(fc.name) + "' called with args "
                        + FormatValue(codec, fc.arguments) + ". Implementation needed."))])
  }

  /** The registered tool a call names, if its name is a non-empty registered one. */
  function ToolFor(fc: FunctionCall, fx: Env): Option<BaseTool>
  {
    if fc.name.Some? && fc.name.value != "" then ToolRegistry.Lookup(fx.registry, fc.name.value) else None
  }

  /** Calling a tool with `**` over the parsed arguments: only an object expands
      into keyword arguments; anything else raises TypeError before the tool runs. */
  function CallWithKeywords(tool: BaseTool, args: Json, fx: Env): ToolOutcome
  {
    if args.Obj? then fx.runTool(tool, args) else Raised(fx.notMapping(args))
  }

  /** The result payload of one function call. */
  function CallPayload(fc: FunctionCall, fx: Env): Json
  {
    var parsed := ParsedArgs(fc.arguments, fx.codec);
    match ToolFor(fc, fx)
    case None => Placeholder(fc, fx.codec)
    case Some(tool) =>
      match CallWithKeywords(tool, parsed, fx)
      case Raised(message) => ToolFailure(message, parsed)
      case Returned(text) =>
        match fx.codec.loads(text)
        case Success(j) => j
        case Failure(message) => ToolFailure(message, parsed)
  }

  /** The body of the per-call step of the loop, with its `executed` flag. */
  method ExecuteFunctionCall(fc: FunctionCall, fx: Env) returns (payload: Json)
    ensures payload == CallPayload(fc, fx)
  {
    var parsedArgs := ParsedArgs(fc.arguments, fx.codec);
    var executed := false;
    if fc.name.Some? && fc.name.value != "" {
      var toolImpl := ToolRegistry.Lookup(fx.registry, fc.name.value);
      if toolImpl.Some? {
        var outcome := if parsedArgs.Obj? then fx.runTool(toolImpl.value, parsedArgs) else Raised(fx.notMapping(parsedArgs));
        if outcome.Raised? {
          payload := ToolFailure(outcome.message, parsedArgs);
        } else {
          var decoded := fx.codec.loads(outcome.text);
          if decoded.Success? {
            payload := decoded.value;
          } else {
            payload := ToolFailure(decoded.error, parsedArgs);
          }
        }
        executed := true;
      }
    }
    if !executed {
      payload := Placeholder(fc, fx.codec);
    }
  }

  /** No tool problem escapes as a failure: undecodable arguments are replaced by
      {}, a missing or unknown name gets the placeholder, and a raising tool,
      arguments that are not an object, or undecodable tool output get the error
      payload with the arguments used. */
  lemma ToolProblemsBecomePayloads(fc: FunctionCall, fx: Env)
    ensures fc.arguments.Str? && fx.codec.loads(fc.arguments.s).Failure? ==> ParsedArgs(fc.arguments, fx.codec) == EmptyObject
    ensures (fc.name.None? || fc.name == Some("") || (fc.name.Some? && fc.name.value !in fx.registry))
              ==> CallPayload(fc, fx) == Placeholder(fc, fx.codec)
    ensures ToolFor(fc, fx).Some? ==> fc.name.value in fx.registry && ToolFor(fc, fx).value == fx.registry[fc.name.value]
    ensures ToolFor(fc, fx).Some? && !ParsedArgs(fc.arguments, fx.codec).Obj? ==>
              CallPayload(fc, fx) == ToolFailure(fx.notMapping(ParsedArgs(fc.arguments, fx.codec)), ParsedArgs(fc.arguments, fx.codec))
    ensures ToolFor(fc, fx).Some? && ParsedArgs(fc.arguments, fx.codec).Obj? &&
            fx.runTool(ToolFor(fc, fx).value, ParsedArgs(fc.arguments, fx.codec)).Raised? ==>
              CallPayload(fc, fx) == ToolFailure(fx.runTool(ToolFor(fc, fx).value, ParsedArgs(fc.arguments, fx.codec)).message,
                                                 ParsedArgs(fc.arguments, fx.codec))
    ensures ToolFor(fc, fx).Some? && ParsedArgs(fc.arguments, fx.codec).Obj? &&
            fx.runTool(ToolFor(fc, fx).value, ParsedArgs(fc.arguments, fx.codec)).Returned? ==>
              var text := fx.runTool(ToolFor(fc, fx).value, ParsedArgs(fc.arguments, fx.codec)).text;
              CallPayload(fc, fx) == (match fx.codec.loads(text)
                                      case Success(j) => j
                                      case Failure(m) => ToolFailure(m, ParsedArgs(fc.arguments, fx.codec)))
  {
  }

  // ---------------------------------------------------------------------------
  // What a turn appends

  /** The output items as conversation items. */
  function Outputs(items: seq<OutputItem>): (r: seq<Item>)
    ensures |r| == |items| && forall i :: 0 <= i < |items| ==> r[i] == ModelOutput(items[i])
  {
    seq(|items|, i requires 0 <= i < |items| => ModelOutput(items[i]))
  }

  /** One `function_call_output` per call, in call order. */
  function FunctionCallOutputs(fcs: seq<FunctionCall>, fx: Env): (r: seq<Item>)
    ensures |r| == |fcs|
  {
    if fcs == [] then []
    else
      var last := fcs[|fcs| - 1];
      FunctionCallOutputs(fcs[..|fcs| - 1], fx) + [FunctionCallOutput(last.callId, fx.codec.dumps(CallPayload(last, fx)))]
  }

  /** The placeholder payload recorded for a tool use. */
  function ToolUsePayload(tu: ToolUse, codec: Codec): Json
  {
    Obj([("result", Str("Tool '" + FormatName(tu.name) + "' called with args "
                        + FormatValue(codec, tu.input) + ". Implementation needed."))])
  }

  /** One `tool_result` per tool use, in order. */
  function ToolResults(tus: seq<ToolUse>, codec: Codec): (r: seq<Item>)
    ensures |r| == |tus|
  {
    if tus == [] then []
    else
      var last := tus[|tus| - 1];
      ToolResults(tus[..|tus| - 1], codec) + [ToolResult(last.id, codec.dumps(ToolUsePayload(last, codec)))]
  }

  predicate HasCalls(reply: TurnResult)
  {
    reply.functionCalls != [] || reply.toolUses != []
  }

  /** The conversation after a turn with calls. */
  function NextInput(conv: seq<Item>, reply: TurnResult, fx: Env): seq<Item>
  {
    conv + Outputs(reply.outputItems) + FunctionCallOutputs(reply.functionCalls, fx) + ToolResults(reply.toolUses, fx.codec)
  }

  /** The characters Python's `str.strip()` removes. */
  predicate IsPyWhitespace(c: char)
  {
    var n := c as int;
    (0x09 <= n <= 0x0D) || (0x1C <= n <= 0x20) || n == 0x85 || n == 0xA0 || n == 0x1680
    || (0x2000 <= n <= 0x200A) || n == 0x2028 || n == 0x2029 || n == 0x202F || n == 0x205F || n == 0x3000
  }

  /** `not s.strip()`. */
  predicate IsBlank(s: string)
  {
    forall i :: 0 <= i < |s| ==> IsPyWhitespace(s[i])
  }

  /** The answer of a reply without calls: its text when that has non-blank
      content, returned unchanged; otherwise the JSON form of the whole turn. */
  function FinalAnswer(reply: TurnResult, fx: Env): Result<string, Error>
  {
    if reply.outputText.Some? && !IsBlank(reply.outputText.value) then Success(reply.outputText.value)
    else
      match fx.dumpsTurn(reply)
      case Success(s) => Success(s)
      case Failure(m) => Failure(TypeError(m))
  }

  // ---------------------------------------------------------------------------
  // The loop

  /** The outcome of the loop: its answer, the final conversation, and the
      replies of the model calls it made, in order. */
  datatype LoopOutcome = LoopOutcome(answer: Result<string, Error>, conversation: seq<Item>, replies: seq<TurnResult>)

  /** The model as the loop sees it: the parsed reply to each conversation. */
  function TurnOf(tools: Option<seq<OpenAIFunction>>, model: string, fx: Env): seq<Item> -> TurnResult
  {
    c => Turn(c, tools, model, fx)
  }

  /** The loop with `fuel` model calls left, against the model `turn`. */
  function Run(conv: seq<Item>, turn: seq<Item> -> TurnResult, fuel: nat, fx: Env): LoopOutcome
    decreases fuel
  {
    if fuel == 0 then LoopOutcome(Success(MaxIterationsMessage), conv, [])
    else
      var reply := turn(conv);
      if !HasCalls(reply) then LoopOutcome(FinalAnswer(reply, fx), conv + Outputs(reply.outputItems), [reply])
      else
        var rest := Run(NextInput(conv, reply, fx), turn, fuel - 1, fx);
        LoopOutcome(rest.answer, rest.conversation, [reply] + rest.replies)
  }

  /** The whole of `invoke_openai_loop`: the API-key check, then `max_iterations`
      rounds (none when it is not positive). */
  function LoopSpec(input: seq<Item>, tools: Option<seq<OpenAIFunction>>, model: string, maxIterations: int, fx: Env): LoopOutcome
  {
    if !fx.apiKeySet then LoopOutcome(Failure(MissingApiKey), input, [])
    else Run(input, TurnOf(tools, model, fx), if maxIterations < 0 then 0 else maxIterations, fx)
  }

  /** Step 3 of a round: one `function_call_output` per call, appended in order. */
  method AppendFunctionCallOutputs(loopInput: seq<Item>, functionCalls: seq<FunctionCall>, fx: Env)
    returns (extended: seq<Item>)
    ensures extended == loopInput + FunctionCallOutputs(functionCalls, fx)
  {
    extended := loopInput;
    for k := 0 to |functionCalls|
      invariant extended == loopInput + FunctionCallOutputs(functionCalls[..k], fx)
    {
      var fc := functionCalls[k];
      var payload := ExecuteFunctionCall(fc, fx);
      assert functionCalls[..k + 1][..k] == functionCalls[..k];
      extended := extended + [FunctionCallOutput(fc.callId, fx.codec.dumps(payload))];
    }
    assert functionCalls[..|functionCalls|] == functionCalls;
  }

  /** Step 4 of a round: one `tool_result` per tool use, appended in order. */
  method AppendToolResults(loopInput: seq<Item>, toolUses: seq<ToolUse>, codec: Codec)
    returns (extended: seq<Item>)
    ensures extended == loopInput + ToolResults(toolUses, codec)
  {
    extended := loopInput;
    for k := 0 to |toolUses|
      invariant extended == loopInput + ToolResults(toolUses[..k], codec)
    {
      var tu := toolUses[k];
      var toolOutput := ToolUsePayload(tu, codec);
      assert toolUses[..k + 1][..k] == toolUses[..k];
      extended := extended + [ToolResult(tu.id, codec.dumps(toolOutput))];
    }
    assert toolUses[..|toolUses|] == toolUses;
  }

  /** Step 5 of a round: the answer of a reply without calls. */
  method ReturnFinalAnswer(result: TurnResult, fx: Env) returns (r: Result<string, Error>)
    ensures r == FinalAnswer(result, fx)
  {
    var outputText := result.outputText;
    if outputText.Some? && !IsBlank(outputText.value) {
      r := Success(outputText.value);
    } else {
      var dumped := fx.dumpsTurn(result);
      r := if dumped.Success? then Success(dumped.value) else Failure(TypeError(dumped.error));
    }
  }

  /** A round whose reply has no calls ends the loop with that reply's answer. */
  lemma RunStops(spec: LoopOutcome, done: seq<TurnResult>, conv: seq<Item>, turn: seq<Item> -> TurnResult, fuel: nat, fx: Env)
    requires fuel > 0 && !HasCalls(turn(conv))
    requires var o := Run(conv, turn, fuel, fx); spec == LoopOutcome(o.answer, o.conversation, done + o.replies)
    ensures spec == LoopOutcome(FinalAnswer(turn(conv), fx), conv + Outputs(turn(conv).outputItems), done + [turn(conv)])
  {
  }

  /** A round whose reply has calls leaves the rest of the loop to run on the
      extended conversation. */
  lemma RunContinues(spec: LoopOutcome, done: seq<TurnResult>, conv: seq<Item>, reply: TurnResult, next: seq<Item>,
                     turn: seq<Item> -> TurnResult, fuel: nat, rest: nat, fx: Env)
    requires fuel == rest + 1 && reply == turn(conv) && HasCalls(reply) && next == NextInput(conv, reply, fx)
    requires var o := Run(conv, turn, fuel, fx); spec == LoopOutcome(o.answer, o.conversation, done + o.replies)
    ensures var o := Run(next, turn, rest, fx); spec == LoopOutcome(o.answer, o.conversation, (done + [reply]) + o.replies)
  {
    var o := Run(next, turn, rest, fx);
    assert done + ([reply] + o.replies) == (done + [reply]) + o.replies;
  }

  /** `invoke_openai_loop`. The ghost outputs are the final local conversation and
      the replies of the model calls made. */
  method InvokeOpenAILoop(inputList: seq<Item>, tools: Option<seq<OpenAIFunction>>, model: string, maxIterations: int, fx: Env)
    returns (r: Result<string, Error>, ghost conversation: seq<Item>, ghost replies: seq<TurnResult>)
    ensures r == LoopSpec(inputList, tools, model, maxIterations, fx).answer
    ensures LoopOutcome(r, conversation, replies) == LoopSpec(inputList, tools, model, maxIterations, fx)
    ensures fx.apiKeySet ==> |replies| <= maxIterations || (maxIterations <= 0 && replies == [])
    ensures |conversation| >= |inputList| && conversation[..|inputList|] == inputList
  {
    if !fx.apiKeySet {
      return Failure(MissingApiKey), inputList, [];
    }
    ghost var fuel: nat := if maxIterations < 0 then 0 else maxIterations;
    ghost var turn := TurnOf(tools, model, fx);
    ghost var spec := LoopSpec(inputList, tools, model, maxIterations, fx);
    var loopInput := inputList;
    replies := [];
    var i := 0;
    ghost var left := fuel;
    ghost var whole := Run(inputList, turn, fuel, fx);
    assert spec == whole;
    assert replies + whole.replies == whole.replies;
    while i < maxIterations
      invariant 0 <= i <= fuel && (maxIterations < 0 ==> i == 0)
      invariant |replies| == i && left == fuel - i
      invariant var o := Run(loopInput, turn, left, fx);
                spec == LoopOutcome(o.answer, o.conversation, replies + o.replies)
    {
      var step := InvokeOpenAI(loopInput, tools, model, fx);
      var result := step.value;
      ghost var before := loopInput;
      ghost var done := replies;
      assert result == turn(before);
      replies := replies + [result];
      var outputItems := result.outputItems;
      if outputItems != [] {
        loopInput := loopInput + Outputs(outputItems);
      }
      assert loopInput == before + Outputs(outputItems);
      var functionCalls := result.functionCalls;
      var toolUses := result.toolUses;
      if functionCalls == [] && toolUses == [] {
        r := ReturnFinalAnswer(result, fx);
        conversation := loopInput;
        RunStops(spec, done, before, turn, left, fx);
        LoopSpecTrace(inputList, tools, model, maxIterations, fx);
        return;
      }
      loopInput := AppendFunctionCallOutputs(loopInput, functionCalls, fx);
      loopInput := AppendToolResults(loopInput, toolUses, fx.codec);
      assert loopInput == NextInput(before, result, fx);
      ghost var prev := left;
      i, left := i + 1, left - 1;
      RunContinues(spec, done, before, result, loopInput, turn, prev, left, fx);
    }
    r := Success(MaxIterationsMessage);
    conversation := loopInput;
    LoopSpecTrace(inputList, tools, model, maxIterations, fx);
  }

  // ---------------------------------------------------------------------------
  // Properties of the loop

  function Last<T>(s: seq<T>): T
    requires s != []
  {
    s[|s| - 1]
  }

  /** The conversation after a turn starts with the conversation before it. */
  lemma NextInputExtends(conv: seq<Item>, reply: TurnResult, fx: Env)
    ensures var next := NextInput(conv, reply, fx); |next| >= |conv| && next[..|conv|] == conv
  {
  }

  /** The loop makes at most `fuel` model calls, and at least one when it may make
      any; every reply but the last one asked for calls; and the loop stops
      before its cap only on a reply without calls. */
  lemma {:induction false} RunReplies(conv: seq<Item>, turn: seq<Item> -> TurnResult, fuel: nat, fx: Env)
    decreases fuel
    ensures var o := Run(conv, turn, fuel, fx);
      && |o.replies| <= fuel
      && (fuel > 0 ==> o.replies != [])
      && (forall k :: 0 <= k < |o.replies| - 1 ==> HasCalls(o.replies[k]))
      && (|o.replies| < fuel ==> !HasCalls(Last(o.replies)))
  {
    if fuel > 0 {
      var reply := turn(conv);
      if HasCalls(reply) {
        var next := NextInput(conv, reply, fx);
        RunReplies(next, turn, fuel - 1, fx);
        var rest := Run(next, turn, fuel - 1, fx);
        var replies := [reply] + rest.replies;
        assert Run(conv, turn, fuel, fx).replies == replies;
        forall k | 0 <= k < |replies| - 1
          ensures HasCalls(replies[k])
        {
          if k > 0 {
            assert replies[k] == rest.replies[k - 1];
          }
        }
        if rest.replies != [] {
          assert Last(replies) == Last(rest.replies);
        }
      }
    }
  }

  /** The loop answers with the final answer of its last reply when that reply
      has no calls, and with the exhaustion message otherwise. */
  lemma {:induction false} RunAnswer(conv: seq<Item>, turn: seq<Item> -> TurnResult, fuel: nat, fx: Env)
    decreases fuel
    ensures var o := Run(conv, turn, fuel, fx);
      o.answer == (if o.replies != [] && !HasCalls(Last(o.replies)) then FinalAnswer(Last(o.replies), fx)
                   else Success(MaxIterationsMessage))
  {
    if fuel > 0 {
      var reply := turn(conv);
      if HasCalls(reply) {
        var next := NextInput(conv, reply, fx);
        RunAnswer(next, turn, fuel - 1, fx);
        var rest := Run(next, turn, fuel - 1, fx);
        assert Run(conv, turn, fuel, fx) == LoopOutcome(rest.answer, rest.conversation, [reply] + rest.replies);
        if rest.replies != [] {
          assert Last([reply] + rest.replies) == Last(rest.replies);
        }
      }
    }
  }

  /** The loop only appends to the conversation it starts from. */
  lemma {:induction false} RunConversation(conv: seq<Item>, turn: seq<Item> -> TurnResult, fuel: nat, fx: Env)
    decreases fuel
    ensures var o := Run(conv, turn, fuel, fx); |o.conversation| >= |conv| && o.conversation[..|conv|] == conv
  {
    if fuel > 0 {
      var reply := turn(conv);
      if HasCalls(reply) {
        var next := NextInput(conv, reply, fx);
        NextInputExtends(conv, reply, fx);
        RunConversation(next, turn, fuel - 1, fx);
        var rest := Run(next, turn, fuel - 1, fx);
        assert rest.conversation[..|conv|] == rest.conversation[..|next|][..|conv|];
      }
    }
  }

  /** The trace facts for the whole loop, key check included. */
  lemma LoopSpecTrace(input: seq<Item>, tools: Option<seq<OpenAIFunction>>, model: string, maxIterations: int, fx: Env)
    ensures var o := LoopSpec(input, tools, model, maxIterations, fx);
      && (fx.apiKeySet ==> |o.replies| <= maxIterations || (maxIterations <= 0 && o.replies == []))
      && |o.conversation| >= |input| && o.conversation[..|input|] == input
    ensures !fx.apiKeySet ==> LoopSpec(input, tools, model, maxIterations, fx) == LoopOutcome(Failure(MissingApiKey), input, [])
  {
    if fx.apiKeySet {
      var turn, fuel := TurnOf(tools, model, fx), if maxIterations < 0 then 0 else maxIterations;
      RunReplies(input, turn, fuel, fx);
      RunConversation(input, turn, fuel, fx);
    }
  }

  /** When every reply asks for calls, the loop makes exactly `fuel` model calls
      and returns the exhaustion message. */
  lemma {:induction false} RunExhaustion(conv: seq<Item>, turn: seq<Item> -> TurnResult, fuel: nat, fx: Env)
    requires forall c :: HasCalls(turn(c))
    decreases fuel
    ensures Run(conv, turn, fuel, fx).answer == Success(MaxIterationsMessage)
    ensures |Run(conv, turn, fuel, fx).replies| == fuel
  {
    if fuel > 0 {
      var reply := turn(conv);
      RunExhaustion(NextInput(conv, reply, fx), turn, fuel - 1, fx);
    }
  }

  /** A non-positive cap means no model call and the exhaustion message. */
  lemma NoIterationsNoCalls(input: seq<Item>, tools: Option<seq<OpenAIFunction>>, model: string, maxIterations: int, fx: Env)
    requires fx.apiKeySet && maxIterations <= 0
    ensures LoopSpec(input, tools, model, maxIterations, fx) == LoopOutcome(Success(MaxIterationsMessage), input, [])
  {
  }

  /** A reply with calls never ends the loop while calls remain, whatever the
      tools do: the next model call sees the conversation extended by that turn. */
  lemma ToolFailuresDoNotStopTheLoop(conv: seq<Item>, turn: seq<Item> -> TurnResult, fuel: nat, fx: Env)
    requires fuel >= 2 && HasCalls(turn(conv))
    ensures var o := Run(conv, turn, fuel, fx);
      |o.replies| >= 2 && o.replies[1] == turn(NextInput(conv, o.replies[0], fx))
  {
    var reply := turn(conv);
    RunReplies(NextInput(conv, reply, fx), turn, fuel - 1, fx);
  }

  /** One output per function call, carrying that call's id, in call order. */
  lemma {:induction false} FunctionCallOutputsMatch(fcs: seq<FunctionCall>, fx: Env)
    ensures |FunctionCallOutputs(fcs, fx)| == |fcs|
    ensures forall k :: 0 <= k < |fcs| ==>
      FunctionCallOutputs(fcs, fx)[k] == FunctionCallOutput(fcs[k].callId, fx.codec.dumps(CallPayload(fcs[k], fx)))
  {
    if fcs != [] {
      FunctionCallOutputsMatch(fcs[..|fcs| - 1], fx);
    }
  }

  /** One result per tool use, carrying that use's id, in order. */
  lemma {:induction false} ToolResultsMatch(tus: seq<ToolUse>, codec: Codec)
    ensures |ToolResults(tus, codec)| == |tus|
    ensures forall k :: 0 <= k < |tus| ==>
      ToolResults(tus, codec)[k] == ToolResult(tus[k].id, codec.dumps(ToolUsePayload(tus[k], codec)))
  {
    if tus != [] {
      ToolResultsMatch(tus[..|tus| - 1], codec);
    }
  }

  /** The call ids of the outputs, position by position. */
  lemma {:induction false} FunctionCallOutputIds(fcs: seq<FunctionCall>, fx: Env)
    ensures forall k :: 0 <= k < |fcs| ==>
      FunctionCallOutputs(fcs, fx)[k].FunctionCallOutput? && FunctionCallOutputs(fcs, fx)[k].callId == fcs[k].callId
  {
    if fcs != [] {
      FunctionCallOutputIds(fcs[..|fcs| - 1], fx);
    }
  }

  /** The tool-use ids of the results, position by position. */
  lemma {:induction false} ToolResultIds(tus: seq<ToolUse>, codec: Codec)
    ensures forall k :: 0 <= k < |tus| ==>
      ToolResults(tus, codec)[k].ToolResult? && ToolResults(tus, codec)[k].toolUseId == tus[k].id
  {
    if tus != [] {
      ToolResultIds(tus[..|tus| - 1], codec);
    }
  }

  /** A turn with calls appends, after the old conversation, the reply's items,
      then one output per function call with that call's id, then one result per
      tool use with that use's id, and nothing else. */
  lemma TurnAppends(conv: seq<Item>, reply: TurnResult, fx: Env)
    ensures |NextInput(conv, reply, fx)| == |conv| + |reply.outputItems| + |reply.functionCalls| + |reply.toolUses|
    ensures NextInput(conv, reply, fx)[..|conv|] == conv
    ensures forall i :: 0 <= i < |reply.outputItems| ==>
      NextInput(conv, reply, fx)[|conv| + i] == ModelOutput(reply.outputItems[i])
    ensures forall k :: 0 <= k < |reply.functionCalls| ==>
      var item := NextInput(conv, reply, fx)[|conv| + |reply.outputItems| + k];
      item.FunctionCallOutput? && item.callId == reply.functionCalls[k].callId
    ensures forall k :: 0 <= k < |reply.toolUses| ==>
      var item := NextInput(conv, reply, fx)[|conv| + |reply.outputItems| + |reply.functionCalls| + k];
      item.ToolResult? && item.toolUseId == reply.toolUses[k].id
  {
    var o := Outputs(reply.outputItems);
    var f := FunctionCallOutputs(reply.functionCalls, fx);
    var t := ToolResults(reply.toolUses, fx.codec);
    var head := conv + o;
    var body := head + f;
    var next := body + t;
    assert next == NextInput(conv, reply, fx);
    assert next[..|conv|] == conv by {
      assert next[..|conv|] == head[..|conv|];
    }
    forall i | 0 <= i < |o| ensures next[|conv| + i] == o[i] {
      assert next[|conv| + i] == body[|conv| + i] == head[|conv| + i];
    }
    FunctionCallOutputIds(reply.functionCalls, fx);
    forall k | 0 <= k < |f|
      ensures var item := next[|conv| + |reply.outputItems| + k];
              item.FunctionCallOutput? && item.callId == reply.functionCalls[k].callId
    {
      assert next[|conv| + |reply.outputItems| + k] == body[|head| + k] == f[k];
    }
    ToolResultIds(reply.toolUses, fx.codec);
    forall k | 0 <= k < |t|
      ensures var item := next[|conv| + |reply.outputItems| + |reply.functionCalls| + k];
              item.ToolResult? && item.toolUseId == reply.toolUses[k].id
    {
      assert next[|conv| + |reply.outputItems| + |reply.functionCalls| + k] == t[k];
    }
  }

  // ---------------------------------------------------------------------------
  // Properties of reply parsing

  /** Parsing distributes over concatenation of the output list: calls keep the
      order of the items they come from. */
  lemma {:induction false} FunctionCallsOfConcat(a: seq<OutputItem>, b: seq<OutputItem>)
    ensures FunctionCallsOf(a + b) == FunctionCallsOf(a) + FunctionCallsOf(b)
  {
    if b == [] {
      assert a + b == a;
    } else {
      assert (a + b)[..|a + b| - 1] == a + b[..|b| - 1];
      FunctionCallsOfConcat(a, b[..|b| - 1]);
    }
  }

  /** The function calls are exactly the records of the function-call items;
      there are none exactly when no item is a function call. */
  lemma {:induction false} FunctionCallsOfMembers(items: seq<OutputItem>)
    ensures forall fc :: fc in FunctionCallsOf(items) <==>
      exists i :: 0 <= i < |items| && IsFunctionCallItem(items[i]) && fc == AsFunctionCall(items[i])
    ensures FunctionCallsOf(items) == [] <==> forall i :: 0 <= i < |items| ==> !IsFunctionCallItem(items[i])
    ensures |FunctionCallsOf(items)| <= |items|
  {
    if items != [] {
      var n := |items| - 1;
      FunctionCallsOfMembers(items[..n]);
      assert forall i :: 0 <= i < n ==> items[..n][i] == items[i];
    }
  }

  lemma {:induction false} ToolUsesOfConcat(a: seq<OutputItem>, b: seq<OutputItem>)
    ensures ToolUsesOf(a + b) == ToolUsesOf(a) + ToolUsesOf(b)
  {
    if b == [] {
      assert a + b == a;
    } else {
      assert (a + b)[..|a + b| - 1] == a + b[..|b| - 1];
      ToolUsesOfConcat(a, b[..|b| - 1]);
    }
  }

  lemma {:induction false} ToolUsesInPartsMembers(parts: seq<ContentPart>)
    ensures forall tu :: tu in ToolUsesInParts(parts) <==>
      exists j :: 0 <= j < |parts| && IsToolUsePart(parts[j]) && tu == AsToolUse(parts[j])
  {
    if parts != [] {
      var n := |parts| - 1;
      ToolUsesInPartsMembers(parts[..n]);
      assert forall j :: 0 <= j < n ==> parts[..n][j] == parts[j];
    }
  }

  /** The tool uses are exactly the records of the tool-use parts of all items. */
  lemma {:induction false} ToolUsesOfMembers(items: seq<OutputItem>)
    ensures forall tu :: tu in ToolUsesOf(items) <==>
      exists i, j :: 0 <= i < |items| && 0 <= j < |PartsOf(items[i])|
                     && IsToolUsePart(PartsOf(items[i])[j]) && tu == AsToolUse(PartsOf(items[i])[j])
  {
    if items != [] {
      var n := |items| - 1;
      ToolUsesOfMembers(items[..n]);
      ToolUsesInPartsMembers(PartsOf(items[n]));
      assert forall i :: 0 <= i < n ==> items[..n][i] == items[i];
    }
  }
}
