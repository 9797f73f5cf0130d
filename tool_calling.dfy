/**
 * The single-round tool-calling flow: one provider call that advertises the
 * weather tool, one `tool` message per requested call in request order, and
 * one final provider call without tools. The provider is an oracle.
 */
module ToolCalling {
  import opened Wrappers
  import opened Weather

  /** The two argument keys the flow reads from a tool call's arguments. */
  datatype ToolArgs = ToolArgs(location: Option<string>, unit: Option<string>)

  /** A tool call requested by the model: its id, the function name and the arguments. */
  datatype ToolCall = ToolCall(id: string, name: string, args: ToolArgs)

  /** The assistant message of a completion; `toolCalls` is `None` when the model asked for none. */
  datatype AssistantReply = AssistantReply(content: Option<string>, toolCalls: Option<seq<ToolCall>>)

  /** The messages of the transcript. */
  datatype Message =
    | UserMessage(content: string)
    | AssistantMessage(reply: AssistantReply)
    | ToolMessage(toolCallId: string, name: string, result: WeatherInfo)
  {
    function Role(): string
    {
      match this
      case UserMessage(_) => "user"
      case AssistantMessage(_) => "assistant"
      case ToolMessage(_, _, _) => "tool"
    }
  }

  /** One property of a tool's parameter schema. */
  datatype Parameter = Parameter(name: string, kind: string, description: Option<string>, choices: seq<string>)

  /** A function tool advertised to the provider. */
  datatype ToolDefinition = FunctionTool(name: string, description: string, properties: seq<Parameter>, required: seq<string>)

  const WeatherToolName: string := "get_current_weather"

  /** The names of a tool's declared parameters, in order. */
  function PropertyNames(d: ToolDefinition): seq<string>
  {
    seq(|d.properties|, i requires 0 <= i < |d.properties| => d.properties[i].name)
  }

  /** `get_weather_tool_definition`: the one advertised tool. */
  const WeatherToolDefinition: ToolDefinition := FunctionTool(
    WeatherToolName,
    "Get the current weather in a given location",
    [ Parameter("location", "string", Some("The city and state, e.g. San Francisco, CA"), []),
      Parameter("unit", "string", None, ["celsius", "fahrenheit"]) ],
    ["location"])

  /**
   * The advertised tool's name is the one the registry resolves, every
   * required parameter is declared, only `location` is required, and `unit`
   * is limited to celsius and fahrenheit.
   */
  lemma WeatherToolSchema()
    ensures WeatherToolDefinition.name == WeatherToolName
    ensures ToolRegistry.GetFunction(WeatherToolDefinition.name).Success?
    ensures PropertyNames(WeatherToolDefinition) == ["location", "unit"]
    ensures forall r :: r in WeatherToolDefinition.required ==> r in PropertyNames(WeatherToolDefinition)
    ensures WeatherToolDefinition.required == ["location"]
    ensures WeatherToolDefinition.properties[1].choices == ["celsius", "fahrenheit"]
  {
    assert PropertyNames(WeatherToolDefinition)[0] == "location";
  }

  const ModelName: string := "gpt-4o"

  /** A chat-completion request; `tools` is `None` when the keyword is not passed. */
  datatype Request = Request(model: string, messages: seq<Message>, tools: Option<seq<ToolDefinition>>)

  /** A chat-completion response, reduced to its first choice's message. */
  datatype Completion = Completion(message: AssistantReply)

  /** The exceptions that escape `process_query`. */
  datatype Error =
    | FunctionNotFound(name: string)  // ValueError raised by get_function
    | LocationIsNone                  // AttributeError: None has no `lower`

  /** The handlers the registry can return; only `_get_current_weather` exists. */
  datatype Handler = CurrentWeather

  /** A tool-call list of `None` counts as no calls. */
  function ToolCallsOf(reply: AssistantReply): seq<ToolCall>
  {
    match reply.toolCalls
    case None => []
    case Some(calls) => calls
  }

  /** `ToolRegistry`: the name-to-handler table and the weather handler. */
  class ToolRegistry {
    const weatherService: MockWeatherService

    static const Registry: map<string, Handler> := map[WeatherToolName := CurrentWeather]

    constructor (weatherService: MockWeatherService)
      ensures this.weatherService == weatherService
    {
      this.weatherService := weatherService;
    }

    /** `get_function`: only the weather tool's name resolves; any other raises. */
    static function GetFunction(name: string): (r: Result<Handler, Error>)
      ensures r.Success? <==> name == "get_current_weather"
      ensures r.Failure? ==> r.error == FunctionNotFound(name)
    {
      if name in Registry then Success(Registry[name]) else Failure(FunctionNotFound(name))
    }

    /** `_get_current_weather`: asks the weather service. */
    method GetCurrentWeather(location: string, unit: Option<string> := Some("fahrenheit")) returns (result: WeatherInfo)
      requires weatherService.Valid()
      modifies weatherService
      ensures weatherService.Valid()
      ensures (result, weatherService.weatherData) == GetWeatherOn(old(weatherService.weatherData), location, unit)
    {
      result := weatherService.GetWeather(location, unit);
    }
  }

  /** The provider behind `AIClient`: a fixed response function and the log of requests made. */
  class AIClient {
    const respond: Request -> Completion
    var requests: seq<Request>

    constructor (respond: Request -> Completion)
      ensures this.respond == respond && requests == []
    {
      this.respond := respond;
      requests := [];
    }

    method ChatCompletion(request: Request) returns (completion: Completion)
      modifies this
      ensures requests == old(requests) + [request]
      ensures completion == respond(request)
    {
      requests := requests + [request];
      completion := respond(request);
    }
  }

  /** The outcome of running a list of tool calls in order against a weather table. */
  datatype ToolRound =
    | Done(toolMessages: seq<Message>, weatherData: WeatherTable)
    | Raised(error: Error, weatherData: WeatherTable)

  /** A call the flow can run without raising. */
  predicate Runnable(call: ToolCall)
  {
    call.name == WeatherToolName && call.args.location.Some?
  }

  /** The exception a call that is not runnable raises: name lookup comes first. */
  function ErrorOf(call: ToolCall): Error
  {
    if call.name != WeatherToolName then FunctionNotFound(call.name) else LocationIsNone
  }

  /** One iteration of the tool loop: resolve, call the handler, build the tool message. */
  function ExecuteToolCall(data: WeatherTable, call: ToolCall): Result<(Message, WeatherTable), Error>
  {
    match ToolRegistry.GetFunction(call.name)
    case Failure(e) => Failure(e)
    case Success(CurrentWeather) =>
      match call.args.location
      case None => Failure(LocationIsNone)
      case Some(location) =>
        var (info, data') := GetWeatherOn(data, location, call.args.unit);
        Success((ToolMessage(call.id, call.name, info), data'))
  }

  /** The whole tool loop; a raising call stops it, with earlier calls' table updates kept. */
  function RunToolCalls(data: WeatherTable, calls: seq<ToolCall>): ToolRound
    decreases |calls|
  {
    if calls == [] then Done([], data)
    else
      match ExecuteToolCall(data, calls[0])
      case Failure(e) => Raised(e, data)
      case Success((msg, data')) =>
        match RunToolCalls(data', calls[1..])
        case Done(msgs, d) => Done([msg] + msgs, d)
        case Raised(e, d) => Raised(e, d)
  }

  /** The tool messages already built, in front of what the rest of the loop does. */
  function AfterMessages(built: seq<Message>, rest: ToolRound): ToolRound
  {
    match rest
    case Done(msgs, d) => Done(built + msgs, d)
    case Raised(_, _) => rest
  }

  /** Unfolds the tool loop at position `i`. */
  lemma RunToolCallsAt(data: WeatherTable, calls: seq<ToolCall>, i: nat)
    requires i < |calls|
    ensures var step := ExecuteToolCall(data, calls[i]);
      && (step.Failure? ==> RunToolCalls(data, calls[i..]) == Raised(step.error, data))
      && (step.Success? ==>
            RunToolCalls(data, calls[i..]) == AfterMessages([step.value.0], RunToolCalls(step.value.1, calls[i + 1..])))
  {
  }

  lemma AfterMessagesAppend(a: seq<Message>, b: seq<Message>, rest: ToolRound)
    ensures AfterMessages(a, AfterMessages(b, rest)) == AfterMessages(a + b, rest)
  {
  }

  /** The result of `process_query`, the requests it sends and the weather table it leaves. */
  datatype QueryRun = QueryRun(result: Result<Completion, Error>, requests: seq<Request>, weatherData: WeatherTable)

  function FirstRequest(query: string): Request
  {
    Request(ModelName, [UserMessage(query)], Some([WeatherToolDefinition]))
  }

  function ProcessQueryRun(respond: Request -> Completion, data: WeatherTable, query: string): QueryRun
  {
    var first := respond(FirstRequest(query)).message;
    match RunToolCalls(data, ToolCallsOf(first))
    case Raised(e, d) => QueryRun(Failure(e), [FirstRequest(query)], d)
    case Done(msgs, d) =>
      var second := Request(ModelName, [UserMessage(query), AssistantMessage(first)] + msgs, None);
      QueryRun(Success(respond(second)), [FirstRequest(query), second], d)
  }

  /** `FunctionCallingService`. */
  class FunctionCallingService {
    const aiClient: AIClient
    const toolRegistry: ToolRegistry

    constructor (aiClient: AIClient, toolRegistry: ToolRegistry)
      ensures this.aiClient == aiClient && this.toolRegistry == toolRegistry
    {
      this.aiClient := aiClient;
      this.toolRegistry := toolRegistry;
    }

    /** `process_query`; the second completion is returned as a value rather than as JSON text. */
    method ProcessQuery(userQuery: string) returns (r: Result<Completion, Error>)
      requires toolRegistry.weatherService.Valid()
      modifies aiClient, toolRegistry.weatherService
      ensures toolRegistry.weatherService.Valid()
      ensures var run := ProcessQueryRun(aiClient.respond, old(toolRegistry.weatherService.weatherData), userQuery);
        && r == run.result
        && aiClient.requests == old(aiClient.requests) + run.requests
        && toolRegistry.weatherService.weatherData == run.weatherData
    {
      ghost var data0 := toolRegistry.weatherService.weatherData;
      ghost var log0 := aiClient.requests;
      var messages := [UserMessage(userQuery)];
      var tools := [WeatherToolDefinition];
      var response := aiClient.ChatCompletion(Request(ModelName, messages, Some(tools)));
      var resMsg := response.message;
      assert resMsg == aiClient.respond(FirstRequest(userQuery)).message;
      messages := messages + [AssistantMessage(resMsg)];
      var calls := ToolCallsOf(resMsg);
      var i := 0;
      while i < |calls|
        invariant 0 <= i <= |calls|
        invariant |messages| >= 2
        invariant messages[..2] == [UserMessage(userQuery), AssistantMessage(resMsg)]
        invariant aiClient.requests == log0 + [FirstRequest(userQuery)]
        invariant toolRegistry.weatherService.Valid()
        invariant RunToolCalls(data0, calls) ==
                  AfterMessages(messages[2..], RunToolCalls(toolRegistry.weatherService.weatherData, calls[i..]))
      {
        var toolCall := calls[i];
        RunToolCallsAt(toolRegistry.weatherService.weatherData, calls, i);
        var func := ToolRegistry.GetFunction(toolCall.name);
        if func.Failure? {
          assert RunToolCalls(data0, calls) == Raised(func.error, toolRegistry.weatherService.weatherData);
          return Failure(func.error);
        }
        if toolCall.args.location.None? {
          assert RunToolCalls(data0, calls) == Raised(LocationIsNone, toolRegistry.weatherService.weatherData);
          return Failure(LocationIsNone);
        }
        var result := toolRegistry.GetCurrentWeather(toolCall.args.location.value, toolCall.args.unit);
        var toolMessage := ToolMessage(toolCall.id, toolCall.name, result);
        AfterMessagesAppend(messages[2..], [toolMessage], RunToolCalls(toolRegistry.weatherService.weatherData, calls[i + 1..]));
        assert (messages + [toolMessage])[2..] == messages[2..] + [toolMessage];
        messages := messages + [toolMessage];
        i := i + 1;
      }
      assert calls[i..] == [];
      assert messages[2..] + [] == messages[2..];
      assert RunToolCalls(data0, calls) == Done(messages[2..], toolRegistry.weatherService.weatherData);
      assert messages == [UserMessage(userQuery), AssistantMessage(resMsg)] + messages[2..];
      var secondRes := aiClient.ChatCompletion(Request(ModelName, messages, None));
      r := Success(secondRes);
    }
  }

  /** The table keeps its keys, and every entry its location and temperature; only units change. */
  ghost predicate SameEntries(data: WeatherTable, data': WeatherTable)
  {
    && data'.Keys == data.Keys
    && forall k :: k in data ==> data'[k].location == data[k].location && data'[k].temperature == data[k].temperature
  }

  /**
   * `m` is the `tool` message answering `call` against a table whose entries
   * are those of `data` up to their units: the call's id and function name,
   * and the weather service's answer for the call's `location` and `unit` as
   * given (a missing unit is passed as `None`).
   */
  ghost predicate AnswersCall(data: WeatherTable, call: ToolCall, m: Message)
  {
    && m.ToolMessage?
    && m.Role() == "tool"
    && m.toolCallId == call.id
    && m.name == call.name
    && call.args.location.Some?
    && var location := call.args.location.value;
       && (Lower(location) in data ==> m.result == data[Lower(location)].(unit := UnitKey(call.args.unit)))
       && (Lower(location) !in data ==> m.result == WeatherInfo(location, "unknown", NoUnitKey))
  }

  /**
   * The tool loop, when it completes, yields one `tool` message per call, in
   * call order, each answering its call: the stored entry of the call's
   * city with the call's unit, or the "unknown" entry. The table only ever
   * changes units.
   */
  lemma {:induction false} RunToolCallsShape(data: WeatherTable, calls: seq<ToolCall>)
    ensures var round := RunToolCalls(data, calls);
      && SameEntries(data, round.weatherData)
      && (round.Done? ==>
            && |round.toolMessages| == |calls|
            && forall i :: 0 <= i < |calls| ==> AnswersCall(data, calls[i], round.toolMessages[i]))
  {
    if calls != [] {
      match ExecuteToolCall(data, calls[0])
      case Failure(e) =>
      case Success((msg, data')) =>
        RunToolCallsShape(data', calls[1..]);
        var round := RunToolCalls(data', calls[1..]);
        assert AnswersCall(data, calls[0], msg);
        if round.Done? {
          var msgs := [msg] + round.toolMessages;
          forall i | 0 <= i < |calls|
            ensures AnswersCall(data, calls[i], msgs[i])
          {
            if i > 0 {
              assert msgs[i] == round.toolMessages[i - 1] && calls[i] == calls[1..][i - 1];
              assert AnswersCall(data', calls[i], msgs[i]);
            }
          }
        }
    }
  }

  /** The tool loop completes exactly when every requested call is runnable. */
  lemma {:induction false} RunToolCallsSucceedsIff(data: WeatherTable, calls: seq<ToolCall>)
    ensures RunToolCalls(data, calls).Done? <==> forall i :: 0 <= i < |calls| ==> Runnable(calls[i])
  {
    if calls != [] {
      match ExecuteToolCall(data, calls[0])
      case Failure(e) =>
      case Success((msg, data')) =>
        RunToolCallsSucceedsIff(data', calls[1..]);
        assert forall i :: 1 <= i < |calls| ==> calls[i] == calls[1..][i - 1];
    }
  }

  /** A loop that raises reports the first call that is not runnable. */
  lemma {:induction false} FirstBadCallRaises(data: WeatherTable, calls: seq<ToolCall>, j: nat)
    requires j < |calls| && !Runnable(calls[j])
    requires forall i :: 0 <= i < j ==> Runnable(calls[i])
    ensures RunToolCalls(data, calls).Raised?
    ensures RunToolCalls(data, calls).error == ErrorOf(calls[j])
  {
    if j > 0 {
      match ExecuteToolCall(data, calls[0])
      case Failure(e) =>
        assert false;
      case Success((msg, data')) =>
        FirstBadCallRaises(data', calls[1..], j - 1);
    }
  }

  /**
   * Exactly two provider calls on success, one when a tool call raises; only
   * the first advertises the tools, and it carries the user message alone.
   */
  lemma ProviderCallCount(respond: Request -> Completion, data: WeatherTable, query: string)
    ensures var run := ProcessQueryRun(respond, data, query);
      && (run.result.Success? ==> |run.requests| == 2 && run.requests[1].tools.None?)
      && (run.result.Failure? ==> |run.requests| == 1)
      && run.requests[0] == Request(ModelName, [UserMessage(query)], Some([WeatherToolDefinition]))
  {
  }

  /**
   * The transcript of the second provider call is the user message, the first
   * reply and one `tool` message per requested call, in request order, each
   * carrying the weather the call asked for; the final answer is the provider's response to exactly that transcript.
   */
  lemma SecondRequestTranscript(respond: Request -> Completion, data: WeatherTable, query: string)
    ensures var run := ProcessQueryRun(respond, data, query);
      var first := respond(FirstRequest(query)).message;
      var calls := ToolCallsOf(first);
      run.result.Success? ==>
        var transcript := run.requests[1].messages;
        && |transcript| == 2 + |calls|
        && transcript[0] == UserMessage(query)
        && transcript[1] == AssistantMessage(first)
        && run.result.value == respond(Request(ModelName, transcript, None))
        && forall i :: 0 <= i < |calls| ==> AnswersCall(data, calls[i], transcript[2 + i])
  {
    var first := respond(FirstRequest(query)).message;
    RunToolCallsShape(data, ToolCallsOf(first));
  }

  /** A reply without tool calls (including a `None` list) leads straight to the second call. */
  lemma NoToolCallsTranscript(respond: Request -> Completion, data: WeatherTable, query: string)
    requires ToolCallsOf(respond(FirstRequest(query)).message) == []
    ensures var run := ProcessQueryRun(respond, data, query);
      && run.result.Success?
      && run.requests[1].messages == [UserMessage(query), AssistantMessage(respond(FirstRequest(query)).message)]
      && run.weatherData == data
  {
  }

  /**
   * `process_query` succeeds exactly when every requested call names the
   * registered function and has a location; a call naming an unregistered
   * function raises `ValueError` and the second provider call is never made.
   */
  lemma QuerySucceedsIff(respond: Request -> Completion, data: WeatherTable, query: string)
    ensures var run := ProcessQueryRun(respond, data, query);
      var calls := ToolCallsOf(respond(FirstRequest(query)).message);
      && (run.result.Success? <==> forall i :: 0 <= i < |calls| ==> Runnable(calls[i]))
      && (forall i :: 0 <= i < |calls| && calls[i].name != WeatherToolName ==>
            run.result.Failure? && |run.requests| == 1)
  {
    var calls := ToolCallsOf(respond(FirstRequest(query)).message);
    RunToolCallsSucceedsIff(data, calls);
  }

  /** The exception is the one of the first call that cannot run. */
  lemma QueryRaisesFirstError(respond: Request -> Completion, data: WeatherTable, query: string, j: nat)
    requires var calls := ToolCallsOf(respond(FirstRequest(query)).message);
      && j < |calls| && !Runnable(calls[j])
      && forall i :: 0 <= i < j ==> Runnable(calls[i])
    ensures var calls := ToolCallsOf(respond(FirstRequest(query)).message);
      ProcessQueryRun(respond, data, query).result == Failure(ErrorOf(calls[j]))
  {
    FirstBadCallRaises(data, ToolCallsOf(respond(FirstRequest(query)).message), j);
  }
}
