/**
 * The agent sample's four string tools and the middleware that turns a
 * tool call raising an `Exception` into a tool message.
 */
module ToolErrors {
  import opened Wrappers

  /**
   * A tool call as the agent passes it, mirroring `request.tool_call`; the
   * middleware reads only its `id`, the name and arguments are carried along.
   */
  datatype ToolCall = ToolCall(id: string, name: string, args: map<string, string>)

  /** The request handed to the middleware; only its tool call is read. */
  datatype ToolCallRequest = ToolCallRequest(toolCall: ToolCall)

  datatype ToolMessage = ToolMessage(content: string, toolCallId: string)

  /**
   * A raised exception, seen through `str(e)`. `isException` tells whether it
   * is an `Exception` subclass; the others (KeyboardInterrupt, SystemExit,
   * GeneratorExit) are bare `BaseException`s that `except Exception` does not catch.
   */
  datatype Exception = Exception(text: string, isException: bool)

  /** What the wrapped handler does: return a message or raise. */
  datatype HandlerOutcome = Returned(message: ToolMessage) | Raised(exception: Exception)

  const ToolErrorPrefix: string := "Tool error occurred: "

  /**
   * `handle_tool_errors`: the handler's message when it returns; a tool
   * message describing the exception and answering the same tool call when
   * it raises an `Exception`; any other `BaseException` propagates unchanged.
   */
  function HandleToolErrors(request: ToolCallRequest, handler: ToolCallRequest -> HandlerOutcome): (r: Result<ToolMessage, Exception>)
    ensures handler(request).Returned? ==> r == Success(handler(request).message)
    ensures handler(request).Raised? && handler(request).exception.isException ==>
      && r.Success?
      && r.value.toolCallId == request.toolCall.id
      && ErrorTextOf(r.value.content) == Some(handler(request).exception.text)
    ensures handler(request).Raised? && !handler(request).exception.isException ==>
      r == Failure(handler(request).exception)
    ensures r.Failure? <==> handler(request).Raised? && !handler(request).exception.isException
  {
    match handler(request)
    case Returned(message) => Success(message)
    case Raised(e) =>
      if e.isException then Success(ToolMessage(ToolErrorPrefix + e.text, request.toolCall.id))
      else Failure(e)
  }

  /** Reads the exception text back out of an error message's content. */
  function ErrorTextOf(content: string): Option<string>
  {
    if ToolErrorPrefix <= content then Some(content[|ToolErrorPrefix|..]) else None
  }

  /** A handler that raises an `Exception` is answered on the same tool call id whatever it raised. */
  lemma ErrorMessageAnswersRequest(request: ToolCallRequest, h1: ToolCallRequest -> HandlerOutcome, h2: ToolCallRequest -> HandlerOutcome)
    requires h1(request).Raised? && h1(request).exception.isException
    requires h2(request).Raised? && h2(request).exception.isException
    ensures HandleToolErrors(request, h1).Success? && HandleToolErrors(request, h2).Success?
    ensures HandleToolErrors(request, h1).value.toolCallId == HandleToolErrors(request, h2).value.toolCallId == request.toolCall.id
    ensures h1(request).exception == h2(request).exception <==>
      HandleToolErrors(request, h1) == HandleToolErrors(request, h2)
  {
    var t1 := h1(request).exception.text;
    var t2 := h2(request).exception.text;
    if HandleToolErrors(request, h1) == HandleToolErrors(request, h2) {
      assert ErrorTextOf(ToolErrorPrefix + t1) == Some(t1);
      assert ErrorTextOf(ToolErrorPrefix + t2) == Some(t2);
    }
  }

  const SearchPrefix: string := "Results for: "
  const WeatherPrefix: string := "Weather in "
  const WeatherSuffix: string := ": Sunny, 25°C"

  /** The `search` tool. */
  function Search(query: string): (r: string)
    ensures SearchQueryOf(r) == Some(query)
  {
    SearchPrefix + query
  }

  /** Recovers the query from a `search` result. */
  function SearchQueryOf(r: string): Option<string>
  {
    if SearchPrefix <= r then Some(r[|SearchPrefix|..]) else None
  }

  /** The `get_weather` tool: always sunny at 25°C. */
  function GetWeather(location: string): (r: string)
    ensures WeatherLocationOf(r) == Some(location)
  {
    WeatherPrefix + location + WeatherSuffix
  }

  /** Recovers the location from a `get_weather` result. */
  function WeatherLocationOf(r: string): Option<string>
  {
    if |WeatherPrefix| + |WeatherSuffix| <= |r| && WeatherPrefix <= r && r[|r| - |WeatherSuffix|..] == WeatherSuffix
    then Some(r[|WeatherPrefix|..|r| - |WeatherSuffix|])
    else None
  }

  /** Distinct queries give distinct `search` results, and likewise for `get_weather`. */
  lemma ToolsAreInjective(a: string, b: string)
    ensures Search(a) == Search(b) <==> a == b
    ensures GetWeather(a) == GetWeather(b) <==> a == b
  {
  }

  /** The two fixed phrases the agent can fetch. */
  datatype Phrase = CallPhrase | VideoPhrase

  /** Tells which phrase tool produced a text, if either did. */
  function PhraseOf(text: string): Option<Phrase>
  {
    if text == "This is your call phrase!" then Some(CallPhrase)
    else if text == "This is your video phrase!" then Some(VideoPhrase)
    else None
  }

  /** The `get_call_phrase` tool: a fixed phrase, no input, recognised as the call phrase. */
  function GetCallPhrase(): (r: string)
    ensures PhraseOf(r) == Some(CallPhrase)
  {
    "This is your call phrase!"
  }

  /** The `get_video_phrase` tool: a fixed phrase, no input, recognised as the video phrase. */
  function GetVideoPhrase(): (r: string)
    ensures PhraseOf(r) == Some(VideoPhrase)
  {
    "This is your video phrase!"
  }
}
