# Tool calling and conversation checkpoints, modelled in Dafny

This project models the three parts of the sample-chatgpt tutorial repository
that hold logic of their own, and proves what they promise.

- **Single-round tool calling** (`sample_gpt.py`, module `ToolCalling` with the
  weather backend in module `Weather`). A mock weather service keeps a table keyed
  by lower-cased city name and writes the requested `unit` into the stored
  entry in place. A tool registry resolves the one function name
  `get_current_weather` and raises for any other. `process_query` sends the
  user message with the weather tool advertised, appends the assistant reply
  and one `tool` message per requested call in request order, then makes one
  final provider call without tools. The provider behind `AIClient` is an
  oracle: a fixed function from request to completion, plus a log of the
  requests it received. `ProcessQuery` is a loop proved against the pure
  function `ProcessQueryRun`, and the lemmas state the transcript shape, the
  number of provider calls and the error cases.
- **Conversation state with a concatenation reducer**
  (`langgraph/checkpoint_saver.py`, module `Checkpoint`). `Merge` is the state
  reducer: `query` is replaced and `messages` is concatenated.
  `AddMessage` adds the system prompt only on an empty history, and
  `LlmResponse` adds the model's reply to the whole history. One invoke merges
  the input, then runs the two nodes in edge order. The `MemorySaver`
  checkpointer is a class holding a map from thread id to the latest state.
  The chat model is an oracle from a history to the reply text.
- **Tool error isolation** (`langchain/function_calling.py`, module
  `ToolErrors`). `HandleToolErrors` returns the handler's message, or turns a
  raised `Exception` into a tool message on the same tool-call id; a
  `BaseException` that is not an `Exception` passes through uncaught. The four
  tools are string builders; the two with input have inverse parsers.

`process_query` does exactly one tool round and has no iteration bound. An
unknown tool name there raises `ValueError` out of `process_query`; it is not
turned into a message for the model. Error isolation exists only in the
middleware of `langchain/function_calling.py`.

## Model

| member | source | states |
|---|---|---|
| `Weather.Lower` | sample_gpt.py:35 | lower-casing keeps the length and maps every character to its lower-case form |
| `Weather.LowerIsIdempotent` | sample_gpt.py:35 | lower-casing yields a string with no upper-case letter; such strings, the table's keys, are exactly its fixed points |
| `Weather.GetWeatherOn` | sample_gpt.py:34-40 | an unknown city gives `{location: input as given, temperature: "unknown"}` with no unit key and an unchanged table; a known city's stored entry gets `unit` set to the passed unit, is returned, and no other entry or key changes |
| `Weather.LookupIgnoresCase` | sample_gpt.py:35 | two spellings with the same lower-case form leave the same table and return the same stored entry |
| `Weather.TokyoInAnyCase` | sample_gpt.py:28-35 | "TOKYO", "Tokyo" and "tokyo" all return the stored Tokyo entry, temperature "10", with the passed unit |
| `Weather.UnitPersistsAcrossLookups` | sample_gpt.py:39-40 | the unit written by one lookup stays in the table through a lookup of another city |
| `Weather.StoredKeysReachable` | sample_gpt.py:28-40 | with every key lower-case, as the service keeps them, each stored entry is returned by a lookup of its own key or of any spelling of it differing only in letter case |
| `Weather.MockWeatherService.constructor` | sample_gpt.py:27-32 | the table starts with Tokyo, San Francisco and Paris under lower-case keys |
| `Weather.MockWeatherService.GetWeather` | sample_gpt.py:34-40 | the returned entry and the new table are those of `GetWeatherOn` on the old table; `unit` defaults to "fahrenheit" |
| `ToolCalling.ToolRegistry.constructor` | sample_gpt.py:85-89 | the registry keeps the weather service it is given |
| `ToolCalling.ToolRegistry.GetFunction` | sample_gpt.py:91-96 | a name resolves if and only if it is "get_current_weather"; any other name fails with `Function <name> not found.` |
| `ToolCalling.ToolRegistry.GetCurrentWeather` | sample_gpt.py:98-101 | the handler's result and the new table are the weather service's lookup on the given location and unit |
| `ToolCalling.AIClient.ChatCompletion` | sample_gpt.py:17-21 | the provider's response is a fixed function of the request, and the request is appended to the log |
| `ToolCalling.FunctionCallingService.ProcessQuery` | sample_gpt.py:130-169 | the result, the requests sent and the final weather table are those of `ProcessQueryRun`, including the table updates made by calls before one that raises |
| `ToolCalling.WeatherToolSchema` | sample_gpt.py:58-80 | the advertised tool is named "get_current_weather", the one name the registry resolves; its properties are `location` and `unit`, only `location` is required, and `unit` is limited to celsius and fahrenheit |
| `ToolCalling.RunToolCallsShape` | sample_gpt.py:146-161 | when `RunToolCalls` (the tool loop, one `ExecuteToolCall` per requested call) completes, it yields one `tool` message per call, in call order, with the call's id and function name; its content is the entry stored under the call's lower-cased location, with location and temperature as stored and the call's unit as given (a missing unit is recorded as None, never as "fahrenheit"), or the "unknown" entry for an unknown city; the table keeps its keys and every entry its location and temperature |
| `ToolCalling.RunToolCallsSucceedsIff` | sample_gpt.py:146-154 | `RunToolCalls` completes exactly when every call names the registered function and has a location |
| `ToolCalling.FirstBadCallRaises` | sample_gpt.py:146-154 | when `RunToolCalls` fails, it raises the error of the first call that cannot run: `ValueError` for an unknown name, checked before the missing location |
| `ToolCalling.ProviderCallCount` | sample_gpt.py:132-167 | exactly two provider calls on success and one when a tool call raises; the first carries only the user message and advertises the weather tool, the second passes no tools |
| `ToolCalling.SecondRequestTranscript` | sample_gpt.py:132-167 | the second request's transcript is `[user(query), assistant(first reply), tool_1 … tool_k]`, of length 2 + k, with tool messages in request order, each carrying the call's id, function name and the weather entry for the call's location and unit, and the returned completion answers that transcript |
| `ToolCalling.NoToolCallsTranscript` | sample_gpt.py:142-146 | when the reply's tool calls are None or empty, the second call sees only the user message and the reply, and the table is unchanged |
| `ToolCalling.QuerySucceedsIff` | sample_gpt.py:146-148 | `process_query` succeeds exactly when every call can run; a call naming an unregistered function makes it raise before the second provider call |
| `ToolCalling.QueryRaisesFirstError` | sample_gpt.py:146-154 | the exception out of `process_query` is that of the first call that cannot run |
| `Checkpoint.Merge` | langgraph/checkpoint_saver.py:16-18 | the merged history is the old history followed by the update's messages, so it never shrinks or reorders; `query` is replaced only when the update carries one |
| `Checkpoint.AddMessage` | langgraph/checkpoint_saver.py:21-29 | on an empty history the update is the system prompt then the human turn; on any other it is the human turn alone, with no system message; `query` is untouched |
| `Checkpoint.LlmResponse` | langgraph/checkpoint_saver.py:32-35 | the update is exactly one message, the model's reply to the full accumulated history |
| `Checkpoint.MemorySaver.constructor` | langgraph/checkpoint_saver.py:60 | a new checkpointer holds no thread |
| `Checkpoint.CompiledGraph.Invoke` | langgraph/checkpoint_saver.py:47-56 | one invoke loads the thread's state, merges the input, runs `add_message` then `llm_response`, saves the result under the thread id and leaves every other thread unchanged |
| `Checkpoint.TurnExtendsHistory` | langgraph/checkpoint_saver.py:17-18 | `Turn` (one invoke: input merge, `add_message`, `llm_response`) keeps the prior history as a prefix, and `query` becomes the input's query rather than accumulating |
| `Checkpoint.TurnAppends` | langgraph/checkpoint_saver.py:21-35 | on an empty history `Turn` appends system prompt, human turn and reply (three messages), otherwise human turn and reply (two); the reply answers everything before it |
| `Checkpoint.HistoryStep` | langgraph/checkpoint_saver.py:52-54 | `History` (a thread's messages after invoking each query in order): each further query appends its human turn and the reply to the earlier history |
| `Checkpoint.HistoryLength` | langgraph/checkpoint_saver.py:52-54 | after n invokes on one thread `History` holds 1 + 2n messages and starts with the system prompt |
| `Checkpoint.HistoryShape` | langgraph/checkpoint_saver.py:21-35 | in `History` after n invokes the system prompt appears once, at index 0; the i-th human turn sits at 1 + 2i and the reply that answers the whole history before it at 2 + 2i |
| `Checkpoint.TwoInvokesShareHistory` | langgraph/checkpoint_saver.py:63-71 | two invokes on one thread give `[System, Human(q1), AI(r1), Human(q2), AI(r2)]`, and the second reply answers a history holding the first turn |
| `Checkpoint.Converse` | langgraph/checkpoint_saver.py:59-71 | the sample's two invokes on a fresh checkpointer return states whose histories are those above, the second with five messages opening with the system prompt |
| `ToolErrors.HandleToolErrors` | langchain/function_calling.py:34-43 | a returning handler's message is passed through unchanged; a handler raising an `Exception` yields a tool message on the request's tool-call id whose content is "Tool error occurred: " followed by the exception text, so no `Exception` escapes; any other `BaseException` (KeyboardInterrupt, SystemExit) is returned as the failure unchanged, since `except Exception` does not catch it |
| `ToolErrors.ErrorMessageAnswersRequest` | langchain/function_calling.py:39-43 | error messages always answer the request's tool-call id, and two handlers raising an `Exception` give the same message exactly when they raise the same exception |
| `ToolErrors.Search` | langchain/function_calling.py:10-13 | the result is "Results for: " followed by the query, from which the query is recovered |
| `ToolErrors.GetWeather` | langchain/function_calling.py:16-19 | the result is "Weather in ", the location and ": Sunny, 25°C", from which the location is recovered |
| `ToolErrors.ToolsAreInjective` | langchain/function_calling.py:10-19 | distinct inputs give distinct `search` and `get_weather` results |
| `ToolErrors.GetCallPhrase` | langchain/function_calling.py:22-25 | the tool takes no input and returns the fixed text "This is your call phrase!", which is recognised as the call phrase |
| `ToolErrors.GetVideoPhrase` | langchain/function_calling.py:28-31 | the tool takes no input and returns the fixed text "This is your video phrase!", which is recognised as the video phrase |

## Left out

- Provider calls: the OpenAI client, `ChatOpenAI.invoke` and the agent's model calls are oracles; transport errors, streaming, model names other than the recorded "gpt-4o" and the `ChatService.image_description` call are not modelled.
- JSON: `json.loads` of tool arguments and `json.dumps` of tool results are not modelled; arguments are the `location` and `unit` values and a tool message carries the weather entry itself. Malformed JSON and non-string argument values are therefore not modelled.
- `process_query` returns the second completion as a value; its `to_json(indent=2)` rendering is not modelled.
- Weather.Lower: models `str.lower` on the ASCII letters only, not Unicode case mapping.
- Aliasing: `get_weather` returns the stored dictionary itself, and `process_query` appends to the list it already passed to the provider. The model uses values, so later mutation through those aliases is not captured; in the source both are serialised before they could be observed.
- `WeatherService` and `AIClient` are abstract classes; the model uses the mock weather service and one oracle client directly.
- `OpenAIClient` construction, the missing API key error and `sample_chatgpt` wiring are environment lookup and printing.
- The checkpointer keeps only the latest state per thread: checkpoint history, metadata, `print_checkpoint_dump` and the `StateGraph` compilation machinery are not modelled.
- The agent of `langchain/function_calling.py` (`create_agent`, `ToolStrategy(Phrases)`, dispatch of tool calls to the four tools, and a handler returning a `Command`) is library code; `HandleToolErrors` takes the handler as a function whose outcome is a tool message or a raised exception, and a raised exception is reduced to its text and whether it is an `Exception` subclass.
- The prompt, parser, chain, retrieval and single-call scripts of the repository are thin wrappers over the libraries and are not part of this model.
