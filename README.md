# mcp_study core in Dafny

This project models the tool-calling chatbots of mcp_study. An MCP client connects to one or more
tool servers, advertises their tools to an OpenAI-compatible model and runs the conversation
loop. The loop asks the model for a completion, runs each tool call the model requests against the
server that owns the tool, appends the tool results to the transcript and asks again. It stops when
a response has content and no tool calls.

The model covers:

- the shared message vocabulary (`ChatMessage`, `ChatResponse`, `CacheControl`) and the
  cache-breakpoint decision of the base adapter (module `LlmAdapter`);
- the OpenAI adapter: the mapping of messages to request dictionaries, the response taken from
  the first choice, and the two provider variants (module `OpenAIAdapter`);
- the adapter registry `LLMFactory` and the `LLM_CONFIGS` table (module `LlmFactory`);
- the tool loop as a specification, shared by both chatbots (module `Orchestration`);
- the single-server chatbot (module `SingleServerChatbot`);
- the multi-server chatbot: tool registry, token totals, conversation history and the console
  commands (module `MultiServerChatbot`);
- the pure logic of the web front end's WebSocket handler (module `WebServer`): the fold that
  splits printed lines into message text and token line, the events it sends, and the `chat` and
  `clear` dispatch;
- `Wrappers` and `PyText`, which provide `Option`/`Result` and the few Python string built-ins
  the code relies on (`strip`, `lower`, substring `in`, `str` of an integer).

The model backend is a script, a sequence of replies consumed one per request. Each reply is a
response or the exception the request raises. A tool server is a function from session, tool name
and argument text to a result or an exception. Sessions are opaque numbers. Each loop runs until it
answers, raises, spins or uses up the script:

- `Converse`/`Handle` in `Orchestration` define the outcome of one query as a `Trace`: the final
  local transcript, every request sent, every response received, and how the loop ended.
- The imperative loops (`SingleServerChatbot.MCPChatBot.ProcessQuery` and
  `MultiServerChatbot.MCPChatBot.RunQuery`) are proved equal to that specification.
- Lemmas about the specification state what the source promises: how consecutive requests are
  chained, one tool message per call, the exit condition, and the token sums.

Three behaviours of the loop, as the code has them:

- An unknown tool name raises `KeyError` out of the query (application/multi_server_chatbot.py:152),
  and so does an exception of the tool call (application/multi_server_chatbot.py:153). Neither is
  folded into a tool message.
- The loop has no iteration cap (application/multi_server_chatbot.py:129-174).
- No system message is sent: the first request carries the conversation history and the new user
  message only (application/multi_server_chatbot.py:113-121).

## Model

| member | source | states |
|---|---|---|
| LlmAdapter.Defaults | application/llm_adapter.py:6-32 | `CacheControl` defaults to "ephemeral", the optional `ChatMessage` fields default to `None`, and both adapter caching flags default to true |
| LlmAdapter.AddCacheBreakpoint | application/llm_adapter.py:70-87 | only `cache_control` may change, and then to an ephemeral `CacheControl`; with caching off or unsupported, or with no manual control required, the message is returned as it was; otherwise a system message is marked when system caching is on, and a large message is marked when large content is cached; in every other case the message is unchanged |
| LlmAdapter.CacheBreakpointIdempotent | application/llm_adapter.py:70-87 | applying the decision a second time changes nothing |
| LlmAdapter.ThresholdIsStrict | application/llm_adapter.py:84-85 | a non-system message of exactly 1000 characters is returned unchanged |
| OpenAIAdapter.ToWire | application/openai_adapter.py:30-36 | the dictionary starts with the role and its keys are distinct; `content`, `tool_calls` and `tool_call_id` are present exactly when the field is truthy, and then hold its value; no other key appears |
| OpenAIAdapter.ConvertMessages | application/openai_adapter.py:28-37 | one dictionary per message, in message order, each the mapping of its message |
| OpenAIAdapter.WireRoundTrip | application/openai_adapter.py:30-36 | reading a converted dictionary back gives the message with its falsy fields as `None` and no cache control; a non-empty tool-call list comes back unchanged |
| OpenAIAdapter.WireRoundTripExact | application/openai_adapter.py:30-36 | a message with no falsy optional field and no cache control survives the round trip whole |
| OpenAIAdapter.CacheBreakpointInvisibleOnWire | application/openai_adapter.py:30-36 | the dictionary of a message is the same whether or not a cache breakpoint was added to it |
| OpenAIAdapter.ResponseOf | application/openai_adapter.py:48-53 | a reply without choices raises; otherwise the response has the first choice's content and tool calls and the reply's usage |
| OpenAIAdapter.ChatCompletion | application/openai_adapter.py:19-53 | sends one request with the adapter's model, the converted messages, the tools, the token cap and the temperature; a client exception is re-raised, and otherwise the result is the response of the reply |
| OpenAIAdapter.NewOpenAIAdapter | application/openai_adapter.py:10-17 | the provider name is "OpenAI", and the adapter keeps the given settings and base URL |
| OpenAIAdapter.AvailableModels | application/openai_adapter.py:55-88 | each variant lists at least one model and no model twice; OpenRouter names are vendor-qualified with a "/", OpenAI names are not |
| OpenAIAdapter.NewOpenRouterAdapter | application/openai_adapter.py:72-92 | the provider name is "OpenRouter", the adapter keeps the given settings, and its base URL is fixed to OpenRouter's |
| LlmFactory.Instantiate | application/llm_factory.py:20-21 | the adapter gets the given model and the caching flags given (true when absent); each built-in class gives its own provider name |
| LlmFactory.LLMFactory.constructor | application/llm_factory.py:9-12 | the registry holds "openai" and "openrouter", in that order, mapped to their classes |
| LlmFactory.QuotedListNames | application/llm_factory.py:18 | every name of a printed list of names appears in it, between single quotes |
| LlmFactory.ErrorMessage | application/llm_factory.py:18 | the `ValueError` text is "Unknown provider: ", the provider, ". Available: [", the quoted names and "]" |
| LlmFactory.ErrorMessageNames | application/llm_factory.py:18 | the error text names the unknown provider and every registered name, quoted |
| LlmFactory.LLMFactory.CreateAdapter | application/llm_factory.py:15-21 | fails exactly for an unregistered provider, with the provider and the registered names in order; otherwise instantiates the registered class |
| LlmFactory.LLMFactory.RegisterAdapter | application/llm_factory.py:24-26 | exactly one entry is added or overwritten, every other entry is kept, a new name joins the end of the key order, and creating the new name no longer fails |
| LlmFactory.LLMFactory.GetAvailableProviders | application/llm_factory.py:29-31 | lists every registered name exactly once, in registration order (the order of the dictionary's keys) |
| LlmFactory.DefaultConfigEntry | application/llm_factory.py:48-53 | the "gpt4.1-mini" entry is OpenRouter with model "openai/gpt-4.1-mini" and both caching flags on |
| LlmFactory.ConfigsUseOpenRouter | application/llm_factory.py:35-79 | every predefined configuration names the "openrouter" provider |
| LlmFactory.ConfigsCreatable | application/llm_factory.py:35-79 | creating an adapter from any predefined configuration cannot fail while "openrouter" is registered |
| LlmFactory.DefaultAdapter | application/multi_server_chatbot.py:33-34 | with the initial registry, the default configuration yields an OpenRouter adapter for "openai/gpt-4.1-mini" with caching on |
| Orchestration.ErrorText | application/multi_server_chatbot.py:152-153 | `str(e)` of each error the loop can raise: a `KeyError` is the missing tool name between single quotes, a tool or backend exception its own message, and a call on an absent session Python's `AttributeError` text |
| Orchestration.SchemaOf | application/multi_server_chatbot.py:64-71 | the advertised entry is a "function" carrying the tool's name, description and input schema |
| Orchestration.SchemasOf | application/chatbot.py:118-125 | one function entry per listed tool, in listing order |
| Orchestration.CallToolResult | application/multi_server_chatbot.py:152-159 | a call succeeds exactly when its name routes to a session and that session's tool returns; the tool message then answers the call id with the returned content; an unroutable name raises its lookup error |
| Orchestration.DispatchShape | application/multi_server_chatbot.py:144-159 | the calls are handled in order until the first failure; the round completes exactly when every call succeeded; each result is its call's tool message; a failing call is the one right after the last result |
| Orchestration.DispatchAnswersEachCall | application/multi_server_chatbot.py:144-159 | a completed round has one tool message per call, in call order, with role "tool" and the call's id |
| Orchestration.UnknownToolStopsRound | application/multi_server_chatbot.py:152 | an unknown name raises right at its call, after the tool messages of the calls before it |
| Orchestration.ConverseShape | application/multi_server_chatbot.py:116-174 | each scripted reply is used at most once; the first request sends the starting messages; every request offers the same tools and 2024 tokens; the transcript extends the starting messages; an answer is the content of the last response, which is final |
| Orchestration.HandleShape | application/multi_server_chatbot.py:129-174 | the same properties from the point where a response has just arrived |
| Orchestration.ConverseChained | application/multi_server_chatbot.py:137-165 | each request after the first sends the previous request's messages followed by the assistant tool-call message and the round's tool messages |
| Orchestration.ConverseOutcome | application/multi_server_chatbot.py:129-174 | the loop answers exactly when the last response is final and no request is unanswered; it spins exactly when that response has neither content nor tool calls; in both cases the transcript is the last request's messages |
| Orchestration.CallTools | application/multi_server_chatbot.py:144-159 | the inner loop over the tool calls computes the round `Dispatch` specifies |
| SingleServerChatbot.SessionRouter | application/chatbot.py:61 | every tool name routes to the one session; with no session, every call raises |
| SingleServerChatbot.MCPChatBot.constructor | application/chatbot.py:18-28 | no session and no tools; the given adapter, or else an OpenRouter adapter for the given model with the default settings |
| SingleServerChatbot.MCPChatBot.Connect | application/chatbot.py:108-125 | keeps the session, and the tools become one function entry per listed tool, in order, with name, description and schema |
| SingleServerChatbot.MCPChatBot.ProcessQuery | application/chatbot.py:30-77 | the loop computes the trace the specification gives for a transcript holding only the user message, the bot's tools and its session router |
| MultiServerChatbot.Registered | application/multi_server_chatbot.py:62-63 | every listed name maps to the new session; every other entry is unchanged |
| MultiServerChatbot.LaterServerWins | application/multi_server_chatbot.py:62-63 | on a name both servers list, the later registration owns it |
| MultiServerChatbot.RegistrationKeepsNames | application/multi_server_chatbot.py:62-71 | the registry and the advertised list grow by the same names |
| MultiServerChatbot.RegistryRouter | application/multi_server_chatbot.py:152 | a registered name routes to its session, and any other name raises `KeyError` |
| MultiServerChatbot.FormatTokens | application/multi_server_chatbot.py:93-97 | below 1000 the count is `str(count)`; the result ends in "k" exactly when the count is at least 1000, and then has one digit after the point |
| MultiServerChatbot.TokenLine | application/multi_server_chatbot.py:104-109 | the printed line is the token marker, the formatted counts separated by "/", " (Total: ", the formatted totals separated by "/", and ")" |
| MultiServerChatbot.FormatTokensSmall | application/multi_server_chatbot.py:97 | a count below 1000 prints as digits that read back as the count |
| MultiServerChatbot.CallLines | application/multi_server_chatbot.py:149 | one "Calling tool" line per call, in call order, with its name and arguments |
| MultiServerChatbot.ResponseLines | application/multi_server_chatbot.py:123-174 | for one response: the usage line first when usage is truthy, then the content when it is truthy, then one "Calling tool" line per requested call in call order, and nothing else |
| MultiServerChatbot.QueryOutput | application/multi_server_chatbot.py:99-174 | every usage line printed during a query shows totals between the starting totals and the starting totals plus all usage received, and the totals never decrease from one usage line to the next |
| MultiServerChatbot.QueryOutputEnds | application/multi_server_chatbot.py:123-174 | an answered query's output ends with the answer, and when the final response reported usage the token line just before it carries the totals once the query is done |
| MultiServerChatbot.ParseCommand | application/multi_server_chatbot.py:199-209 | `quit`, `clear` and `history` are recognised exactly when the stripped line lower-cases to them; anything else is a query with the stripped text |
| MultiServerChatbot.HistoryAsWrittenFails | application/multi_server_chatbot.py:209-214 | as written, a one-message history prints the header and the `TypeError`, and this differs from the listing evidently intended |
| MultiServerChatbot.HistoryLine | application/multi_server_chatbot.py:211-213 | a listed message line is two spaces, the 1-based number, ". ", the role emoji (🧑 for "user", 🤖 otherwise), a space, the role and ": ", then the content when it has at most 100 characters, or its first 100 characters and "..." |
| MultiServerChatbot.HistoryLineNumber | application/multi_server_chatbot.py:211-213 | the number after the indentation reads back as the message's 1-based position and is followed by "." |
| MultiServerChatbot.HistoryOutput | application/multi_server_chatbot.py:210-213 | the header with the message count, then one line per message, in order |
| MultiServerChatbot.MCPChatBot.constructor | application/multi_server_chatbot.py:24-41 | no sessions, tools, registry entries or history, and both totals 0; the given adapter, or else the one the factory creates from `LLM_CONFIGS["gpt4.1-mini"]` (the factory is consulted, and needs "openrouter" registered, only when no adapter is given) |
| MultiServerChatbot.MCPChatBot.ConnectToServer | application/multi_server_chatbot.py:43-73 | a failed connection changes nothing, or only keeps the session when listing failed; a successful one registers every listed name under the session and appends one function entry per tool, in order, duplicates kept; the registry keeps routing exactly the advertised names to connected sessions |
| MultiServerChatbot.MCPChatBot.PrintTokenUsage | application/multi_server_chatbot.py:99-109 | the totals grow by exactly the given counts, and the printed line shows the counts and the new totals |
| MultiServerChatbot.MCPChatBot.TrackUsage | application/multi_server_chatbot.py:123-125 | the totals grow by the response's prompt and completion tokens, a missing field or absent usage counting as 0 |
| MultiServerChatbot.MCPChatBot.RunQuery | application/multi_server_chatbot.py:116-174 | the loop computes the trace the specification gives, and the totals grow by the usage of every response received |
| MultiServerChatbot.MCPChatBot.ProcessQuery | application/multi_server_chatbot.py:111-178 | the loop runs on the history plus the user message; the history gains the user message and, exactly when the query answered, the answer; tool traffic never reaches it; the totals grow by the usage received; the registry invariant holds |
| MultiServerChatbot.MCPChatBot.HandleCommand | application/multi_server_chatbot.py:197-219 | `quit` and `history` change nothing; `clear` empties the history and zeroes both totals; anything else runs as a query; tools and registry never change |
| WebServer.DropLeadingEmptySuffix | web_server.py:129-132 | the empty lines before the first non-empty line are dropped and nothing else: the rest is the suffix of the lines after them, unchanged, and it is empty or starts with a non-empty line |
| WebServer.LastTokenLine | web_server.py:125-126 | empty exactly when no printed line holds the token marker; otherwise the last printed line that holds it, so a later token line replaces an earlier one |
| WebServer.MessagePositionsShape | web_server.py:125-132 | the positions of the message lines increase, each is a printed line without the marker, and every printed line without the marker has one |
| WebServer.MessageLinesAt | web_server.py:127-132 | message line `j` is the printed line at the `j`-th position |
| WebServer.MessageLinesFilter | web_server.py:125-132 | the message lines are the printed lines without the marker, each kept once and in print order, and none of them holds the marker |
| WebServer.MessageLinesMembers | web_server.py:125-132 | a line is among the message lines exactly when it was printed and does not hold the marker |
| WebServer.CaptureLines | web_server.py:120-132 | the fold over the printed lines: the message is the non-token lines joined by newlines, leading empty lines lost; the token slot is the last token line |
| WebServer.CaptureSeparatesTokens | web_server.py:125-132 | no token line reaches the message, and the message is empty exactly when no message line remains |
| WebServer.TokenLinesAreCaptured | web_server.py:125 | every line `print_token_usage` prints goes to the token slot |
| WebServer.MessageEndsWithLast | web_server.py:128-132 | when the last printed line is a non-empty message line, the message ends with it |
| WebServer.TokenLineBeforeLast | web_server.py:125-126 | a token line printed just before a final message line is the captured token line |
| WebServer.CaptureEndsWithAnswer | web_server.py:120-132 | output ending with a non-empty answer that holds no token marker yields a message ending with that answer |
| WebServer.CaptureTokensBeforeAnswer | web_server.py:120-132 | a usage line just before an answer that holds no token marker is the captured token line |
| WebServer.OpeningEvents | web_server.py:77-93 | before initialisation, exactly an error and a close; otherwise one status whose tool count is the number of advertised tools |
| WebServer.AssistantEvents | web_server.py:147-157 | an assistant message is sent exactly when the message is non-empty, with tokens exactly when a token line was captured |
| WebServer.HandleChat | web_server.py:107-163 | the stripped query is echoed first, then the query runs as `process_query` does; an answer sends the captured message, an exception one error prefixed "Error processing query: " |
| WebServer.HandleClientMessage | web_server.py:101-171 | `chat` with an empty stripped text sends nothing and changes nothing; `clear` empties the history, keeps the totals and sends one status; other types send nothing |
| WebServer.QueryEvents | web_server.py:140-163 | at most one event per query: an exception sends one error with "Error processing query: " and the exception's text; an unfinished query sends nothing; an event is an assistant message exactly when the query answered |
| WebServer.OutputSendsAnswer | web_server.py:140-157 | when the last response is final and its content holds no token marker, the capture of what the query printed sends exactly one assistant message, and that message ends with the response's content |
| WebServer.AnsweredQuerySendsAnswer | web_server.py:140-157 | an answered query whose answer holds no token marker sends one assistant message, and it ends with the answer |
| WebServer.AnsweredQuerySendsTotals | web_server.py:147-157 | when the answer holds no token marker and the final response reported usage, the assistant message carries its token line, which shows the totals after the query |
| WebServer.MarkerAnswerSendsNothing | web_server.py:125-157 | an answer that holds the token marker is taken for the token line: a query answered by one such response without usage answers, yet sends no event |
| PyText.Strip | web_server.py:102 | `str.strip()`: the slice of the input after its leading white space, with only white space after the slice and no white space at either end of it |
| PyText.DecimalRoundTrip | application/multi_server_chatbot.py:97 | `str` of a natural number reads back as that number |

## Left out

- Sockets, the MCP stdio transport, `AsyncExitStack`, `session.initialize` and `list_tools`: a connection attempt is a `Connection` value, a listing is a sequence of descriptors, and a tool server is a function parameter.
- The `openai` client library: `OpenAIAdapter.ChatCompletion` takes the client as a function from request to reply, and the chat loops take the replies as a script.
- `async`/`await` and `nest_asyncio`: everything is modelled sequentially.
- Reading `server_config.json`, `connect_to_servers` and its printed summary, `startup_event`, `cleanup`, and the `main` functions.
- FastAPI, uvicorn, the static files and `web/script.js`.
- The WebSocket receive loop, JSON decoding of client frames and JSON encoding of events: one received message is handled at a time, and events are values. A client `message` field that is not a string is not modelled.
- Replacing `builtins.print` in the web handler: what `process_query` prints is modelled as a function of the trace (`MultiServerChatbot.QueryOutput`) and handed to the capture fold. Printing itself is not a side effect of any method.
- The greetings of both `chat_loop`s and the turn prompt.
- The single-server `chat_loop` and `connect_to_server_and_run` beyond keeping the session and building the tool list.
- `json.loads` of tool arguments and `str(result.content)`: arguments and results are opaque strings, and their printed form is the parameter `ArgsRepr`. Arguments that are not valid JSON would raise in the source; that is not modelled.
- `MultiServerChatbot.FormatTokens`: states only the branch and the "k" suffix, because the digits of `f"{count/1000:.1f}"` come from binary floating point; `FormatTokens` rounds halves up.
- `WebServer.AnsweredQuerySendsAnswer`: promised only for an answer that holds no token marker. web_server.py:125-126 sends every printed line holding "🔢 Tokens:" to the token slot, an answer included, so such an answer never reaches the client and, when nothing else was printed, no event is sent (`WebServer.MarkerAnswerSendsNothing`). The same condition holds for `WebServer.AnsweredQuerySendsTotals`, `WebServer.OutputSendsAnswer`, `WebServer.CaptureEndsWithAnswer` and `WebServer.CaptureTokensBeforeAnswer`.
- `MultiServerChatbot.QueryOutput`: lists every call line of each received response, so for a round that raises it also lists the calls after the failing one, which application/multi_server_chatbot.py:149-153 never prints. The web handler discards the capture of a query that raises.
- `Orchestration.ErrorText`: writes a `KeyError` as the name between single quotes, which is Python's `repr` of the name only when it holds no quote and no backslash; Python switches to double quotes or escapes for those names.
- `LlmFactory.ErrorMessage`: joins the names in single quotes and does not reproduce Python's `repr` quoting of names that contain quotes.
- `LlmAdapter.AddCacheBreakpoint`: the source sets `cache_control` on the message in place and returns the same object; the model returns the updated value, so aliasing of that message is not captured.
- The abstract properties `supports_caching` and `requires_manual_cache_control` that no concrete adapter defines: they are the `CacheSupport` parameter. Instantiating the adapters as written would raise `TypeError` for the missing abstract members. Passing `enable_caching` and `cache_system_messages` on to `openai.OpenAI` would also raise. Adapter construction is modelled as succeeding.
- Token counts are natural numbers; a negative count reported by a backend is not modelled.
- `ScriptExhausted` is not behaviour of the source: it marks a loop that would ask for more replies than the script holds. `Spins` stands for the source looping for ever on a response with neither content nor tool calls.
- The `TypedDict` annotations and other type hints.

## Findings

| source | as written | input that shows it | evidently intended | confidence | as-written member | corrected member |
|---|---|---|---|---|---|---|
| application/multi_server_chatbot.py:209-214 | the `history` command indexes each `ChatMessage` dataclass as `msg['role']`, which raises `TypeError: 'ChatMessage' object is not subscriptable`; the loop prints the header and then that error | `history` after any query, so the history holds at least the user message | one numbered line per message with the role emoji, the role and the first 100 characters of the content | not executed | MultiServerChatbot.HistoryOutputAsWritten (shown by MultiServerChatbot.HistoryAsWrittenFails) | MultiServerChatbot.HistoryOutput (used by MultiServerChatbot.MCPChatBot.HandleCommand) |
