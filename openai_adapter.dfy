/** The OpenAI-compatible adapter: the mapping of `ChatMessage`s to the request dictionaries the
    client library takes, the extraction of a `ChatResponse` from the first choice of the reply,
    and the two concrete adapter variants with their provider names. */
module OpenAIAdapter {
  import opened Wrappers
  import opened LlmAdapter

  /** A value in a request dictionary: a string, or the tool-call list passed through as it is. */
  datatype WireValue = Text(text: string) | Calls(calls: seq<ToolCall>)

  /** A Python dict, as its (key, value) pairs in insertion order. */
  type WireMessage = seq<(string, WireValue)>

  function Keys(d: WireMessage): (r: seq<string>)
    ensures |r| == |d| && forall i :: 0 <= i < |d| ==> r[i] == d[i].0
  {
    seq(|d|, i requires 0 <= i < |d| => d[i].0)
  }

  /** `d.get(key)`: the value stored under the first occurrence of `key`. */
  function Lookup(d: WireMessage, key: string): Option<WireValue> {
    if d == [] then None else if d[0].0 == key then Some(d[0].1) else Lookup(d[1..], key)
  }

  /** Looking a key up in two dictionaries joined one after the other. */
  lemma {:induction false} LookupAppend(a: WireMessage, b: WireMessage, key: string)
    ensures Lookup(a + b, key) == if Lookup(a, key).Some? then Lookup(a, key) else Lookup(b, key)
  {
    if a != [] {
      assert (a + b)[0] == a[0] && (a + b)[1..] == a[1..] + b;
      LookupAppend(a[1..], b, key);
    } else {
      assert a + b == b;
    }
  }

  predicate DistinctKeys(d: WireMessage) {
    forall i, j :: 0 <= i < j < |d| ==> d[i].0 != d[j].0
  }

  /** The dictionary built for one message: the role always, then content, tool calls and tool call
      id, each only when it is truthy. */
  function ToWire(m: ChatMessage): (d: WireMessage)
    ensures |d| >= 1 && d[0] == ("role", Text(m.role))
    ensures DistinctKeys(d)
    ensures Lookup(d, "role") == Some(Text(m.role))
    ensures Lookup(d, "content").Some? <==> Truthy(m.content)
    ensures Truthy(m.content) ==> Lookup(d, "content") == Some(Text(m.content.value))
    ensures Lookup(d, "tool_calls").Some? <==> HasItems(m.toolCalls)
    ensures HasItems(m.toolCalls) ==> Lookup(d, "tool_calls") == Some(Calls(m.toolCalls.value))
    ensures Lookup(d, "tool_call_id").Some? <==> Truthy(m.toolCallId)
    ensures Truthy(m.toolCallId) ==> Lookup(d, "tool_call_id") == Some(Text(m.toolCallId.value))
    ensures forall i :: 0 <= i < |d| ==> d[i].0 in ["role", "content", "tool_calls", "tool_call_id"]
  {
    var role: WireMessage := [("role", Text(m.role))];
    var content: WireMessage := if Truthy(m.content) then [("content", Text(m.content.value))] else [];
    var calls: WireMessage := if HasItems(m.toolCalls) then [("tool_calls", Calls(m.toolCalls.value))] else [];
    var id: WireMessage := if Truthy(m.toolCallId) then [("tool_call_id", Text(m.toolCallId.value))] else [];
    LookupAppend(role, content, "content");
    LookupAppend(role + content, calls, "content");
    LookupAppend(role + content + calls, id, "content");
    LookupAppend(role, content, "tool_calls");
    LookupAppend(role + content, calls, "tool_calls");
    LookupAppend(role + content + calls, id, "tool_calls");
    LookupAppend(role, content, "tool_call_id");
    LookupAppend(role + content, calls, "tool_call_id");
    LookupAppend(role + content + calls, id, "tool_call_id");
    role + content + calls + id
  }

  /** The conversion loop of `chat_completion`: one dictionary per message, in message order. */
  method ConvertMessages(messages: seq<ChatMessage>) returns (wire: seq<WireMessage>)
    ensures |wire| == |messages|
    ensures forall i :: 0 <= i < |messages| ==> wire[i] == ToWire(messages[i])
  {
    wire := [];
    for i := 0 to |messages|
      invariant |wire| == i
      invariant forall k :: 0 <= k < i ==> wire[k] == ToWire(messages[k])
    {
      var msg := messages[i];
      var d: WireMessage := [("role", Text(msg.role))];
      if Truthy(msg.content) {
        d := d + [("content", Text(msg.content.value))];
      }
      if HasItems(msg.toolCalls) {
        d := d + [("tool_calls", Calls(msg.toolCalls.value))];
      }
      if Truthy(msg.toolCallId) {
        d := d + [("tool_call_id", Text(msg.toolCallId.value))];
      }
      wire := wire + [d];
    }
  }

  /** The converted message list as a value, for stating what the client receives. */
  function WireMessages(messages: seq<ChatMessage>): (r: seq<WireMessage>)
    ensures |r| == |messages| && forall i :: 0 <= i < |messages| ==> r[i] == ToWire(messages[i])
  {
    seq(|messages|, i requires 0 <= i < |messages| => ToWire(messages[i]))
  }

  function TextAt(d: WireMessage, key: string): Option<string> {
    match Lookup(d, key)
    case Some(Text(s)) => Some(s)
    case _ => None
  }

  function CallsAt(d: WireMessage, key: string): Option<seq<ToolCall>> {
    match Lookup(d, key)
    case Some(Calls(c)) => Some(c)
    case _ => None
  }

  /** Reading a request dictionary back into a message; the partner of `ToWire`. */
  function FromWire(d: WireMessage): Option<ChatMessage> {
    match TextAt(d, "role")
    case None => None
    case Some(role) =>
      Some(ChatMessage(role, content := TextAt(d, "content"), toolCalls := CallsAt(d, "tool_calls"),
                       toolCallId := TextAt(d, "tool_call_id")))
  }

  /** What survives the mapping: falsy optional fields become `None`, and the cache control,
      which the mapping never writes, is dropped. */
  function WireView(m: ChatMessage): ChatMessage {
    ChatMessage(m.role,
                content := if Truthy(m.content) then m.content else None,
                toolCalls := if HasItems(m.toolCalls) then m.toolCalls else None,
                toolCallId := if Truthy(m.toolCallId) then m.toolCallId else None)
  }

  /** Round trip: converting a message and reading it back gives its wire view, so role, content,
      and the call ids, names and arguments of its tool calls come back unchanged. */
  lemma WireRoundTrip(m: ChatMessage)
    ensures FromWire(ToWire(m)) == Some(WireView(m))
    ensures HasItems(m.toolCalls) ==> FromWire(ToWire(m)).value.toolCalls == m.toolCalls
  {
  }

  /** A message without falsy optional fields and without a cache control survives the round trip whole. */
  lemma WireRoundTripExact(m: ChatMessage)
    requires m.content.Some? ==> m.content.value != ""
    requires m.toolCalls.Some? ==> |m.toolCalls.value| > 0
    requires m.toolCallId.Some? ==> m.toolCallId.value != ""
    requires m.cacheControl == None
    ensures FromWire(ToWire(m)) == Some(m)
  {
    WireRoundTrip(m);
  }

  /** A cache breakpoint never reaches the wire: the mapping ignores the field it sets. */
  lemma CacheBreakpointInvisibleOnWire(settings: AdapterSettings, support: CacheSupport, m: ChatMessage,
                                       cacheLargeContent: bool)
    ensures ToWire(AddCacheBreakpoint(settings, support, m, cacheLargeContent)) == ToWire(m)
  {
  }

  /** The parts of the client library's reply the adapter reads. */
  datatype ApiChoice = ApiChoice(content: Option<string>, toolCalls: Option<seq<ToolCall>>)
  datatype ApiResponse = ApiResponse(choices: seq<ApiChoice>, usage: Option<Usage>)

  /** The arguments `chat_completion` passes to `client.chat.completions.create`. */
  datatype ApiRequest = ApiRequest(model: string, messages: seq<WireMessage>, tools: seq<ToolSchema>,
                                   maxTokens: nat, temperature: real)

  /** Why `chat_completion` raises: the client raised, or the reply had no choices (IndexError). */
  datatype CompletionError = ClientError(message: string) | NoChoices

  /** The client library, seen as a function from a request to a reply or an exception. */
  type Client = ApiRequest -> Result<ApiResponse, string>

  /** `ChatResponse` construction: content and tool calls of the first choice, and the dumped usage. */
  function ResponseOf(reply: ApiResponse): (r: Result<ChatResponse, CompletionError>)
    ensures r.Failure? <==> |reply.choices| == 0
    ensures r.Failure? ==> r.error == NoChoices
    ensures r.Success? ==> (r.value.content == reply.choices[0].content
                            && r.value.toolCalls == reply.choices[0].toolCalls
                            && r.value.usage == reply.usage)
  {
    if |reply.choices| == 0 then Failure(NoChoices)
    else
      var choice := reply.choices[0];
      Success(ChatResponse(choice.content, toolCalls := choice.toolCalls, usage := reply.usage))
  }

  /** The two concrete adapters. */
  datatype Variant = OpenAIVariant | OpenRouterVariant

  /** An adapter instance: its variant, its base settings, and the base URL its client uses. */
  datatype Adapter = Adapter(variant: Variant, settings: AdapterSettings, baseUrl: Option<string>)

  const OpenRouterBaseUrl := "https://openrouter.ai/api/v1"

  /** `OpenAIAdapter(model, base_url=..., **kwargs)`. */
  function NewOpenAIAdapter(settings: AdapterSettings, baseUrl: Option<string> := None): (a: Adapter)
    ensures ProviderName(a) == "OpenAI" && a.settings == settings && a.baseUrl == baseUrl
  {
    Adapter(OpenAIVariant, settings, baseUrl)
  }

  /** `OpenRouterAdapter(model, **kwargs)`: an OpenAI adapter whose base URL is fixed to OpenRouter's. */
  function NewOpenRouterAdapter(settings: AdapterSettings): (a: Adapter)
    ensures ProviderName(a) == "OpenRouter" && a.settings == settings && a.baseUrl == Some(OpenRouterBaseUrl)
  {
    Adapter(OpenRouterVariant, settings, Some(OpenRouterBaseUrl))
  }

  /** The `provider_name` property of each variant. */
  function ProviderName(a: Adapter): string {
    match a.variant
    case OpenAIVariant => "OpenAI"
    case OpenRouterVariant => "OpenRouter"
  }

  /** `get_available_models` of each variant. */
  function AvailableModels(v: Variant): (models: seq<string>)
    ensures models != []
    ensures forall i, j :: 0 <= i < j < |models| ==> models[i] != models[j]
    ensures v == OpenRouterVariant ==> forall k :: 0 <= k < |models| ==> '/' in models[k]
    ensures v == OpenAIVariant ==> forall k :: 0 <= k < |models| ==> '/' !in models[k]
  {
    match v
    case OpenAIVariant => ["gpt-4o", "gpt-4o-mini", "gpt-4-turbo", "gpt-3.5-turbo"]
    case OpenRouterVariant => ["openai/gpt-4o", "openai/gpt-4o-mini", "anthropic/claude-3-sonnet",
                               "anthropic/claude-3-haiku", "meta-llama/llama-3-70b-instruct", "google/gemini-pro"]
  }

  /** `chat_completion`: convert the messages, send one request with the adapter's model, and build
      the response from the first choice of the reply. */
  method ChatCompletion(adapter: Adapter, messages: seq<ChatMessage>, tools: seq<ToolSchema>, client: Client,
                        maxTokens: nat := 2048, temperature: real := 0.7)
    returns (r: Result<ChatResponse, CompletionError>)
    ensures var request := ApiRequest(adapter.settings.model, WireMessages(messages), tools, maxTokens, temperature);
            match client(request)
            case Failure(e) => r == Failure(ClientError(e))
            case Success(reply) => r == ResponseOf(reply)
  {
    var wire := ConvertMessages(messages);
    assert wire == WireMessages(messages);
    var reply := client(ApiRequest(adapter.settings.model, wire, tools, maxTokens, temperature));
    if reply.Failure? {
      return Failure(ClientError(reply.error));
    }
    r := ResponseOf(reply.value);
  }
}
