/** The message and response vocabulary shared by the chat loops and the adapters, the settings
    every adapter is constructed with, and the cache-breakpoint decision of the base adapter. */
module LlmAdapter {
  import opened Wrappers

  /** Python truthiness of an optional string: present and non-empty. */
  predicate Truthy(s: Option<string>) {
    s.Some? && s.value != ""
  }

  /** Python truthiness of an optional list: present and non-empty. */
  predicate HasItems<T>(s: Option<seq<T>>) {
    s.Some? && |s.value| > 0
  }

  /** A cache breakpoint annotation; its type field defaults to "ephemeral". */
  datatype CacheControl = CacheControl(kind: string := "ephemeral")

  /** One tool invocation requested by the model: call id, function name and the
      function arguments as the JSON text the model produced. */
  datatype ToolCall = ToolCall(id: string, name: string, arguments: string)

  /** `ChatMessage`: a role and four optional fields, each defaulting to `None`. */
  datatype ChatMessage = ChatMessage(
    role: string,
    content: Option<string> := None,
    toolCalls: Option<seq<ToolCall>> := None,
    toolCallId: Option<string> := None,
    cacheControl: Option<CacheControl> := None)

  /** The usage counters a backend reports (`prompt_tokens`, `completion_tokens`, ...). */
  type Usage = map<string, nat>

  /** `ChatResponse`: generated text, requested tool calls and usage, the last two optional. */
  datatype ChatResponse = ChatResponse(
    content: Option<string>,
    toolCalls: Option<seq<ToolCall>> := None,
    usage: Option<Usage> := None)

  /** A tool as advertised to the model: `{"type": kind, "function": {name, description, parameters}}`,
      the parameter schema kept as opaque JSON text. */
  datatype ToolSchema = ToolSchema(kind: string, name: string, description: string, parameters: string)

  /** The state `LLMAdapter.__init__` gives every adapter; both flags default to true. */
  datatype AdapterSettings = AdapterSettings(
    model: string,
    enableCaching: bool := true,
    cacheSystemMessages: bool := true)

  /** The dataclass and constructor defaults. */
  lemma Defaults(role: string, model: string)
    ensures CacheControl().kind == "ephemeral"
    ensures var m := ChatMessage(role);
            m.content == None && m.toolCalls == None && m.toolCallId == None && m.cacheControl == None
    ensures AdapterSettings(model).enableCaching && AdapterSettings(model).cacheSystemMessages
  {
  }

  /** The two capability flags `add_cache_breakpoint` consults. The concrete adapters never define
      them, so they are parameters here. */
  datatype CacheSupport = CacheSupport(supportsCaching: bool, requiresManualCacheControl: bool)

  /** Content strictly longer than this many characters counts as large. */
  const LargeContentThreshold := 1000

  predicate IsLargeContent(message: ChatMessage) {
    Truthy(message.content) && |message.content.value| > LargeContentThreshold
  }

  /** `add_cache_breakpoint`: decides whether to mark `message` with an ephemeral cache control.
      Only `cacheControl` may change; when nothing applies the message comes back as it was. */
  function AddCacheBreakpoint(settings: AdapterSettings, support: CacheSupport, message: ChatMessage,
                              cacheLargeContent: bool := true): (r: ChatMessage)
    ensures r.role == message.role && r.content == message.content
    ensures r.toolCalls == message.toolCalls && r.toolCallId == message.toolCallId
    ensures r.cacheControl == message.cacheControl || r.cacheControl == Some(CacheControl())
    ensures !settings.enableCaching || !support.supportsCaching ==> r == message
    ensures !support.requiresManualCacheControl ==> r == message
    ensures settings.enableCaching && support.supportsCaching && support.requiresManualCacheControl ==>
              (message.role == "system" && settings.cacheSystemMessages ==> r.cacheControl == Some(CacheControl())) &&
              (cacheLargeContent && IsLargeContent(message) ==> r.cacheControl == Some(CacheControl()))
    ensures (!(message.role == "system" && settings.cacheSystemMessages) &&
             !(cacheLargeContent && IsLargeContent(message))) ==> r == message
  {
    if !settings.enableCaching || !support.supportsCaching then message
    else if !support.requiresManualCacheControl then message
    else if message.role == "system" && settings.cacheSystemMessages then
      message.(cacheControl := Some(CacheControl()))
    else if cacheLargeContent && Truthy(message.content) && |message.content.value| > LargeContentThreshold then
      message.(cacheControl := Some(CacheControl()))
    else message
  }

  /** Adding a breakpoint to a message that already went through the decision changes nothing. */
  lemma CacheBreakpointIdempotent(settings: AdapterSettings, support: CacheSupport, message: ChatMessage,
                                  cacheLargeContent: bool)
    ensures var once := AddCacheBreakpoint(settings, support, message, cacheLargeContent);
            AddCacheBreakpoint(settings, support, once, cacheLargeContent) == once
  {
  }

  /** Content of exactly the threshold length is not large: a non-system message of 1000
      characters keeps the cache control it had. */
  lemma ThresholdIsStrict(settings: AdapterSettings, support: CacheSupport, message: ChatMessage)
    requires message.role != "system"
    requires message.content.Some? && |message.content.value| == LargeContentThreshold
    ensures AddCacheBreakpoint(settings, support, message) == message
  {
  }
}
