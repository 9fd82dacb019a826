/** The single-server chatbot: one session, the tools it lists, and a conversation loop that starts
    afresh from the user's message on every query. */
module SingleServerChatbot {
  import opened Wrappers
  import opened LlmAdapter
  import opened Orchestration
  import LlmFactory
  import OpenAIAdapter

  /** Every tool call goes to the one session; before a session exists, calling a tool raises. */
  function SessionRouter(session: Option<SessionId>): (route: Router)
    ensures forall name :: session.Some? ==> route(name) == Routed(session.value)
    ensures forall name :: session.None? ==> route(name) == Unroutable(NoSession(name))
  {
    (name: string) => if session.Some? then Routed(session.value) else Unroutable(NoSession(name))
  }

  class MCPChatBot {
    var session: Option<SessionId>
    var llmAdapter: LlmFactory.Adapter
    var availableTools: seq<ToolSchema>

    /** Without an adapter, an OpenRouter adapter for `model` with the default settings. */
    constructor (llmAdapter: Option<LlmFactory.Adapter>, model: string := "openai/gpt-4o-mini")
      ensures this.session == None && availableTools == []
      ensures llmAdapter.Some? ==> this.llmAdapter == llmAdapter.value
      ensures llmAdapter.None? ==> && LlmFactory.ProviderName(this.llmAdapter) == "OpenRouter"
                                   && LlmFactory.SettingsOf(this.llmAdapter) == AdapterSettings(model, true, true)
    {
      session := None;
      if llmAdapter.Some? {
        this.llmAdapter := llmAdapter.value;
      } else {
        this.llmAdapter := LlmFactory.OpenAIFamily(OpenAIAdapter.NewOpenRouterAdapter(AdapterSettings(model)));
      }
      availableTools := [];
    }

    /** The part of `connect_to_server_and_run` that keeps the session and builds `available_tools`
        from its listing: one function entry per listed tool, in order. */
    method Connect(s: SessionId, tools: seq<ToolDescriptor>)
      modifies this
      ensures session == Some(s) && llmAdapter == old(llmAdapter)
      ensures |availableTools| == |tools|
      ensures forall i :: 0 <= i < |tools| ==> availableTools[i] == ToolSchema("function", tools[i].name, tools[i].description, tools[i].inputSchema)
    {
      session := Some(s);
      availableTools := SchemasOf(tools);
    }

    /** `process_query`: the transcript starts as the user message alone, every request sends the
        current transcript with `available_tools` and 2024 tokens, each tool round appends the
        assistant tool-call message and one tool message per call, and the loop ends only on a
        response with content and no tool calls. Nothing of the bot changes. */
    method ProcessQuery(query: string, script: seq<LlmReply>, server: ToolServer) returns (t: Trace)
      ensures t == Converse([UserMessage(query)], availableTools, script, SessionRouter(session), server)
    {
      var route := SessionRouter(session);
      var messages := [UserMessage(query)];
      ghost var spec := Converse(messages, availableTools, script, route, server);
      if script == [] {
        return Trace(messages, [], [], ScriptExhausted);
      }
      var requests := [Request(messages, availableTools, MaxTokens)];
      var received: seq<ChatResponse> := [];
      if script[0].Unavailable? {
        return Trace(messages, requests, received, Raised(BackendFailed(script[0].message)));
      }
      var response := script[0].response;
      received := [response];
      var i := 1;
      var processQuery := true;
      while processQuery
        invariant 1 <= i <= |script|
        invariant spec == After(requests, received, Handle(messages, response, availableTools, script[i..], route, server))
        invariant !processQuery ==> IsFinal(response)
        decreases |script| - i, if processQuery then 1 else 0
      {
        if Truthy(response.content) {
          if !HasItems(response.toolCalls) {
            processQuery := false;
          }
        }
        if HasItems(response.toolCalls) {
          HandleToolRound(messages, response, availableTools, script[i..], route, server);
          messages := messages + [ToolCallMessage(response)];
          var d := CallTools(response.toolCalls.value, route, server);
          messages := messages + d.results;
          if d.failure.Some? {
            return After(requests, received, Trace(messages, [], [], Raised(d.failure.value)));
          }
          if i == |script| {
            return After(requests, received, Trace(messages, [], [], ScriptExhausted));
          }
          ConverseAt(messages, availableTools, script, i, route, server);
          var request := Request(messages, availableTools, MaxTokens);
          if script[i].Unavailable? {
            return After(requests + [request], received, Trace(messages, [], [], Raised(BackendFailed(script[i].message))));
          }
          AfterAfter(requests, received, [request], [script[i].response],
                     Handle(messages, script[i].response, availableTools, script[i + 1..], route, server));
          requests := requests + [request];
          response := script[i].response;
          received := received + [response];
          i := i + 1;
          if Truthy(response.content) && !HasItems(response.toolCalls) {
            processQuery := false;
          }
        } else if !Truthy(response.content) {
          // Neither content nor tool calls: the source's loop repeats for ever from here.
          return After(requests, received, Trace(messages, [], [], Spins));
        }
      }
      t := Trace(messages, requests, received, Answered(response.content.value));
    }
  }
}
