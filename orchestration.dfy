/** The tool-calling conversation loop both chatbots run, as a specification: the messages each
    completion request carries, the tool messages each round appends, and how the loop ends.
    The model backend is a script of replies consumed one per request; tool servers are a function
    of session, tool name and arguments. */
module Orchestration {
  import opened Wrappers
  import opened LlmAdapter

  /** A connected tool server, identified opaquely. */
  type SessionId = nat

  /** A tool as a server lists it. */
  datatype ToolDescriptor = ToolDescriptor(name: string, description: string, inputSchema: string)

  /** The function entry advertised to the model for a listed tool. */
  function SchemaOf(t: ToolDescriptor): (s: ToolSchema)
    ensures s.kind == "function" && s.name == t.name && s.description == t.description && s.parameters == t.inputSchema
  {
    ToolSchema("function", t.name, t.description, t.inputSchema)
  }

  /** One function entry per listed tool, in listing order. */
  function SchemasOf(tools: seq<ToolDescriptor>): (r: seq<ToolSchema>)
    ensures |r| == |tools| && forall i :: 0 <= i < |tools| ==> r[i] == SchemaOf(tools[i])
  {
    seq(|tools|, i requires 0 <= i < |tools| => SchemaOf(tools[i]))
  }

  /** Every completion request asks for at most this many output tokens. */
  const MaxTokens: nat := 2024

  /** What a tool server answers: the stringified result, or the exception its call raises. */
  datatype ToolReply = ToolOk(content: string) | ToolRaised(message: string)

  /** `session.call_tool(name, arguments)` on the session given. */
  type ToolServer = (SessionId, string, string) -> ToolReply

  /** The exceptions that escape one query. */
  datatype QueryError =
    | UnknownTool(name: string)            // `tool_to_session[name]` raises KeyError
    | NoSession(name: string)              // the single-server bot was never connected
    | ToolFailed(name: string, message: string)
    | BackendFailed(message: string)

  /** `str(e)` of each error: a `KeyError` shows the missing name in single quotes, a tool or
      backend exception its own message. */
  function ErrorText(e: QueryError): (text: string)
    ensures e.UnknownTool? ==> |text| == |e.name| + 2 && text[0] == '\'' && text[|text| - 1] == '\'' && text[1..|text| - 1] == e.name
    ensures e.ToolFailed? || e.BackendFailed? ==> text == e.message
    ensures e.NoSession? ==> text == "'NoneType' object has no attribute 'call_tool'"
  {
    match e
    case UnknownTool(n) => "'" + n + "'"
    case NoSession(_) => "'NoneType' object has no attribute 'call_tool'"
    case ToolFailed(_, m) => m
    case BackendFailed(m) => m
  }

  /** Where a tool call goes: a session, or the error that looking it up raises. */
  datatype Route = Routed(session: SessionId) | Unroutable(error: QueryError)
  type Router = string -> Route

  /** One scripted answer of the backend: a response, or the exception the request raises. */
  datatype LlmReply = Reply(response: ChatResponse) | Unavailable(message: string)

  /** The arguments of one `chat_completion` call. */
  datatype Request = Request(messages: seq<ChatMessage>, tools: seq<ToolSchema>, maxTokens: nat)

  /** How one query ends. `Spins` stands for the source looping for ever, without calling anything,
      on a response with neither content nor tool calls; `ScriptExhausted` means the loop asked for
      more replies than the script holds. */
  datatype Outcome = Answered(content: string) | Raised(error: QueryError) | Spins | ScriptExhausted

  /** Everything one query does: the final local transcript, each request sent, each response
      received, and the outcome. */
  datatype Trace = Trace(transcript: seq<ChatMessage>, requests: seq<Request>, received: seq<ChatResponse>,
                         outcome: Outcome)

  function UserMessage(query: string): ChatMessage {
    ChatMessage("user", content := Some(query))
  }

  function AssistantMessage(content: string): ChatMessage {
    ChatMessage("assistant", content := Some(content))
  }

  /** The assistant message recording a response that requested tools: its content as it came and
      its tool-call list. */
  function ToolCallMessage(r: ChatResponse): ChatMessage {
    ChatMessage("assistant", content := r.content, toolCalls := r.toolCalls)
  }

  /** The `tool` message carrying the result of one call. */
  function ToolMessage(call: ToolCall, result: string): ChatMessage {
    ChatMessage("tool", toolCallId := Some(call.id), content := Some(result))
  }

  /** A response that ends the loop: content and no tool calls. */
  predicate IsFinal(r: ChatResponse) {
    Truthy(r.content) && !HasItems(r.toolCalls)
  }

  /** Routing and calling one tool. */
  function CallTool(call: ToolCall, route: Router, server: ToolServer): Result<ChatMessage, QueryError>
  {
    match route(call.name)
    case Unroutable(e) => Failure(e)
    case Routed(s) =>
      match server(s, call.name, call.arguments)
      case ToolOk(content) => Success(ToolMessage(call, content))
      case ToolRaised(m) => Failure(ToolFailed(call.name, m))
  }

  /** A call succeeds exactly when its name routes to a session and that session's tool returns;
      the tool message then answers the call's id with the returned content. */
  lemma CallToolResult(call: ToolCall, route: Router, server: ToolServer)
    ensures var r := CallTool(call, route, server);
            && (r.Success? <==> route(call.name).Routed? && server(route(call.name).session, call.name, call.arguments).ToolOk?)
            && (r.Success? ==> r.value.role == "tool" && r.value.toolCallId == Some(call.id) && r.value.toolCalls == None
                               && r.value.content == Some(server(route(call.name).session, call.name, call.arguments).content))
            && (route(call.name).Unroutable? ==> r == Failure(route(call.name).error))
  {
  }

  /** The tool messages a round produces before it completes or raises. */
  datatype Dispatched = Dispatched(results: seq<ChatMessage>, failure: Option<QueryError>)

  /** The inner loop over one response's tool calls, in call order; the first failing call stops it. */
  function Dispatch(calls: seq<ToolCall>, route: Router, server: ToolServer): Dispatched
  {
    if calls == [] then Dispatched([], None)
    else
      match CallTool(calls[0], route, server)
      case Failure(e) => Dispatched([], Some(e))
      case Success(m) =>
        var rest := Dispatch(calls[1..], route, server);
        Dispatched([m] + rest.results, rest.failure)
  }

  /** The calls before the stopping point all succeeded, in order, one tool message each; the
      round completed exactly when every call did; otherwise the call at the stopping point failed
      with the round's error. */
  lemma {:induction false} DispatchShape(calls: seq<ToolCall>, route: Router, server: ToolServer)
    ensures var d := Dispatch(calls, route, server);
            && |d.results| <= |calls|
            && (d.failure.None? <==> |d.results| == |calls|)
            && (d.failure.Some? ==> CallTool(calls[|d.results|], route, server) == Failure(d.failure.value))
            && (forall j :: 0 <= j < |d.results| ==> CallTool(calls[j], route, server) == Success(d.results[j]))
  {
    if calls != [] && CallTool(calls[0], route, server).Success? {
      DispatchShape(calls[1..], route, server);
      var d := Dispatch(calls, route, server);
      var rest := Dispatch(calls[1..], route, server);
      forall j | 0 <= j < |d.results|
        ensures CallTool(calls[j], route, server) == Success(d.results[j])
      {
        if j > 0 {
          assert d.results[j] == rest.results[j - 1] && calls[j] == calls[1..][j - 1];
        }
      }
      if d.failure.Some? {
        assert calls[|d.results|] == calls[1..][|rest.results|];
      }
    }
  }

  /** A completed round has one tool message per call, in call order, each answering its call's id. */
  lemma DispatchAnswersEachCall(calls: seq<ToolCall>, route: Router, server: ToolServer)
    requires Dispatch(calls, route, server).failure.None?
    ensures var d := Dispatch(calls, route, server);
            |d.results| == |calls| &&
            forall j :: 0 <= j < |calls| ==> d.results[j].role == "tool" && d.results[j].toolCallId == Some(calls[j].id)
  {
    var d := Dispatch(calls, route, server);
    DispatchShape(calls, route, server);
    forall j | 0 <= j < |calls|
      ensures d.results[j].role == "tool" && d.results[j].toolCallId == Some(calls[j].id)
    {
      assert CallTool(calls[j], route, server) == Success(d.results[j]);
      CallToolResult(calls[j], route, server);
    }
  }

  /** An unknown tool raises instead of producing its tool message: the round stops right at it. */
  lemma UnknownToolStopsRound(calls: seq<ToolCall>, route: Router, server: ToolServer, k: nat)
    requires k < |calls| && route(calls[k].name).Unroutable?
    requires forall j :: 0 <= j < k ==> CallTool(calls[j], route, server).Success?
    ensures var d := Dispatch(calls, route, server);
            |d.results| == k && d.failure == Some(route(calls[k].name).error)
  {
    DispatchShape(calls, route, server);
    CallToolResult(calls[k], route, server);
  }

  function Prepend(request: Request, response: ChatResponse, t: Trace): Trace {
    Trace(t.transcript, [request] + t.requests, [response] + t.received, t.outcome)
  }

  /** The loop from the point where `messages` is about to be sent. */
  function Converse(messages: seq<ChatMessage>, tools: seq<ToolSchema>, script: seq<LlmReply>,
                    route: Router, server: ToolServer): Trace
    decreases |script|, 0
  {
    if script == [] then Trace(messages, [], [], ScriptExhausted)
    else
      var request := Request(messages, tools, MaxTokens);
      match script[0]
      case Unavailable(e) => Trace(messages, [request], [], Raised(BackendFailed(e)))
      case Reply(r) => Prepend(request, r, Handle(messages, r, tools, script[1..], route, server))
  }

  /** The loop from the point where response `r` has just arrived for `messages`. */
  function Handle(messages: seq<ChatMessage>, r: ChatResponse, tools: seq<ToolSchema>, script: seq<LlmReply>,
                  route: Router, server: ToolServer): Trace
    decreases |script|, 1
  {
    if !HasItems(r.toolCalls) then
      Trace(messages, [], [], if Truthy(r.content) then Answered(r.content.value) else Spins)
    else
      var withCall := messages + [ToolCallMessage(r)];
      var d := Dispatch(r.toolCalls.value, route, server);
      if d.failure.Some? then Trace(withCall + d.results, [], [], Raised(d.failure.value))
      else Converse(withCall + d.results, tools, script, route, server)
  }

  /** Every reply of the script is used at most once, each request but possibly the last got its
      response, the first request sends the starting messages, every request offers the same tools
      and token cap, the transcript extends the starting messages, and an answer is the content of
      the last, final, response. */
  lemma {:induction false} ConverseShape(messages: seq<ChatMessage>, tools: seq<ToolSchema>, script: seq<LlmReply>,
                                         route: Router, server: ToolServer)
    ensures var t := Converse(messages, tools, script, route, server);
            && |t.requests| <= |script|
            && (|t.requests| > 0 <==> script != [])
            && |t.received| <= |t.requests| <= |t.received| + 1
            && (|t.requests| > 0 ==> t.requests[0].messages == messages)
            && (forall k :: 0 <= k < |t.requests| ==> t.requests[k].tools == tools && t.requests[k].maxTokens == MaxTokens)
            && messages <= t.transcript
            && (t.outcome.Answered? ==> |t.received| > 0 && IsFinal(t.received[|t.received| - 1])
                                        && t.received[|t.received| - 1].content == Some(t.outcome.content))
    decreases |script|, 0
  {
    if script != [] && script[0].Reply? {
      var r := script[0].response;
      HandleShape(messages, r, tools, script[1..], route, server);
      var rest := Handle(messages, r, tools, script[1..], route, server);
      var t := Converse(messages, tools, script, route, server);
      assert t == Prepend(Request(messages, tools, MaxTokens), r, rest);
      forall k | 0 <= k < |t.requests|
        ensures t.requests[k].tools == tools && t.requests[k].maxTokens == MaxTokens
      {
        if k > 0 {
          assert t.requests[k] == rest.requests[k - 1];
        }
      }
      if rest.received != [] {
        assert t.received[|t.received| - 1] == rest.received[|rest.received| - 1];
      }
    }
  }

  lemma {:induction false} HandleShape(messages: seq<ChatMessage>, r: ChatResponse, tools: seq<ToolSchema>,
                                       script: seq<LlmReply>, route: Router, server: ToolServer)
    ensures var t := Handle(messages, r, tools, script, route, server);
            && |t.requests| <= |script|
            && |t.received| <= |t.requests| <= |t.received| + 1
            && (forall k :: 0 <= k < |t.requests| ==> t.requests[k].tools == tools && t.requests[k].maxTokens == MaxTokens)
            && messages <= t.transcript
            && (t.outcome.Answered? ==> IsFinal(if t.received == [] then r else t.received[|t.received| - 1])
                                        && (if t.received == [] then r else t.received[|t.received| - 1]).content
                                           == Some(t.outcome.content))
    decreases |script|, 1
  {
    if HasItems(r.toolCalls) {
      var d := Dispatch(r.toolCalls.value, route, server);
      var after := messages + [ToolCallMessage(r)] + d.results;
      assert messages <= after;
      if d.failure.None? {
        ConverseShape(after, tools, script, route, server);
      }
    }
  }

  /** The messages one completed round adds: the assistant tool-call message, then the tool messages. */
  function Round(r: ChatResponse, route: Router, server: ToolServer): seq<ChatMessage>
    requires HasItems(r.toolCalls)
  {
    [ToolCallMessage(r)] + Dispatch(r.toolCalls.value, route, server).results
  }

  /** Consecutive requests: each response but the last requested tools, the round it started
      completed, and the next request sends the previous transcript followed by that round. */
  predicate Chained(t: Trace, route: Router, server: ToolServer) {
    forall k :: 0 <= k < |t.requests| - 1 ==> LinkAt(t, k, route, server)
  }

  /** Request `k + 1` follows request `k` by one completed round. */
  predicate LinkAt(t: Trace, k: nat, route: Router, server: ToolServer)
    requires k + 1 < |t.requests|
  {
    && k < |t.received| && HasItems(t.received[k].toolCalls)
    && Dispatch(t.received[k].toolCalls.value, route, server).failure.None?
    && t.requests[k + 1].messages == t.requests[k].messages + Round(t.received[k], route, server)
  }

  lemma {:induction false} ConverseChained(messages: seq<ChatMessage>, tools: seq<ToolSchema>, script: seq<LlmReply>,
                                           route: Router, server: ToolServer)
    ensures Chained(Converse(messages, tools, script, route, server), route, server)
    decreases |script|
  {
    if script != [] && script[0].Reply? {
      var r := script[0].response;
      var t := Converse(messages, tools, script, route, server);
      if HasItems(r.toolCalls) {
        var d := Dispatch(r.toolCalls.value, route, server);
        if d.failure.None? {
          var after := messages + [ToolCallMessage(r)] + d.results;
          var rest := Converse(after, tools, script[1..], route, server);
          ConverseChained(after, tools, script[1..], route, server);
          HandleToolRound(messages, r, tools, script[1..], route, server);
          assert t == Prepend(Request(messages, tools, MaxTokens), r, rest);
          forall k | 0 <= k < |t.requests| - 1
            ensures LinkAt(t, k, route, server)
          {
            if k > 0 {
              assert LinkAt(rest, k - 1, route, server);
              assert t.requests[k + 1] == rest.requests[k] && t.requests[k] == rest.requests[k - 1];
              assert t.received[k] == rest.received[k - 1];
            } else {
              assert t.requests[1].messages == after;
              assert after == messages + Round(r, route, server);
            }
          }
        }
      }
    }
  }

  /** The loop ends with an answer exactly when the last response received is final and no request
      is left unanswered. It spins exactly when that last response has neither content nor tool calls. */
  lemma {:induction false} ConverseOutcome(messages: seq<ChatMessage>, tools: seq<ToolSchema>, script: seq<LlmReply>,
                                           route: Router, server: ToolServer)
    ensures var t := Converse(messages, tools, script, route, server);
            && (t.outcome.Answered? <==> |t.received| == |t.requests| > 0 && IsFinal(t.received[|t.received| - 1]))
            && (t.outcome.Answered? ==> t.received[|t.received| - 1].content == Some(t.outcome.content))
            && (t.outcome.Spins? <==> |t.received| == |t.requests| > 0 && !Truthy(t.received[|t.received| - 1].content)
                                      && !HasItems(t.received[|t.received| - 1].toolCalls))
            && (t.outcome.Answered? || t.outcome.Spins? ==> t.transcript == t.requests[|t.requests| - 1].messages)
    decreases |script|
  {
    var t := Converse(messages, tools, script, route, server);
    if script != [] && script[0].Reply? {
      var r := script[0].response;
      if HasItems(r.toolCalls) {
        var d := Dispatch(r.toolCalls.value, route, server);
        if d.failure.None? {
          var after := messages + [ToolCallMessage(r)] + d.results;
          ConverseOutcome(after, tools, script[1..], route, server);
          var rest := Converse(after, tools, script[1..], route, server);
          assert t == Prepend(Request(messages, tools, MaxTokens), r, rest);
          if rest.received != [] {
            assert t.received[|t.received| - 1] == rest.received[|rest.received| - 1];
          }
          if rest.requests != [] {
            assert t.requests[|t.requests| - 1] == rest.requests[|rest.requests| - 1];
          }
        }
      }
    }
  }

  /** The trace of a loop that has already sent `requests` and received `received`, then ran as `t`. */
  function After(requests: seq<Request>, received: seq<ChatResponse>, t: Trace): Trace {
    Trace(t.transcript, requests + t.requests, received + t.received, t.outcome)
  }

  /** Converse on a suffix of the script, unfolded once. */
  lemma ConverseAt(messages: seq<ChatMessage>, tools: seq<ToolSchema>, script: seq<LlmReply>, i: nat,
                   route: Router, server: ToolServer)
    requires i < |script|
    ensures Converse(messages, tools, script[i..], route, server) ==
            match script[i]
            case Unavailable(e) => Trace(messages, [Request(messages, tools, MaxTokens)], [], Raised(BackendFailed(e)))
            case Reply(r) => Prepend(Request(messages, tools, MaxTokens), r, Handle(messages, r, tools, script[i + 1..], route, server))
  {
    assert script[i..][0] == script[i] && script[i..][1..] == script[i + 1..];
  }

  /** Handle on a response that requested tools: the round's messages, then either its error or
      the rest of the loop. */
  lemma HandleToolRound(messages: seq<ChatMessage>, r: ChatResponse, tools: seq<ToolSchema>, script: seq<LlmReply>,
                        route: Router, server: ToolServer)
    requires HasItems(r.toolCalls)
    ensures var d := Dispatch(r.toolCalls.value, route, server);
            var after := messages + [ToolCallMessage(r)] + d.results;
            Handle(messages, r, tools, script, route, server) ==
              if d.failure.Some? then Trace(after, [], [], Raised(d.failure.value))
              else Converse(after, tools, script, route, server)
  {
  }

  lemma AfterAfter(rq1: seq<Request>, rc1: seq<ChatResponse>, rq2: seq<Request>, rc2: seq<ChatResponse>, t: Trace)
    ensures After(rq1, rc1, After(rq2, rc2, t)) == After(rq1 + rq2, rc1 + rc2, t)
  {
    assert rq1 + (rq2 + t.requests) == (rq1 + rq2) + t.requests;
    assert rc1 + (rc2 + t.received) == (rc1 + rc2) + t.received;
  }

  /** Dispatch on a suffix of the calls, unfolded once. */
  lemma DispatchAt(calls: seq<ToolCall>, j: nat, route: Router, server: ToolServer)
    requires j < |calls|
    ensures Dispatch(calls[j..], route, server) ==
            match CallTool(calls[j], route, server)
            case Failure(e) => Dispatched([], Some(e))
            case Success(m) => var rest := Dispatch(calls[j + 1..], route, server); Dispatched([m] + rest.results, rest.failure)
  {
    assert calls[j..][0] == calls[j] && calls[j..][1..] == calls[j + 1..];
  }

  /** The inner loop over one response's tool calls: route each call, call its tool, and append its
      tool message, in call order, until a call raises. */
  method CallTools(calls: seq<ToolCall>, route: Router, server: ToolServer) returns (d: Dispatched)
    ensures d == Dispatch(calls, route, server)
  {
    var results: seq<ChatMessage> := [];
    for j := 0 to |calls|
      invariant Dispatch(calls, route, server) ==
                Dispatched(results + Dispatch(calls[j..], route, server).results, Dispatch(calls[j..], route, server).failure)
    {
      var call := calls[j];
      DispatchAt(calls, j, route, server);
      var target := route(call.name);
      if target.Unroutable? {
        return Dispatched(results, Some(target.error));
      }
      var reply := server(target.session, call.name, call.arguments);
      if reply.ToolRaised? {
        return Dispatched(results, Some(ToolFailed(call.name, reply.message)));
      }
      ghost var rest := Dispatch(calls[j + 1..], route, server);
      assert results + ([ToolMessage(call, reply.content)] + rest.results) == (results + [ToolMessage(call, reply.content)]) + rest.results;
      results := results + [ToolMessage(call, reply.content)];
    }
    assert calls[|calls|..] == [];
    d := Dispatched(results, None);
  }
}
