/** The multi-server chatbot: a tool registry built from every connected server, a conversation
    history carried across queries, running token totals, and the console commands. */
module MultiServerChatbot {
  import opened Wrappers
  import opened PyText
  import opened LlmAdapter
  import opened Orchestration
  import LlmFactory

  /** The names a listing advertises. */
  function NamesOf(tools: seq<ToolDescriptor>): set<string> {
    set i | 0 <= i < |tools| :: tools[i].name
  }

  function SchemaNames(schemas: seq<ToolSchema>): set<string> {
    set i | 0 <= i < |schemas| :: schemas[i].name
  }

  /** `tool_to_session` after registering `tools` of session `s`: the session now owns every listed
      name, overwriting an earlier owner, and every other entry stays as it was. */
  function Registered(m: map<string, SessionId>, tools: seq<ToolDescriptor>, s: SessionId): (r: map<string, SessionId>)
    ensures forall n :: n in NamesOf(tools) ==> n in r && r[n] == s
    ensures forall n :: n !in NamesOf(tools) ==> (n in r <==> n in m) && (n in m ==> r[n] == m[n])
  {
    m + map n | n in NamesOf(tools) :: s
  }

  /** When two servers list the same name, the one registered later owns it. */
  lemma LaterServerWins(m: map<string, SessionId>, first: seq<ToolDescriptor>, s1: SessionId,
                        second: seq<ToolDescriptor>, s2: SessionId, name: string)
    requires name in NamesOf(first) && name in NamesOf(second)
    ensures Registered(Registered(m, first, s1), second, s2)[name] == s2
  {
  }

  lemma RegisteredStep(m: map<string, SessionId>, tools: seq<ToolDescriptor>, k: nat, s: SessionId)
    requires k < |tools|
    ensures Registered(m, tools[..k + 1], s) == Registered(m, tools[..k], s)[tools[k].name := s]
  {
    assert tools[..k + 1] == tools[..k] + [tools[k]];
    assert NamesOf(tools[..k + 1]) == NamesOf(tools[..k]) + {tools[k].name};
  }

  lemma SchemasStep(tools: seq<ToolDescriptor>, k: nat)
    requires k < |tools|
    ensures SchemasOf(tools[..k + 1]) == SchemasOf(tools[..k]) + [SchemaOf(tools[k])]
  {
  }

  /** The registry and the advertised list grow by the same names. */
  lemma RegistrationKeepsNames(m: map<string, SessionId>, schemas: seq<ToolSchema>, tools: seq<ToolDescriptor>, s: SessionId)
    requires forall n :: n in m <==> n in SchemaNames(schemas)
    ensures forall n :: n in Registered(m, tools, s) <==> n in SchemaNames(schemas + SchemasOf(tools))
  {
    var all := schemas + SchemasOf(tools);
    forall n
      ensures n in Registered(m, tools, s) <==> n in SchemaNames(all)
    {
      if n in NamesOf(tools) {
        var i :| 0 <= i < |tools| && tools[i].name == n;
        assert all[|schemas| + i].name == n;
      }
      if n in SchemaNames(all) {
        var i :| 0 <= i < |all| && all[i].name == n;
        if i < |schemas| {
          assert schemas[i].name == n;
        } else {
          assert tools[i - |schemas|].name == n;
        }
      }
      if n in SchemaNames(schemas) {
        var i :| 0 <= i < |schemas| && schemas[i].name == n;
        assert all[i].name == n;
      }
    }
  }

  /** Routing through the registry: a name it does not hold raises KeyError. */
  function RegistryRouter(m: map<string, SessionId>): (route: Router)
    ensures forall n :: n in m ==> route(n) == Routed(m[n])
    ensures forall n :: n !in m ==> route(n) == Unroutable(UnknownTool(n))
  {
    (n: string) => if n in m then Routed(m[n]) else Unroutable(UnknownTool(n))
  }

  /** `format_tokens`: the plain decimal below 1000, a one-decimal count of thousands ending in "k"
      from 1000 on. The digits use halves rounded up (see README). Below 1000 the count is
      `str(count)`; a count is shown in thousands exactly when it is at least 1000, and that form
      has one digit after the point. */
  function FormatTokens(count: int): (r: string)
    ensures |r| >= 1
    ensures count < 1000 ==> r == IntString(count)
    ensures r[|r| - 1] == 'k' <==> count >= 1000
    ensures count >= 1000 ==> |r| >= 4 && r[|r| - 3] == '.' && IsDigits([r[|r| - 2]])
  {
    if count >= 1000 then
      var tenths := (count + 50) / 100;
      DecimalString(tenths / 10) + "." + [DigitChar(tenths % 10)] + "k"
    else
      var s := IntString(count);
      assert count < 0 ==> s[|s| - 1] == s[1..][|s| - 2];
      s
  }

  /** Counts below 1000 are printed as the number itself: reading the string back gives the count. */
  lemma FormatTokensSmall(count: nat)
    requires count < 1000
    ensures IsDigits(FormatTokens(count)) && ParseDecimal(FormatTokens(count)) == count
  {
    DecimalRoundTrip(count);
  }

  const TokenMarker := "\U{1F522} Tokens:"

  /** The line `print_token_usage` prints: the token marker, then the two counts and the two totals. */
  function TokenLine(input: int, output: int, totalInput: int, totalOutput: int): (r: string)
    ensures var counts := " " + FormatTokens(input) + "/" + FormatTokens(output) + " (Total: ";
            && |TokenMarker + counts| < |r| && r[..|TokenMarker + counts|] == TokenMarker + counts
            && r[|TokenMarker + counts|..|r| - 1] == FormatTokens(totalInput) + "/" + FormatTokens(totalOutput)
            && r[|r| - 1] == ')'
  {
    Framed(TokenMarker + (" " + FormatTokens(input) + "/" + FormatTokens(output) + " (Total: "),
           FormatTokens(totalInput) + "/" + FormatTokens(totalOutput))
  }

  /** A head, a middle and a closing parenthesis, which the result splits back into. */
  function Framed(head: string, middle: string): (r: string)
    ensures |head| < |r| && r[..|head|] == head && r[|head|..|r| - 1] == middle && r[|r| - 1] == ')'
  {
    var r := head + (middle + ")");
    assert r[|head|..|r| - 1] == middle;
    r
  }

  /** `response.usage` is truthy and holds the key. */
  function UsageCount(r: ChatResponse, key: string): nat {
    if r.usage.Some? && |r.usage.value| > 0 && key in r.usage.value then r.usage.value[key] else 0
  }

  /** Prompt and completion tokens a response reports; a missing field counts as 0. */
  function PromptTokens(r: ChatResponse): nat { UsageCount(r, "prompt_tokens") }
  function CompletionTokens(r: ChatResponse): nat { UsageCount(r, "completion_tokens") }

  function SumPrompt(rs: seq<ChatResponse>): nat {
    if rs == [] then 0 else SumPrompt(rs[..|rs| - 1]) + PromptTokens(rs[|rs| - 1])
  }

  function SumCompletion(rs: seq<ChatResponse>): nat {
    if rs == [] then 0 else SumCompletion(rs[..|rs| - 1]) + CompletionTokens(rs[|rs| - 1])
  }

  /** Receiving one more response adds exactly its counts. */
  lemma SumsStep(rs: seq<ChatResponse>, r: ChatResponse)
    ensures SumPrompt(rs + [r]) == SumPrompt(rs) + PromptTokens(r)
    ensures SumCompletion(rs + [r]) == SumCompletion(rs) + CompletionTokens(r)
  {
    assert (rs + [r])[..|rs|] == rs;
  }

  /** How `json.loads` of a call's arguments prints as a Python dict: library code, a parameter. */
  type ArgsRepr = string -> string

  /** One line `process_query` prints: a `print_token_usage` line, kept as its four numbers, or text. */
  datatype OutputLine =
    | UsageLine(input: nat, output: nat, totalInput: nat, totalOutput: nat)
    | TextLine(text: string)

  function LineText(l: OutputLine): string {
    match l
    case UsageLine(i, o, ti, to) => TokenLine(i, o, ti, to)
    case TextLine(s) => s
  }

  function CallLines(calls: seq<ToolCall>, repr: ArgsRepr): (lines: seq<OutputLine>)
    ensures |lines| == |calls|
    ensures forall k :: 0 <= k < |calls| ==>
              lines[k] == TextLine("Calling tool " + calls[k].name + " with args " + repr(calls[k].arguments))
  {
    seq(|calls|, k requires 0 <= k < |calls| => TextLine("Calling tool " + calls[k].name + " with args " + repr(calls[k].arguments)))
  }

  /** What `process_query` prints for one response, given the totals once its usage is counted:
      the token line when usage is reported, the content when it is truthy, then one line per
      requested tool call. A round that raises prints the call lines only up to the failing call;
      that case is not modelled here, since its output is discarded by the web handler. */
  function ResponseLines(r: ChatResponse, totalInput: nat, totalOutput: nat, repr: ArgsRepr): (lines: seq<OutputLine>)
    ensures var u := if r.usage.Some? && |r.usage.value| > 0 then 1 else 0;
            var c := if Truthy(r.content) then 1 else 0;
            var calls := if HasItems(r.toolCalls) then r.toolCalls.value else [];
            && |lines| == u + c + |calls|
            && (u == 1 ==> lines[0] == UsageLine(PromptTokens(r), CompletionTokens(r), totalInput, totalOutput))
            && (c == 1 ==> lines[u] == TextLine(r.content.value))
            && (forall k :: 0 <= k < |calls| ==> lines[u + c + k] == CallLines(calls, repr)[k])
  {
    var usage := if r.usage.Some? && |r.usage.value| > 0 then [UsageLine(PromptTokens(r), CompletionTokens(r), totalInput, totalOutput)] else [];
    var text := if Truthy(r.content) then [TextLine(r.content.value)] else [];
    var calls := if HasItems(r.toolCalls) then CallLines(r.toolCalls.value, repr) else [];
    var lines := usage + text + calls;
    assert forall k :: 0 <= k < |calls| ==> lines[|usage| + |text| + k] == calls[k];
    lines
  }

  /** Everything `process_query` prints while it receives `rs`, from totals `input` and `output`,
      for a query whose tool rounds all complete. */
  function QueryOutput(rs: seq<ChatResponse>, input: nat, output: nat, repr: ArgsRepr): (out: seq<OutputLine>)
    ensures forall k :: 0 <= k < |out| && out[k].UsageLine? ==>
              && input <= out[k].totalInput <= input + SumPrompt(rs)
              && output <= out[k].totalOutput <= output + SumCompletion(rs)
    ensures forall j, k :: 0 <= j < k < |out| && out[j].UsageLine? && out[k].UsageLine? ==>
              out[j].totalInput <= out[k].totalInput && out[j].totalOutput <= out[k].totalOutput
  {
    if rs == [] then []
    else QueryOutput(rs[..|rs| - 1], input, output, repr)
         + ResponseLines(rs[|rs| - 1], input + SumPrompt(rs), output + SumCompletion(rs), repr)
  }

  /** The output ends with the final answer, and the token line just before it carries the totals
      reached once the query is done. */
  lemma QueryOutputEnds(rs: seq<ChatResponse>, input: nat, output: nat, repr: ArgsRepr)
    requires rs != [] && IsFinal(rs[|rs| - 1])
    ensures var out := QueryOutput(rs, input, output, repr);
            var last := rs[|rs| - 1];
            && |out| >= 1 && out[|out| - 1] == TextLine(last.content.value)
            && (last.usage.Some? && |last.usage.value| > 0 ==>
                  |out| >= 2 && out[|out| - 2] == UsageLine(PromptTokens(last), CompletionTokens(last),
                                                            input + SumPrompt(rs), output + SumCompletion(rs)))
  {
  }

  /** The messages that may stand in the history: user and assistant text, never tool traffic. */
  predicate IsHistoryMessage(m: ChatMessage) {
    (m.role == "user" || m.role == "assistant") && m.content.Some? && m.toolCalls == None && m.toolCallId == None
  }

  /** The registry routes exactly the advertised names, each to a connected session. */
  ghost predicate RegistryMatches(registry: map<string, SessionId>, advertised: seq<ToolSchema>, sessions: seq<SessionId>) {
    && (forall n :: n in registry <==> n in SchemaNames(advertised))
    && (forall n :: n in registry ==> registry[n] in sessions)
  }

  /** The history holds user and assistant text only. */
  ghost predicate HistoryText(history: seq<ChatMessage>) {
    forall i :: 0 <= i < |history| ==> IsHistoryMessage(history[i])
  }

  /** `LLMFactory.create_adapter(**LLM_CONFIGS["gpt4.1-mini"])`, which cannot fail while
      "openrouter" is registered. */
  function DefaultAdapterOf(factory: LlmFactory.LLMFactory): LlmFactory.Adapter
    reads factory
    requires "openrouter" in factory.adapters
  {
    LlmFactory.DefaultConfigEntry();
    var c := LlmFactory.ConfigNamed("gpt4.1-mini").value;
    LlmFactory.ConfigsCreatable(factory, "gpt4.1-mini");
    factory.CreateAdapter(c.provider, c.model, LlmFactory.OptionsOf(c)).value
  }

  /** How a server connection attempt went. */
  datatype Connection =
    | Connected(session: SessionId, tools: seq<ToolDescriptor>)
    | ConnectFailed(reason: string)                      // launch or initialise raised
    | ListingFailed(session: SessionId, reason: string)  // the session was kept, `list_tools` raised

  /** The console commands of `chat_loop`, recognised after strip and lower-casing. */
  datatype Command = Quit | Clear | History | Query(text: string)

  function ParseCommand(line: string): (c: Command)
    ensures c == Quit <==> AsciiLower(Strip(line)) == "quit"
    ensures c == Clear <==> AsciiLower(Strip(line)) == "clear"
    ensures c == History <==> AsciiLower(Strip(line)) == "history"
    ensures c.Query? ==> c.text == Strip(line)
  {
    var query := Strip(line);
    if AsciiLower(query) == "quit" then Quit
    else if AsciiLower(query) == "clear" then Clear
    else if AsciiLower(query) == "history" then History
    else Query(query)
  }

  /** What one command did. */
  datatype CommandResult = Exited | Cleared | ShowedHistory(lines: seq<string>) | Queried(trace: Trace)

  function HistoryHeader(n: nat): string {
    "\n\U{1F4DC} Conversation History (" + DecimalString(n) + " messages):"
  }

  const NotSubscriptable := "'ChatMessage' object is not subscriptable"

  /** The `history` command as written: the header, then `msg['role']` on a dataclass raises
      TypeError at the first message, which the loop prints as an error. */
  function HistoryOutputAsWritten(history: seq<ChatMessage>): (lines: seq<string>) {
    [HistoryHeader(|history|)] + (if history == [] then [] else ["\n❌ Error: " + NotSubscriptable])
  }

  /** A non-empty history is never listed: one message gives the header and the error, nothing else. */
  lemma HistoryAsWrittenFails(m: ChatMessage)
    ensures HistoryOutputAsWritten([m]) == [HistoryHeader(1), "\n❌ Error: " + NotSubscriptable]
    ensures HistoryOutputAsWritten([m]) != HistoryOutput([m])
  {
    var shown := "\n❌ Error: " + NotSubscriptable;
    assert HistoryOutputAsWritten([m])[1] == shown && shown[0] == '\n';
    assert HistoryOutput([m])[1][0] == ' ';
  }

  /** The emoji a listed message of this role gets. */
  function RoleEmoji(role: string): string {
    if role == "user" then "\U{1F9D1}" else "\U{1F916}"
  }

  /** One listed message: indented, numbered from 1, role emoji and role, then the first 100
      characters of the content, with "..." after longer content. */
  function HistoryLine(i: nat, m: ChatMessage): (line: string)
    ensures |line| > 0 && line[0] == ' '
    ensures var head := "  " + DecimalString(i + 1) + (". " + RoleEmoji(m.role) + " " + m.role + ": ");
            var content := m.content.GetOr("");
            && |head| <= |line| && line[..|head|] == head
            && (|content| <= 100 ==> line[|head|..] == content)
            && (|content| > 100 ==> line[|head|..] == content[..100] + "...")
  {
    var content := m.content.GetOr("");
    var head := "  " + DecimalString(i + 1) + (". " + RoleEmoji(m.role) + " " + m.role + ": ");
    var shown := if |content| > 100 then content[..100] + "..." else content;
    head + shown
  }

  /** The number of a listed line reads back as its 1-based position. */
  lemma HistoryLineNumber(i: nat, m: ChatMessage)
    ensures var n := DecimalString(i + 1);
            var line := HistoryLine(i, m);
            && 2 + |n| <= |line| && line[..2] == "  " && IsDigits(line[2..2 + |n|])
            && ParseDecimal(line[2..2 + |n|]) == i + 1 && line[2 + |n|] == '.'
  {
    var rest := ". " + RoleEmoji(m.role) + " " + m.role + ": ";
    NumberedPrefix(HistoryLine(i, m), DecimalString(i + 1), rest);
    DecimalRoundTrip(i + 1);
  }

  /** A line that starts with two spaces, `n` and then a dot has `n` at positions 2 onwards. */
  lemma NumberedPrefix(line: string, n: string, rest: string)
    requires |rest| > 0 && rest[0] == '.'
    requires |"  " + n + rest| <= |line| && line[..|"  " + n + rest|] == "  " + n + rest
    ensures 2 + |n| < |line| && line[..2] == "  " && line[2..2 + |n|] == n && line[2 + |n|] == '.'
  {
    var head := "  " + n + rest;
    assert line[..2] == head[..2] && line[2..2 + |n|] == head[2..2 + |n|];
    assert line[2 + |n|] == head[2 + |n|];
  }

  /** The `history` command as evidently intended: the header and one line per message, in order. */
  function HistoryOutput(history: seq<ChatMessage>): (lines: seq<string>)
    ensures |lines| == |history| + 1 && lines[0] == HistoryHeader(|history|)
    ensures forall i :: 0 <= i < |history| ==> lines[i + 1] == HistoryLine(i, history[i])
  {
    [HistoryHeader(|history|)] + seq(|history|, i requires 0 <= i < |history| => HistoryLine(i, history[i]))
  }

  class MCPChatBot {
    var sessions: seq<SessionId>
    var llmAdapter: LlmFactory.Adapter
    var availableTools: seq<ToolSchema>
    var toolToSession: map<string, SessionId>
    var conversationHistory: seq<ChatMessage>
    var totalInputTokens: nat
    var totalOutputTokens: nat

    /** The registry routes exactly the advertised names, each to a connected session, and the
        history holds user and assistant text only. */
    ghost predicate Valid()
      reads this
    {
      RegistryMatches(toolToSession, availableTools, sessions) && HistoryText(conversationHistory)
    }

    /** Without an adapter, the one `LLM_CONFIGS["gpt4.1-mini"]` creates through the factory. */
    constructor (llmAdapter: Option<LlmFactory.Adapter>, factory: LlmFactory.LLMFactory)
      requires llmAdapter.None? ==> "openrouter" in factory.adapters
      ensures Valid()
      ensures sessions == [] && availableTools == [] && toolToSession == map[] && conversationHistory == []
      ensures totalInputTokens == 0 && totalOutputTokens == 0
      ensures this.llmAdapter == if llmAdapter.Some? then llmAdapter.value else DefaultAdapterOf(factory)
    {
      sessions := [];
      if llmAdapter.Some? {
        this.llmAdapter := llmAdapter.value;
      } else {
        this.llmAdapter := DefaultAdapterOf(factory);
      }
      availableTools := [];
      toolToSession := map[];
      conversationHistory := [];
      totalInputTokens := 0;
      totalOutputTokens := 0;
    }

    /** `connect_to_server`: a failed connection changes nothing (or keeps only the session when the
        listing failed); a successful one registers every listed tool under its session and appends
        one function entry per tool, in listing order, duplicates included. */
    method ConnectToServer(serverName: string, connection: Connection)
      requires Valid()
      modifies this
      ensures Valid()
      ensures conversationHistory == old(conversationHistory) && llmAdapter == old(llmAdapter)
      ensures totalInputTokens == old(totalInputTokens) && totalOutputTokens == old(totalOutputTokens)
      ensures match connection
              case ConnectFailed(_) =>
                sessions == old(sessions) && toolToSession == old(toolToSession) && availableTools == old(availableTools)
              case ListingFailed(s, _) =>
                sessions == old(sessions) + [s] && toolToSession == old(toolToSession) && availableTools == old(availableTools)
              case Connected(s, tools) =>
                && sessions == old(sessions) + [s]
                && toolToSession == Registered(old(toolToSession), tools, s)
                && availableTools == old(availableTools) + SchemasOf(tools)
    {
      if connection.ConnectFailed? {
        return;
      }
      sessions := sessions + [connection.session];
      if connection.ListingFailed? {
        return;
      }
      var session := connection.session;
      var tools := connection.tools;
      RegistrationKeepsNames(toolToSession, availableTools, tools, session);
      ghost var registry := toolToSession;
      ghost var advertised := availableTools;
      for k := 0 to |tools|
        invariant toolToSession == Registered(registry, tools[..k], session)
        invariant availableTools == advertised + SchemasOf(tools[..k])
        invariant sessions == old(sessions) + [session]
        invariant conversationHistory == old(conversationHistory) && llmAdapter == old(llmAdapter)
        invariant totalInputTokens == old(totalInputTokens) && totalOutputTokens == old(totalOutputTokens)
      {
        RegisteredStep(registry, tools, k, session);
        SchemasStep(tools, k);
        toolToSession := toolToSession[tools[k].name := session];
        availableTools := availableTools + [SchemaOf(tools[k])];
      }
      assert tools[..|tools|] == tools;
    }

    /** `print_token_usage`: both totals grow by exactly the given counts; returns the printed line. */
    method PrintTokenUsage(inputTokens: nat, outputTokens: nat) returns (line: string)
      modifies this`totalInputTokens, this`totalOutputTokens
      ensures totalInputTokens == old(totalInputTokens) + inputTokens
      ensures totalOutputTokens == old(totalOutputTokens) + outputTokens
      ensures line == TokenLine(inputTokens, outputTokens, totalInputTokens, totalOutputTokens)
    {
      var totalInput := totalInputTokens + inputTokens;
      var totalOutput := totalOutputTokens + outputTokens;
      line := TokenLine(inputTokens, outputTokens, totalInput, totalOutput);
      totalInputTokens, totalOutputTokens := totalInput, totalOutput;
    }

    /** Records the usage of one response, as the loop does after every completion. */
    method TrackUsage(response: ChatResponse)
      modifies this`totalInputTokens, this`totalOutputTokens
      ensures totalInputTokens == old(totalInputTokens) + PromptTokens(response)
      ensures totalOutputTokens == old(totalOutputTokens) + CompletionTokens(response)
    {
      if response.usage.Some? && |response.usage.value| > 0 {
        var _ := PrintTokenUsage(PromptTokens(response), CompletionTokens(response));
      }
    }

    /** The loop of `process_query` on the working copy `messages` of the history: the trace the
        tool loop specifies, with the totals grown by the usage of every response received. */
    method RunQuery(messages: seq<ChatMessage>, tools: seq<ToolSchema>, route: Router,
                    script: seq<LlmReply>, server: ToolServer) returns (t: Trace)
      modifies this`totalInputTokens, this`totalOutputTokens
      ensures t == Converse(messages, tools, script, route, server)
      ensures totalInputTokens == old(totalInputTokens) + SumPrompt(t.received)
      ensures totalOutputTokens == old(totalOutputTokens) + SumCompletion(t.received)
    {
      var messages := messages;
      ghost var spec := Converse(messages, tools, script, route, server);
      if script == [] {
        return Trace(messages, [], [], ScriptExhausted);
      }
      var requests := [Request(messages, tools, MaxTokens)];
      if script[0].Unavailable? {
        return Trace(messages, requests, [], Raised(BackendFailed(script[0].message)));
      }
      var response := script[0].response;
      var received := [response];
      SumsStep([], response);
      assert [] + [response] == received;
      TrackUsage(response);
      var i := 1;
      var processQuery := true;
      while processQuery
        invariant 1 <= i <= |script|
        invariant spec == After(requests, received, Handle(messages, response, tools, script[i..], route, server))
        invariant !processQuery ==> IsFinal(response)
        invariant totalInputTokens == old(totalInputTokens) + SumPrompt(received)
        invariant totalOutputTokens == old(totalOutputTokens) + SumCompletion(received)
        decreases |script| - i, if processQuery then 1 else 0
      {
        if Truthy(response.content) {
          if !HasItems(response.toolCalls) {
            processQuery := false;
          }
        }
        if HasItems(response.toolCalls) {
          HandleToolRound(messages, response, tools, script[i..], route, server);
          messages := messages + [ToolCallMessage(response)];
          var d := CallTools(response.toolCalls.value, route, server);
          messages := messages + d.results;
          if d.failure.Some? {
            assert received + [] == received;
            return After(requests, received, Trace(messages, [], [], Raised(d.failure.value)));
          }
          if i == |script| {
            assert received + [] == received;
            return After(requests, received, Trace(messages, [], [], ScriptExhausted));
          }
          ConverseAt(messages, tools, script, i, route, server);
          var request := Request(messages, tools, MaxTokens);
          if script[i].Unavailable? {
            assert received + [] == received;
            return After(requests + [request], received, Trace(messages, [], [], Raised(BackendFailed(script[i].message))));
          }
          AfterAfter(requests, received, [request], [script[i].response],
                     Handle(messages, script[i].response, tools, script[i + 1..], route, server));
          requests := requests + [request];
          response := script[i].response;
          SumsStep(received, response);
          received := received + [response];
          TrackUsage(response);
          i := i + 1;
          if Truthy(response.content) && !HasItems(response.toolCalls) {
            processQuery := false;
          }
        } else if !Truthy(response.content) {
          // Neither content nor tool calls: the source's loop repeats for ever from here.
          assert received + [] == received;
          return After(requests, received, Trace(messages, [], [], Spins));
        }
      }
      t := Trace(messages, requests, received, Answered(response.content.value));
    }

    /** `process_query`: the user message goes into the history first; the loop runs on a copy of
        the history, so tool traffic never reaches it; only the final answer, when one arrived, is
        added after it. The totals grow by the usage of every response received. */
    method ProcessQuery(query: string, script: seq<LlmReply>, server: ToolServer) returns (t: Trace)
      requires Valid()
      modifies this
      ensures Valid()
      ensures t == Converse(old(conversationHistory) + [UserMessage(query)], old(availableTools), script,
                            RegistryRouter(old(toolToSession)), server)
      ensures conversationHistory == old(conversationHistory) + [UserMessage(query)]
                                     + (if t.outcome.Answered? then [AssistantMessage(t.outcome.content)] else [])
      ensures totalInputTokens == old(totalInputTokens) + SumPrompt(t.received)
      ensures totalOutputTokens == old(totalOutputTokens) + SumCompletion(t.received)
      ensures sessions == old(sessions) && llmAdapter == old(llmAdapter)
      ensures availableTools == old(availableTools) && toolToSession == old(toolToSession)
    {
      conversationHistory := conversationHistory + [UserMessage(query)];
      t := RunQuery(conversationHistory, availableTools, RegistryRouter(toolToSession), script, server);
      if t.outcome.Answered? {
        conversationHistory := conversationHistory + [AssistantMessage(t.outcome.content)];
      }
    }

    /** One turn of `chat_loop`: `quit` and `history` leave the state as it is, `clear` empties the
        history and zeroes both totals, and anything else is processed as a query. An exception of
        the query is printed by the loop and leaves the state the query reached. */
    method HandleCommand(line: string, script: seq<LlmReply>, server: ToolServer) returns (result: CommandResult)
      requires Valid()
      modifies this
      ensures Valid()
      ensures sessions == old(sessions) && llmAdapter == old(llmAdapter)
      ensures availableTools == old(availableTools) && toolToSession == old(toolToSession)
      ensures match ParseCommand(line)
              case Quit =>
                && result == Exited && conversationHistory == old(conversationHistory)
                && totalInputTokens == old(totalInputTokens) && totalOutputTokens == old(totalOutputTokens)
              case History =>
                && result == ShowedHistory(HistoryOutput(old(conversationHistory)))
                && conversationHistory == old(conversationHistory)
                && totalInputTokens == old(totalInputTokens) && totalOutputTokens == old(totalOutputTokens)
              case Clear =>
                result == Cleared && conversationHistory == [] && totalInputTokens == 0 && totalOutputTokens == 0
              case Query(q) =>
                && result.Queried?
                && result.trace == Converse(old(conversationHistory) + [UserMessage(q)], old(availableTools), script,
                                            RegistryRouter(old(toolToSession)), server)
                && conversationHistory == old(conversationHistory) + [UserMessage(q)]
                     + (if result.trace.outcome.Answered? then [AssistantMessage(result.trace.outcome.content)] else [])
                && totalInputTokens == old(totalInputTokens) + SumPrompt(result.trace.received)
                && totalOutputTokens == old(totalOutputTokens) + SumCompletion(result.trace.received)
    {
      var command := ParseCommand(line);
      match command
      case Quit =>
        result := Exited;
      case Clear =>
        conversationHistory := [];
        totalInputTokens := 0;
        totalOutputTokens := 0;
        result := Cleared;
      case History =>
        result := ShowedHistory(HistoryOutput(conversationHistory));
      case Query(q) =>
        var t := ProcessQuery(q, script, server);
        result := Queried(t);
    }
  }
}
