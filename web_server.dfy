/** The WebSocket handler of the web front end: the events it sends when a client connects, how it
    captures what `process_query` prints into one assistant message and a token line, and how it
    answers `chat` and `clear` messages. Sockets and JSON encoding are not modelled: events are
    values, and a received message is its two relevant fields. */
module WebServer {
  import opened Wrappers
  import opened PyText
  import opened LlmAdapter
  import opened Orchestration
  import LlmFactory
  import MultiServerChatbot

  const TokenMarker := MultiServerChatbot.TokenMarker

  /** A printed line goes to the token slot when it contains the marker. */
  predicate IsTokenLine(line: string) {
    Contains(line, TokenMarker)
  }

  /** The printed lines that belong to the message, in order. */
  function MessageLines(lines: seq<string>): seq<string> {
    if lines == [] then []
    else MessageLines(lines[..|lines| - 1])
         + (if IsTokenLine(lines[|lines| - 1]) then [] else [lines[|lines| - 1]])
  }

  /** Empty lines printed before the first non-empty one leave `current_message` falsy and are lost:
      what remains is the suffix after the leading empty lines. */
  function DropLeadingEmpty(lines: seq<string>): (r: seq<string>)
    ensures r == [] || r[0] != ""
  {
    if lines == [] then [] else if lines[0] == "" then DropLeadingEmpty(lines[1..]) else lines
  }

  /** The lines joined by newlines. */
  function JoinLines(lines: seq<string>): string {
    if lines == [] then ""
    else if |lines| == 1 then lines[0]
    else JoinLines(lines[..|lines| - 1]) + "\n" + lines[|lines| - 1]
  }

  /** The last printed line holding the marker, or "" when there is none. */
  function LastTokenLine(lines: seq<string>): (r: string)
    ensures r == "" <==> forall k :: 0 <= k < |lines| ==> !IsTokenLine(lines[k])
    ensures r != "" ==> IsTokenLine(r) && r in lines
    ensures r != "" ==> exists k :: 0 <= k < |lines| && lines[k] == r && forall j :: k < j < |lines| ==> !IsTokenLine(lines[j])
  {
    if lines == [] then ""
    else if IsTokenLine(lines[|lines| - 1]) then
      var line := lines[|lines| - 1];
      assert |line| >= |TokenMarker| && |TokenMarker| > 0;
      line
    else LastTokenLine(lines[..|lines| - 1])
  }

  /** Dropping the leading empty lines keeps the suffix after them: every dropped line is empty, and
      what remains is empty or starts with a non-empty line. */
  lemma {:induction false} DropLeadingEmptySuffix(lines: seq<string>)
    ensures var r := DropLeadingEmpty(lines);
            && |r| <= |lines| && r == lines[|lines| - |r|..]
            && (forall i :: 0 <= i < |lines| - |r| ==> lines[i] == "")
            && (r == [] || r[0] != "")
  {
    if lines != [] && lines[0] == "" {
      DropLeadingEmptySuffix(lines[1..]);
      var r := DropLeadingEmpty(lines);
      forall i | 0 <= i < |lines| - |r|
        ensures lines[i] == ""
      {
        if i > 0 {
          assert lines[i] == lines[1..][i - 1];
        }
      }
    }
  }

  /** The positions of the printed lines that are not token lines, in increasing order. */
  function MessagePositions(lines: seq<string>): (ps: seq<nat>)
    ensures forall j :: 0 <= j < |ps| ==> ps[j] < |lines|
  {
    if lines == [] then []
    else MessagePositions(lines[..|lines| - 1])
         + (if IsTokenLine(lines[|lines| - 1]) then [] else [|lines| - 1])
  }

  /** The positions increase, each is a line that is not a token line, and every printed line that
      is not a token line has one. */
  lemma {:induction false} MessagePositionsShape(lines: seq<string>)
    ensures var ps := MessagePositions(lines);
            && |ps| <= |lines|
            && (forall j :: 0 <= j < |ps| ==> !IsTokenLine(lines[ps[j]]))
            && (forall j, j' :: 0 <= j < j' < |ps| ==> ps[j] < ps[j'])
            && (forall k :: 0 <= k < |lines| && !IsTokenLine(lines[k]) ==> k in ps)
  {
    if lines != [] {
      var init := lines[..|lines| - 1];
      MessagePositionsShape(init);
      var ps, ps0 := MessagePositions(lines), MessagePositions(init);
      forall j | 0 <= j < |ps|
        ensures !IsTokenLine(lines[ps[j]])
      {
        if j < |ps0| {
          assert ps[j] == ps0[j] && lines[ps0[j]] == init[ps0[j]];
        }
      }
      forall k | 0 <= k < |lines| && !IsTokenLine(lines[k])
        ensures k in ps
      {
        if k < |init| {
          assert init[k] == lines[k] && k in ps0;
        } else {
          assert ps == ps0 + [k];
        }
      }
    }
  }

  /** Message line `j` is the printed line at position `j`. */
  lemma {:induction false} MessageLinesAt(lines: seq<string>)
    ensures |MessageLines(lines)| == |MessagePositions(lines)|
    ensures forall j :: 0 <= j < |MessagePositions(lines)| ==> MessageLines(lines)[j] == lines[MessagePositions(lines)[j]]
  {
    if lines != [] {
      var init := lines[..|lines| - 1];
      MessageLinesAt(init);
      var ms, ps := MessageLines(lines), MessagePositions(lines);
      var ms0, ps0 := MessageLines(init), MessagePositions(init);
      forall j | 0 <= j < |ps|
        ensures ms[j] == lines[ps[j]]
      {
        if j < |ps0| {
          assert ms[j] == ms0[j] && ps[j] == ps0[j] && lines[ps0[j]] == init[ps0[j]];
        }
      }
    }
  }

  /** The message lines are the printed lines without the token lines, each kept once and in print
      order: line `j` of the message is the printed line at the `j`-th position that is not a token
      line, the positions increase, and every printed line that is not a token line has one. */
  lemma MessageLinesFilter(lines: seq<string>)
    ensures var ms, ps := MessageLines(lines), MessagePositions(lines);
            && |ms| == |ps| <= |lines|
            && (forall j :: 0 <= j < |ps| ==> ms[j] == lines[ps[j]] && !IsTokenLine(lines[ps[j]]))
            && (forall j, j' :: 0 <= j < j' < |ps| ==> ps[j] < ps[j'])
            && (forall k :: 0 <= k < |lines| && !IsTokenLine(lines[k]) ==> k in ps)
    ensures forall k :: 0 <= k < |MessageLines(lines)| ==> !IsTokenLine(MessageLines(lines)[k])
  {
    MessagePositionsShape(lines);
    MessageLinesAt(lines);
  }

  /** A printed line that is not a token line appears among the message lines, and only those do. */
  lemma MessageLinesMembers(lines: seq<string>)
    ensures forall l :: l in lines && !IsTokenLine(l) <==> l in MessageLines(lines)
  {
    MessageLinesFilter(lines);
    var ms, ps := MessageLines(lines), MessagePositions(lines);
    forall l
      ensures l in lines && !IsTokenLine(l) <==> l in ms
    {
      if l in lines && !IsTokenLine(l) {
        var k :| 0 <= k < |lines| && lines[k] == l;
        var j :| 0 <= j < |ps| && ps[j] == k;
        assert ms[j] == l;
      }
      if l in ms {
        var j :| 0 <= j < |ms| && ms[j] == l;
        assert lines[ps[j]] == l;
      }
    }
  }

  lemma {:induction false} DropLeadingEmptyStep(lines: seq<string>, line: string)
    ensures DropLeadingEmpty(lines + [line]) ==
            if DropLeadingEmpty(lines) == [] then (if line == "" then [] else [line])
            else DropLeadingEmpty(lines) + [line]
    decreases |lines|
  {
    if lines == [] {
      assert lines + [line] == [line];
      assert [line][1..] == [];
    } else {
      assert (lines + [line])[0] == lines[0];
      assert (lines + [line])[1..] == lines[1..] + [line];
      if lines[0] == "" {
        DropLeadingEmptyStep(lines[1..], line);
      }
    }
  }

  lemma {:induction false} JoinLinesNonEmpty(lines: seq<string>)
    requires lines != [] && lines[0] != ""
    ensures JoinLines(lines) != ""
    decreases |lines|
  {
    if |lines| > 1 {
      JoinLinesNonEmpty(lines[..|lines| - 1]);
    }
  }

  lemma JoinLinesStep(lines: seq<string>, line: string)
    ensures JoinLines(lines + [line]) == if lines == [] then line else JoinLines(lines) + "\n" + line
  {
    if lines != [] {
      assert (lines + [line])[..|lines|] == lines;
    }
  }

  /** The message ends with the last message line when that one is not empty. */
  lemma JoinLinesEnds(lines: seq<string>)
    requires lines != []
    ensures var j := JoinLines(lines); var l := lines[|lines| - 1];
            |l| <= |j| && j[|j| - |l|..] == l
  {
  }

  /** `capture_print` applied to every line `process_query` prints: token lines overwrite the token
      slot, every other line is appended to the message after a newline, or replaces it while it
      is still empty. */
  method CaptureLines(lines: seq<string>) returns (currentMessage: string, tokenInfo: string)
    ensures currentMessage == JoinLines(DropLeadingEmpty(MessageLines(lines)))
    ensures tokenInfo == LastTokenLine(lines)
  {
    currentMessage, tokenInfo := "", "";
    for k := 0 to |lines|
      invariant currentMessage == JoinLines(DropLeadingEmpty(MessageLines(lines[..k])))
      invariant tokenInfo == LastTokenLine(lines[..k])
    {
      var line := lines[k];
      PrefixStep(lines, k);
      ghost var before := MessageLines(lines[..k]);
      if IsTokenLine(line) {
        assert MessageLines(lines[..k + 1]) == before + [] == before;
        tokenInfo := line;
      } else {
        assert MessageLines(lines[..k + 1]) == before + [line];
        MessageStep(before, line);
        if currentMessage != "" {
          currentMessage := currentMessage + "\n" + line;
        } else {
          currentMessage := line;
        }
      }
    }
    assert lines[..|lines|] == lines;
  }

  /** One more printed line: a token line replaces the token slot, any other joins the message lines. */
  lemma PrefixStep(lines: seq<string>, k: nat)
    requires k < |lines|
    ensures MessageLines(lines[..k + 1]) == MessageLines(lines[..k]) + (if IsTokenLine(lines[k]) then [] else [lines[k]])
    ensures LastTokenLine(lines[..k + 1]) == if IsTokenLine(lines[k]) then lines[k] else LastTokenLine(lines[..k])
  {
    assert lines[..k + 1][..k] == lines[..k];
  }

  /** Appending a message line: after a newline when the message is not empty, else in its place. */
  lemma MessageStep(before: seq<string>, line: string)
    ensures var m := JoinLines(DropLeadingEmpty(before));
            JoinLines(DropLeadingEmpty(before + [line])) == if m != "" then m + "\n" + line else line
  {
    var kept := DropLeadingEmpty(before);
    DropLeadingEmptyStep(before, line);
    JoinLinesStep(kept, line);
    if kept != [] {
      JoinLinesNonEmpty(kept);
    } else {
      assert [] + [line] == [line];
    }
  }

  /** The printed output as the strings `capture_print` receives. */
  function Rendered(out: seq<MultiServerChatbot.OutputLine>): (lines: seq<string>)
    ensures |lines| == |out| && forall k :: 0 <= k < |out| ==> lines[k] == MultiServerChatbot.LineText(out[k])
  {
    seq(|out|, k requires 0 <= k < |out| => MultiServerChatbot.LineText(out[k]))
  }

  /** The details a status event may carry. */
  datatype BotStatus = BotStatus(provider: string, model: string, caching: bool, tools: nat)

  /** One JSON text frame sent to the client, or closing the socket. */
  datatype Event =
    | ErrorEvent(message: string)
    | StatusEvent(message: string, status: Option<BotStatus>)
    | UserMessageEvent(message: string)
    | AssistantMessageEvent(message: string, tokens: Option<string>)
    | Close

  const NotInitialized := "Chatbot not initialized. Please try again later."
  const HistoryCleared := "\U{1F9F9} Conversation history cleared"

  /** What a client sends: `type` and `message` when present as strings. */
  datatype ClientMessage = ClientMessage(kind: Option<string>, text: Option<string>)

  /** The frames sent on accept: an error and close before initialisation, otherwise a status
      naming provider and model, with the caching flag and the number of advertised tools. */
  function OpeningEvents(initialized: bool, bot: MultiServerChatbot.MCPChatBot): (events: seq<Event>)
    reads bot
    ensures !initialized <==> events == [ErrorEvent(NotInitialized), Close]
    ensures initialized ==> |events| == 1 && events[0].StatusEvent? && events[0].status.Some?
    ensures initialized ==> events[0].status.value.tools == |bot.availableTools|
  {
    if !initialized then [ErrorEvent(NotInitialized), Close]
    else
      var provider := LlmFactory.ProviderName(bot.llmAdapter);
      var settings := LlmFactory.SettingsOf(bot.llmAdapter);
      [StatusEvent("\U{1F916} Connected to " + provider + " using " + settings.model,
                   Some(BotStatus(provider, settings.model, settings.enableCaching, |bot.availableTools|)))]
  }

  /** The frame sent after a query completed: an assistant message when anything but token lines
      was printed, with the last token line attached when there was one. */
  function AssistantEvents(currentMessage: string, tokenInfo: string): (events: seq<Event>)
    ensures events == [] <==> currentMessage == ""
    ensures events != [] ==> events == [AssistantMessageEvent(currentMessage, if tokenInfo == "" then None else Some(tokenInfo))]
  {
    if currentMessage == "" then []
    else [AssistantMessageEvent(currentMessage, if tokenInfo == "" then None else Some(tokenInfo))]
  }

  /** The events a completed query sends: the capture of what it printed when it answered, the
      error text when it raised, and nothing when it did not finish. */
  function QueryEvents(t: Trace, input: nat, output: nat, repr: MultiServerChatbot.ArgsRepr): (events: seq<Event>)
    ensures |events| <= 1
    ensures t.outcome.Raised? ==> events == [ErrorEvent("Error processing query: " + ErrorText(t.outcome.error))]
    ensures !t.outcome.Answered? && !t.outcome.Raised? ==> events == []
    ensures events != [] ==> (events[0].AssistantMessageEvent? <==> t.outcome.Answered?)
  {
    match t.outcome
    case Answered(_) =>
      var lines := Rendered(MultiServerChatbot.QueryOutput(t.received, input, output, repr));
      AssistantEvents(JoinLines(DropLeadingEmpty(MessageLines(lines))), LastTokenLine(lines))
    case Raised(e) => [ErrorEvent("Error processing query: " + ErrorText(e))]
    case _ => []
  }

  /** A `chat` message with a non-empty stripped query: the echo, then what processing it sends. */
  method HandleChat(bot: MultiServerChatbot.MCPChatBot, query: string,
                    script: seq<LlmReply>, server: ToolServer, repr: MultiServerChatbot.ArgsRepr)
    returns (events: seq<Event>)
    requires bot.Valid()
    modifies bot
    ensures bot.Valid()
    ensures bot.sessions == old(bot.sessions) && bot.llmAdapter == old(bot.llmAdapter)
    ensures bot.availableTools == old(bot.availableTools) && bot.toolToSession == old(bot.toolToSession)
    ensures var t := Converse(old(bot.conversationHistory) + [UserMessage(query)], old(bot.availableTools), script,
                              MultiServerChatbot.RegistryRouter(old(bot.toolToSession)), server);
            && events == [UserMessageEvent(query)] + QueryEvents(t, old(bot.totalInputTokens), old(bot.totalOutputTokens), repr)
            && bot.conversationHistory == old(bot.conversationHistory) + [UserMessage(query)]
                 + (if t.outcome.Answered? then [AssistantMessage(t.outcome.content)] else [])
            && bot.totalInputTokens == old(bot.totalInputTokens) + MultiServerChatbot.SumPrompt(t.received)
            && bot.totalOutputTokens == old(bot.totalOutputTokens) + MultiServerChatbot.SumCompletion(t.received)
  {
    var input, output := bot.totalInputTokens, bot.totalOutputTokens;
    var t := bot.ProcessQuery(query, script, server);
    var sent: seq<Event> := [];
    if t.outcome.Answered? {
      var currentMessage, tokenInfo := CaptureLines(Rendered(MultiServerChatbot.QueryOutput(t.received, input, output, repr)));
      sent := AssistantEvents(currentMessage, tokenInfo);
    } else if t.outcome.Raised? {
      sent := [ErrorEvent("Error processing query: " + ErrorText(t.outcome.error))];
    }
    assert sent == QueryEvents(t, input, output, repr);
    events := [UserMessageEvent(query)] + sent;
  }

  /** One received client message. `chat` strips its text and ignores it when empty; `clear`
      empties the history only (the totals stay) and reports it; any other type sends nothing. */
  method HandleClientMessage(bot: MultiServerChatbot.MCPChatBot, msg: ClientMessage,
                             script: seq<LlmReply>, server: ToolServer, repr: MultiServerChatbot.ArgsRepr)
    returns (events: seq<Event>)
    requires bot.Valid()
    modifies bot
    ensures bot.Valid()
    ensures bot.sessions == old(bot.sessions) && bot.llmAdapter == old(bot.llmAdapter)
    ensures bot.availableTools == old(bot.availableTools) && bot.toolToSession == old(bot.toolToSession)
    ensures msg.kind == Some("clear") ==>
              && events == [StatusEvent(HistoryCleared, None)] && bot.conversationHistory == []
              && bot.totalInputTokens == old(bot.totalInputTokens) && bot.totalOutputTokens == old(bot.totalOutputTokens)
    ensures (msg.kind != Some("chat") && msg.kind != Some("clear")) || (msg.kind == Some("chat") && Strip(msg.text.GetOr("")) == "") ==>
              && events == [] && bot.conversationHistory == old(bot.conversationHistory)
              && bot.totalInputTokens == old(bot.totalInputTokens) && bot.totalOutputTokens == old(bot.totalOutputTokens)
    ensures msg.kind == Some("chat") && Strip(msg.text.GetOr("")) != "" ==>
              var query := Strip(msg.text.GetOr(""));
              var t := Converse(old(bot.conversationHistory) + [UserMessage(query)], old(bot.availableTools), script,
                                MultiServerChatbot.RegistryRouter(old(bot.toolToSession)), server);
              && events == [UserMessageEvent(query)] + QueryEvents(t, old(bot.totalInputTokens), old(bot.totalOutputTokens), repr)
              && bot.conversationHistory == old(bot.conversationHistory) + [UserMessage(query)]
                   + (if t.outcome.Answered? then [AssistantMessage(t.outcome.content)] else [])
              && bot.totalInputTokens == old(bot.totalInputTokens) + MultiServerChatbot.SumPrompt(t.received)
              && bot.totalOutputTokens == old(bot.totalOutputTokens) + MultiServerChatbot.SumCompletion(t.received)
  {
    events := [];
    if msg.kind == Some("chat") {
      var query := Strip(msg.text.GetOr(""));
      if query != "" {
        events := HandleChat(bot, query, script, server, repr);
      }
    } else if msg.kind == Some("clear") {
      bot.conversationHistory := [];
      events := [StatusEvent(HistoryCleared, None)];
    }
  }

  /** Token lines never reach the assistant message, and the message is sent exactly when some
      non-empty line other than a token line was printed. */
  lemma CaptureSeparatesTokens(lines: seq<string>)
    ensures forall k :: 0 <= k < |DropLeadingEmpty(MessageLines(lines))| ==> !IsTokenLine(DropLeadingEmpty(MessageLines(lines))[k])
    ensures JoinLines(DropLeadingEmpty(MessageLines(lines))) == "" <==> DropLeadingEmpty(MessageLines(lines)) == []
  {
    var kept := DropLeadingEmpty(MessageLines(lines));
    var all := MessageLines(lines);
    MessageLinesFilter(lines);
    DropLeadingEmptySuffix(all);
    forall k | 0 <= k < |kept|
      ensures !IsTokenLine(kept[k])
    {
      assert kept[k] == all[|all| - |kept| + k];
    }
    if kept != [] {
      JoinLinesNonEmpty(kept);
    }
  }

  /** Every line `print_token_usage` prints is captured as token information. */
  lemma TokenLinesAreCaptured(input: int, output: int, totalInput: int, totalOutput: int)
    ensures IsTokenLine(MultiServerChatbot.TokenLine(input, output, totalInput, totalOutput))
  {
    ContainsPrefix(TokenMarker, " " + MultiServerChatbot.FormatTokens(input) + "/" + MultiServerChatbot.FormatTokens(output)
                   + " (Total: " + MultiServerChatbot.FormatTokens(totalInput) + "/" + MultiServerChatbot.FormatTokens(totalOutput) + ")");
  }

  /** When the last printed line is a non-empty message line, the message ends with it. */
  lemma MessageEndsWithLast(lines: seq<string>)
    requires lines != [] && lines[|lines| - 1] != "" && !IsTokenLine(lines[|lines| - 1])
    ensures var m := JoinLines(DropLeadingEmpty(MessageLines(lines))); var l := lines[|lines| - 1];
            m != "" && |l| <= |m| && m[|m| - |l|..] == l
  {
    var l := lines[|lines| - 1];
    var init := lines[..|lines| - 1];
    assert lines == init + [l];
    assert MessageLines(lines) == MessageLines(init) + [l];
    DropLeadingEmptyStep(MessageLines(init), l);
    var kept := DropLeadingEmpty(MessageLines(lines));
    assert kept != [] && kept[|kept| - 1] == l && kept[0] != "";
    JoinLinesNonEmpty(kept);
    JoinLinesEnds(kept);
  }

  /** When the line before the last is a token line and the last one is not, the line before the
      last is the captured token line. */
  lemma TokenLineBeforeLast(lines: seq<string>)
    requires |lines| >= 2 && IsTokenLine(lines[|lines| - 2]) && !IsTokenLine(lines[|lines| - 1])
    ensures LastTokenLine(lines) == lines[|lines| - 2]
  {
    assert lines[..|lines| - 1][|lines| - 2] == lines[|lines| - 2];
  }

  /** What an answered query printed, as far as the capture of its last two lines goes. */
  predicate EndsWithAnswer(out: seq<MultiServerChatbot.OutputLine>, answer: string) {
    out != [] && out[|out| - 1] == MultiServerChatbot.TextLine(answer)
  }

  lemma CaptureEndsWithAnswer(out: seq<MultiServerChatbot.OutputLine>, answer: string)
    requires EndsWithAnswer(out, answer) && answer != "" && !IsTokenLine(answer)
    ensures var m := JoinLines(DropLeadingEmpty(MessageLines(Rendered(out))));
            m != "" && |answer| <= |m| && m[|m| - |answer|..] == answer
  {
    MessageEndsWithLast(Rendered(out));
  }

  lemma CaptureTokensBeforeAnswer(out: seq<MultiServerChatbot.OutputLine>, answer: string)
    requires EndsWithAnswer(out, answer) && !IsTokenLine(answer)
    requires |out| >= 2 && out[|out| - 2].UsageLine?
    ensures LastTokenLine(Rendered(out)) == MultiServerChatbot.LineText(out[|out| - 2])
  {
    var u := out[|out| - 2];
    TokenLinesAreCaptured(u.input, u.output, u.totalInput, u.totalOutput);
    TokenLineBeforeLast(Rendered(out));
  }

  /** An answered query whose answer holds no token marker sends one assistant message, and that
      message ends with the answer. */
  lemma AnsweredQuerySendsAnswer(t: Trace, input: nat, output: nat, repr: MultiServerChatbot.ArgsRepr,
                                 messages: seq<ChatMessage>, tools: seq<ToolSchema>, script: seq<LlmReply>,
                                 route: Router, server: ToolServer)
    requires t == Converse(messages, tools, script, route, server)
    requires t.outcome.Answered? && !IsTokenLine(t.outcome.content)
    ensures |QueryEvents(t, input, output, repr)| == 1
    ensures var e := QueryEvents(t, input, output, repr)[0];
            && e.AssistantMessageEvent?
            && |t.outcome.content| <= |e.message|
            && e.message[|e.message| - |t.outcome.content|..] == t.outcome.content
  {
    ConverseShape(messages, tools, script, route, server);
    OutputSendsAnswer(t.received, input, output, repr);
  }

  /** An answer that holds the token marker is taken for a token line: a query answered by a single
      such response, without usage, sends no event at all. */
  lemma MarkerAnswerSendsNothing(messages: seq<ChatMessage>, tools: seq<ToolSchema>, answer: string,
                                 route: Router, server: ToolServer, input: nat, output: nat,
                                 repr: MultiServerChatbot.ArgsRepr)
    requires IsTokenLine(answer)
    ensures var t := Converse(messages, tools, [Reply(ChatResponse(Some(answer)))], route, server);
            && t.outcome == Answered(answer) && QueryEvents(t, input, output, repr) == []
  {
    var r := ChatResponse(Some(answer));
    assert |answer| >= |TokenMarker| > 0;
    assert [Reply(r)][1..] == [];
    var h := Handle(messages, r, tools, [], route, server);
    assert h == Trace(messages, [], [], Answered(answer));
    var t := Converse(messages, tools, [Reply(r)], route, server);
    assert t == Prepend(Request(messages, tools, MaxTokens), r, h);
    var out := MultiServerChatbot.QueryOutput([r], input, output, repr);
    assert [r][..0] == [] && MultiServerChatbot.QueryOutput([], input, output, repr) == [];
    assert MultiServerChatbot.ResponseLines(r, input + MultiServerChatbot.SumPrompt([r]),
                                            output + MultiServerChatbot.SumCompletion([r]), repr)
           == [MultiServerChatbot.TextLine(answer)];
    assert out == [MultiServerChatbot.TextLine(answer)];
    var lines := Rendered(out);
    assert lines == [answer];
    assert lines[..0] == [];
    assert MessageLines(lines) == [];
  }

  /** The capture of what a query printed when its last response is final: one assistant message,
      ending with that response's content. */
  lemma OutputSendsAnswer(rs: seq<ChatResponse>, input: nat, output: nat, repr: MultiServerChatbot.ArgsRepr)
    requires rs != [] && IsFinal(rs[|rs| - 1]) && !IsTokenLine(rs[|rs| - 1].content.value)
    ensures var lines := Rendered(MultiServerChatbot.QueryOutput(rs, input, output, repr));
            var answer := rs[|rs| - 1].content.value;
            var events := AssistantEvents(JoinLines(DropLeadingEmpty(MessageLines(lines))), LastTokenLine(lines));
            && |events| == 1 && events[0].AssistantMessageEvent?
            && |answer| <= |events[0].message| && events[0].message[|events[0].message| - |answer|..] == answer
  {
    var out := MultiServerChatbot.QueryOutput(rs, input, output, repr);
    MultiServerChatbot.QueryOutputEnds(rs, input, output, repr);
    CaptureEndsWithAnswer(out, rs[|rs| - 1].content.value);
  }

  /** When the final response reported usage, the assistant message carries the token line of that
      response, which shows the totals the bot holds once the query is done. */
  lemma AnsweredQuerySendsTotals(t: Trace, input: nat, output: nat, repr: MultiServerChatbot.ArgsRepr,
                                 messages: seq<ChatMessage>, tools: seq<ToolSchema>, script: seq<LlmReply>,
                                 route: Router, server: ToolServer)
    requires t == Converse(messages, tools, script, route, server)
    requires t.outcome.Answered? && !IsTokenLine(t.outcome.content)
    requires var last := t.received[|t.received| - 1]; last.usage.Some? && |last.usage.value| > 0
    ensures var last := t.received[|t.received| - 1];
            && |QueryEvents(t, input, output, repr)| == 1
            && QueryEvents(t, input, output, repr)[0].tokens ==
                 Some(MultiServerChatbot.LineText(MultiServerChatbot.UsageLine(
                   MultiServerChatbot.PromptTokens(last), MultiServerChatbot.CompletionTokens(last),
                   input + MultiServerChatbot.SumPrompt(t.received), output + MultiServerChatbot.SumCompletion(t.received))))
  {
    ConverseShape(messages, tools, script, route, server);
    var out := MultiServerChatbot.QueryOutput(t.received, input, output, repr);
    MultiServerChatbot.QueryOutputEnds(t.received, input, output, repr);
    CaptureEndsWithAnswer(out, t.outcome.content);
    CaptureTokensBeforeAnswer(out, t.outcome.content);
  }
}
