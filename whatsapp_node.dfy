/**
 * The Node WhatsApp bot (new/whatsapp_example/app.js): the per-sender session
 * map that `handleWhatsAppMessage` reads and rewrites, its command dispatch,
 * the reply split at 1500 characters, the `/bots` availability lookup with its
 * fallback, the source mapping of `queryBot` and the `whatsapp:` number
 * formatting. The RAG API is an oracle: `/health` and `/bots` become the value
 * the call produced (None when it raised), `/bots/{name}/query` an arrow from
 * bot name and question to the response body (None when it raised).
 */
module WhatsAppNode {
  import opened Common
  import opened Documents
  import opened Catalog

  /** One entry of the `/bots` listing. */
  datatype BotInfo = BotInfo(name: string, available: bool)

  /** `bots.filter(bot => bot.available).map(bot => bot.name)` */
  function AvailableNames(bots: seq<BotInfo>): seq<string>
  {
    if bots == [] then []
    else if bots[|bots| - 1].available then AvailableNames(bots[..|bots| - 1]) + [bots[|bots| - 1].name]
    else AvailableNames(bots[..|bots| - 1])
  }

  /** `getAvailableBots`: the listing's available names, or every bot when the request raised. */
  function GetAvailableBots(listing: Option<seq<BotInfo>>): (names: seq<string>)
    ensures listing.None? ==> names == AllBotNames
    ensures listing.Some? ==> names == AvailableNames(listing.value)
  {
    match listing
    case None => AllBotNames
    case Some(bots) => AvailableNames(bots)
  }

  /** A name is returned exactly when some listed bot with that name is available; at most one name per listed bot. */
  lemma {:induction false} AvailableNamesMembership(bots: seq<BotInfo>, name: string)
    ensures |AvailableNames(bots)| <= |bots|
    ensures name in AvailableNames(bots) <==> exists i :: 0 <= i < |bots| && bots[i].available && bots[i].name == name
  {
    if bots != [] {
      var init := bots[..|bots| - 1];
      AvailableNamesMembership(init, name);
      if exists i :: 0 <= i < |init| && init[i].available && init[i].name == name {
        var i :| 0 <= i < |init| && init[i].available && init[i].name == name;
        assert bots[i] == init[i];
      }
      if exists i :: 0 <= i < |bots| && bots[i].available && bots[i].name == name {
        var i :| 0 <= i < |bots| && bots[i].available && bots[i].name == name;
        if i < |init| { assert init[i] == bots[i]; }
      }
    }
  }

  /** The filter keeps the listing's order: two runs of the listing give their names one after the other. */
  lemma {:induction false} AvailableNamesAppend(a: seq<BotInfo>, b: seq<BotInfo>)
    ensures AvailableNames(a + b) == AvailableNames(a) + AvailableNames(b)
    decreases |b|
  {
    if b == [] {
      assert a + b == a;
    } else {
      assert (a + b)[..|a + b| - 1] == a + b[..|b| - 1];
      AvailableNamesAppend(a, b[..|b| - 1]);
    }
  }

  /** One source of a query response, after `queryBot`'s mapping. */
  datatype SourceRef = SourceRef(source: string, page: Option<int>)

  /** What `queryBot` returns: the answer and the mapped sources. */
  datatype BotResult = BotResult(answer: string, sources: seq<SourceRef>)

  /** The body of a `/bots/{name}/query` response: the answer and each source's metadata. */
  datatype QueryResponse = QueryResponse(answer: string, sources: seq<Metadata>)

  /** Every source carries a `source` path (otherwise `.split` raises inside `queryBot`). */
  predicate AllHaveSource(sources: seq<Metadata>)
  {
    forall i :: 0 <= i < |sources| ==> sources[i].source.Some?
  }

  /**
   * `queryBot`'s result for one response: each source reduced to the
   * basename of its path and its page; null when the request raised or a
   * source has no path.
   */
  function QueryResult(response: Option<QueryResponse>): (r: Option<BotResult>)
    ensures r.Some? <==> response.Some? && AllHaveSource(response.value.sources)
    ensures r.Some? ==> r.value.answer == response.value.answer && |r.value.sources| == |response.value.sources|
    ensures r.Some? ==> forall i :: 0 <= i < |r.value.sources| ==>
      r.value.sources[i].page == response.value.sources[i].page &&
      Basename(response.value.sources[i].source.value) == r.value.sources[i].source
  {
    if response.None? || !AllHaveSource(response.value.sources) then None
    else
      var ms := response.value.sources;
      Some(BotResult(response.value.answer,
        seq(|ms|, i requires 0 <= i < |ms| && ms[i].source.Some? => SourceRef(Basename(ms[i].source.value), ms[i].page))))
  }

  /** A page as a template literal prints it: the number, or "undefined" when absent. */
  function PageText(page: Option<int>): string
  {
    match page
    case None => "undefined"
    case Some(p) => IntToString(p)
  }

  /** `Source ${i + 1}: ${source.source}, Page: ${source.page}` */
  function SourceLine(i: nat, s: SourceRef): string
  {
    "Source " + NatToString(i + 1) + ": " + s.source + ", Page: " + PageText(s.page)
  }

  /** The lines for `sources.slice(0, 2)`: no filtering, numbered by position. */
  function SourceLines(sources: seq<SourceRef>): (lines: seq<string>)
    ensures |lines| == if |sources| < 2 then |sources| else 2
    ensures forall i :: 0 <= i < |lines| ==> lines[i] == SourceLine(i, sources[i])
  {
    var n := if |sources| < 2 then |sources| else 2;
    seq(n, i requires 0 <= i < n => SourceLine(i, sources[i]))
  }

  /** The citation block appended to the answer; empty when there are no sources. */
  function SourceText(sources: seq<SourceRef>): (t: string)
    ensures sources == [] <==> t == ""
  {
    if |sources| > 0 then "\n\n*Sources:*\n" + Join(SourceLines(sources), "\n") else ""
  }

  /** The full reply to a question. */
  function ResponseText(question: string, result: BotResult): string
  {
    WhatsAppReplyText(question, result.answer, SourceText(result.sources))
  }

  datatype Stage = SelectingBot | AskingQuestion

  /** `userSessions[sender]` */
  datatype Session = Session(selectedBot: Option<string>, stage: Stage, lastInteraction: int)

  /** The reply kinds of `handleWhatsAppMessage`. */
  datatype Reply =
    | Welcome
    | TestResponse
    | SandboxJoined
    | NotUnderstood
    | ApiHealth(connected: bool)
    | Help
    | ConversationReset
    | AvailableBotsList(names: seq<string>)
    | BotSelected(previous: Option<string>, bot: string)
    | BotUnavailable(bot: string)
    | SelectionPrompt
    | Answer(inline: string, followUps: seq<string>)
    | NoAnswer

  /** A reply text as sent: at most 1500 characters inline, the rest as follow-up messages. */
  function Delivery(text: string): Reply
  {
    var d := Deliver(text, WhatsAppLimit);
    Answer(d.inline, d.followUps)
  }

  /**
   * `splitMessageIntoParts`: the loop that pushes `message.substring(i, i +
   * maxLength)` for `i` stepping by `maxLength`.
   */
  method SplitMessageIntoParts(message: string, maxLength: nat) returns (parts: seq<string>)
    requires maxLength > 0
    ensures parts == Slices(message, maxLength)
  {
    parts := [];
    var i := 0;
    while i < |message|
      invariant 0 <= i <= |message|
      invariant parts + Slices(message[i..], maxLength) == Slices(message, maxLength)
      decreases |message| - i
    {
      var end := if i + maxLength < |message| then i + maxLength else |message|;
      var rest := message[i..];
      if end < |message| {
        assert rest[..maxLength] == message[i..end];
        assert rest[maxLength..] == message[end..];
      } else {
        assert rest == message[i..end];
      }
      parts := parts + [message[i..end]];
      i := i + maxLength;
      if i > |message| {
        i := |message|;
      }
    }
  }

  /** `to.startsWith('whatsapp:') ? to : 'whatsapp:' + (to.startsWith('+') ? to : '+' + to)` */
  function WhatsAppAddress(to: string): (r: string)
    ensures StartsWith(r, "whatsapp:")
    ensures StartsWith(to, "whatsapp:") ==> r == to
    ensures !StartsWith(to, "whatsapp:") ==> StartsWith(r, "whatsapp:+") && EndsWith(r, to)
  {
    if StartsWith(to, "whatsapp:") then to
    else "whatsapp:" + (if StartsWith(to, "+") then to else "+" + to)
  }

  /** Formatting an already formatted number changes nothing. */
  lemma WhatsAppAddressIdempotent(to: string)
    ensures WhatsAppAddress(WhatsAppAddress(to)) == WhatsAppAddress(to)
  {
    var r := WhatsAppAddress(to);
    assert StartsWith(r, "whatsapp:");
  }

  /** `Body?.trim()` */
  function TrimmedField(field: Option<string>): Option<string>
  {
    match field
    case None => None
    case Some(s) => Some(JsTrim(s))
  }

  /** `req.body.Body?.trim() || req.body.ButtonText?.trim() || ''` */
  function IncomingMessage(body: Option<string>, buttonText: Option<string>): (msg: string)
    ensures Truthy(TrimmedField(body)) ==> msg == JsTrim(body.value)
    ensures !Truthy(TrimmedField(body)) && Truthy(TrimmedField(buttonText)) ==> msg == JsTrim(buttonText.value)
    ensures !Truthy(TrimmedField(body)) && !Truthy(TrimmedField(buttonText)) ==> msg == ""
  {
    OrElse(TrimmedField(body), OrElse(TrimmedField(buttonText), ""))
  }

  /** The message the handler dispatches on never starts or ends with whitespace. */
  lemma IncomingMessageTrimmed(body: Option<string>, buttonText: Option<string>)
    ensures var msg := IncomingMessage(body, buttonText);
      msg == [] || (!IsJsSpace(msg[0]) && !IsJsSpace(msg[|msg| - 1]))
  {
    var b, t := TrimmedField(body), TrimmedField(buttonText);
    if Truthy(b) {
      TrimEnds(body.value, IsJsSpace);
    } else if Truthy(t) {
      TrimEnds(buttonText.value, IsJsSpace);
    } else {
      assert IncomingMessage(body, buttonText) == "";
    }
  }

  /** 'hello', 'hi' or 'hlo' in any case. */
  predicate IsGreeting(msg: string)
  {
    var l := Lower(msg);
    l == "hello" || l == "hi" || l == "hlo"
  }

  /** What the handler's chain of tests decides a message is. */
  datatype Command =
    | Greet | Test | JoinSandbox | Empty | DebugApi | HelpCmd | Menu | Exit | CheckBots
    | Select(bot: string)
    | Question

  /** The handler's tests, in its order; `hasSession` is whether the sender has a session. */
  function Classify(msg: string, hasSession: bool): (c: Command)
    ensures c == Greet <==> IsGreeting(msg) || !hasSession
    ensures c.Select? <==> hasSession && LegalBot(msg).Some?
    ensures c.Select? ==> c.bot == LegalBot(msg).value
    ensures c == Question ==> hasSession && msg != "" && LegalBot(msg).None? && !IsGreeting(msg)
  {
    var l := Lower(msg);
    if IsGreeting(msg) || !hasSession then Greet
    else if l == "test" then Test
    else if Contains(l, "join") then JoinSandbox
    else if msg == "" then Empty
    else if l == "debug api" then DebugApi
    else if l == "help" then HelpCmd
    else if l == "menu" then Menu
    else if l == "exit" then Exit
    else if l == "check bots" then CheckBots
    else if LegalBot(msg).Some? then Select(LegalBot(msg).value)
    else Question
  }

  /** A command word is recognised inside a sentence only for 'join': "please help me join" is the join command. */
  lemma JoinShadowsLaterCommands(msg: string)
    requires !IsGreeting(msg) && Lower(msg) != "test" && Contains(Lower(msg), "join")
    ensures Classify(msg, true) == JoinSandbox
  {
  }

  /** The command an inbound message carries, for a sender with or without a session. */
  function CommandOf(body: Option<string>, buttonText: Option<string>, hasSession: bool): Command
  {
    Classify(IncomingMessage(body, buttonText), hasSession)
  }

  /** The name `queryBot` is called with: the selected bot, or the text "null". */
  function BotParam(selected: Option<string>): string
  {
    match selected
    case None => "null"
    case Some(b) => b
  }

  /** The previously selected bot named in the switching note, if any. */
  function SwitchingFrom(s: Session): Option<string>
  {
    if s.selectedBot.Some? && s.selectedBot.value != "" && s.stage == AskingQuestion then s.selectedBot else None
  }

  /** The reply to a question, given the RAG API's response. */
  function QuestionReply(question: string, response: Option<QueryResponse>): Reply
  {
    match QueryResult(response)
    case None => NoAnswer
    case Some(result) => Delivery(ResponseText(question, result))
  }

  /** The in-memory `userSessions` object and the webhook handler. */
  class WhatsAppServer {
    var sessions: map<string, Session>

    /** A session that is asking questions has one of the four bots selected. */
    ghost predicate Valid()
      reads this
    {
      forall k :: k in sessions && sessions[k].stage == AskingQuestion ==>
        sessions[k].selectedBot.Some? && sessions[k].selectedBot.value in AllBotNames
    }

    constructor()
      ensures sessions == map[] && Valid()
    {
      sessions := map[];
    }

    /**
     * `handleWhatsAppMessage`. `now` is `Date.now()`, `healthy` whether the
     * `/health` request succeeded, `listing` the `/bots` response, `rag`
     * the query endpoint.
     */
    method HandleMessage(body: Option<string>, buttonText: Option<string>, sender: string, now: int,
                         healthy: bool, listing: Option<seq<BotInfo>>,
                         rag: (string, string) -> Option<QueryResponse>) returns (reply: Reply)
      requires Valid()
      modifies this
      ensures Valid()
      ensures Handled(old(sessions), sessions, sender, now, CommandOf(body, buttonText, sender in old(sessions)),
                      IncomingMessage(body, buttonText), healthy, listing, rag, reply)
    {
      var msg := IncomingMessage(body, buttonText);
      reply := Dispatch(CommandOf(body, buttonText, sender in sessions), msg, sender, now, healthy, listing, rag);
    }

    /** The branch the handler takes for one command. */
    method Dispatch(cmd: Command, msg: string, sender: string, now: int,
                    healthy: bool, listing: Option<seq<BotInfo>>,
                    rag: (string, string) -> Option<QueryResponse>) returns (reply: Reply)
      requires Valid()
      requires cmd != Greet ==> sender in sessions
      requires cmd.Select? ==> cmd.bot in AllBotNames
      modifies this
      ensures Valid()
      ensures Handled(old(sessions), sessions, sender, now, cmd, msg, healthy, listing, rag, reply)
    {
      match cmd
      case Greet =>
        sessions := sessions[sender := Session(None, SelectingBot, now)];
        reply := Welcome;
      case Test =>
        reply := TestResponse;
      case JoinSandbox =>
        reply := SandboxJoined;
      case Empty =>
        reply := NotUnderstood;
      case DebugApi =>
        reply := ApiHealth(healthy);
      case HelpCmd =>
        reply := Help;
      case Menu =>
        sessions := sessions[sender := sessions[sender].(selectedBot := None, stage := SelectingBot)];
        reply := Welcome;
      case Exit =>
        sessions := sessions - {sender};
        reply := ConversationReset;
      case CheckBots =>
        reply := AvailableBotsList(GetAvailableBots(listing));
      case Select(botName) =>
        reply := SelectBot(sender, botName, listing);
      case Question =>
        reply := QuestionBranch(sender, msg, rag);
    }

    /** A bot digit: the bot is selected when the listing has it, otherwise nothing changes. */
    method SelectBot(sender: string, botName: string, listing: Option<seq<BotInfo>>) returns (reply: Reply)
      requires Valid() && sender in sessions && botName in AllBotNames
      modifies this
      ensures Valid()
      ensures botName in GetAvailableBots(listing) ==>
        sessions == old(sessions)[sender := old(sessions)[sender].(selectedBot := Some(botName), stage := AskingQuestion)] &&
        reply == BotSelected(SwitchingFrom(old(sessions)[sender]), botName)
      ensures botName !in GetAvailableBots(listing) ==> sessions == old(sessions) && reply == BotUnavailable(botName)
    {
      var session := sessions[sender];
      var previous := SwitchingFrom(session);
      var availableBots := GetAvailableBots(listing);
      if botName in availableBots {
        sessions := sessions[sender := session.(selectedBot := Some(botName), stage := AskingQuestion)];
        reply := BotSelected(previous, botName);
      } else {
        reply := BotUnavailable(botName);
      }
    }

    /**
     * Any other text: a re-prompt while selecting, otherwise a question for
     * the selected bot, which in a valid state is one of the four and never
     * the text "null".
     */
    method QuestionBranch(sender: string, msg: string, rag: (string, string) -> Option<QueryResponse>) returns (reply: Reply)
      requires sender in sessions
      ensures sessions[sender].stage == SelectingBot ==> reply == SelectionPrompt
      ensures sessions[sender].stage == AskingQuestion ==>
        reply == QuestionReply(msg, rag(BotParam(sessions[sender].selectedBot), msg))
      ensures Valid() && sessions[sender].stage == AskingQuestion ==>
        BotParam(sessions[sender].selectedBot) == sessions[sender].selectedBot.value &&
        BotParam(sessions[sender].selectedBot) in AllBotNames
    {
      var session := sessions[sender];
      if session.stage == SelectingBot {
        reply := SelectionPrompt;
      } else {
        reply := AnswerQuestion(msg, rag(BotParam(session.selectedBot), msg));
      }
    }
  }

  /** The question branch: the query result formatted and, when over 1500 characters, split into parts. */
  method AnswerQuestion(question: string, response: Option<QueryResponse>) returns (reply: Reply)
    ensures reply == QuestionReply(question, response)
  {
    var result := QueryResult(response);
    if result.None? {
      return NoAnswer;
    }
    var responseText := ResponseText(question, result.value);
    if |responseText| > WhatsAppLimit {
      var parts := SplitMessageIntoParts(responseText, WhatsAppLimit);
      return Answer(parts[0], parts[1..]);
    }
    return Answer(responseText, []);
  }

  /**
   * What one message does to the session map and which reply it gets, by
   * the command it carries: only a greeting (or a first message), 'menu',
   * 'exit' and an available bot digit change the map.
   */
  ghost predicate Handled(before: map<string, Session>, after: map<string, Session>, sender: string, now: int,
                          cmd: Command, msg: string, healthy: bool, listing: Option<seq<BotInfo>>,
                          rag: (string, string) -> Option<QueryResponse>, reply: Reply)
  {
    match cmd
    case Greet => after == before[sender := Session(None, SelectingBot, now)] && reply == Welcome
    case Test => after == before && reply == TestResponse
    case JoinSandbox => after == before && reply == SandboxJoined
    case Empty => after == before && reply == NotUnderstood
    case DebugApi => after == before && reply == ApiHealth(healthy)
    case HelpCmd => after == before && reply == Help
    case Menu =>
      sender in before && after == before[sender := before[sender].(selectedBot := None, stage := SelectingBot)] &&
      reply == Welcome
    case Exit => after == before - {sender} && reply == ConversationReset
    case CheckBots => after == before && reply == AvailableBotsList(GetAvailableBots(listing))
    case Select(bot) =>
      sender in before &&
      if bot in GetAvailableBots(listing) then
        after == before[sender := before[sender].(selectedBot := Some(bot), stage := AskingQuestion)] &&
        reply == BotSelected(SwitchingFrom(before[sender]), bot)
      else
        after == before && reply == BotUnavailable(bot)
    case Question =>
      sender in before && after == before &&
      (before[sender].stage == SelectingBot ==> reply == SelectionPrompt) &&
      (before[sender].stage == AskingQuestion ==> reply == QuestionReply(msg, rag(BotParam(before[sender].selectedBot), msg)))
  }

  /** A greeting resets the conversation even while a bot is selected. */
  lemma GreetingResetsMidConversation(msg: string)
    requires IsGreeting(msg)
    ensures Classify(msg, true) == Greet && Classify(msg, false) == Greet
  {
  }

  /** A digit selects its bot in any stage, never reaching the question branch. */
  lemma DigitSelectsInAnyStage(d: string)
    requires d in {"1", "2", "3", "4"}
    ensures Classify(d, true) == Select(LegalBot(d).value)
  {
  }
}
