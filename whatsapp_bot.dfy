/**
 * The Python WhatsApp bot (new/multi_bot/whatsapp_bot.py): the `user_sessions`
 * dictionary that `whatsapp_webhook` creates, advances and deletes entries
 * of, the stage dispatch, the citation block and the 1500-character split.
 * The bot manager enters as its current availability list and its
 * `query_bot`, an oracle from bot name and question to the chain's result
 * (None when it raised). The Twilio client's `messages.create` for a
 * follow-up part is an oracle from the part to whether the send returned
 * (false when it raised).
 */
module WhatsAppBot {
  import opened Common
  import opened Documents
  import opened Catalog

  datatype Stage = SelectingBot | AskingQuestion

  /** `user_sessions[sender]` */
  datatype Session = Session(selectedBot: Option<string>, stage: Stage)

  /** The session a sender without one gets before dispatch. */
  const FreshSession: Session := Session(None, SelectingBot)

  /** The three commands recognised in any stage, case-insensitively. */
  datatype Keyword = HelpWord | MenuWord | ExitWord | NoKeyword

  function KeywordOf(msg: string): (kw: Keyword)
    ensures kw == HelpWord <==> Lower(msg) == "help"
    ensures kw == MenuWord <==> Lower(msg) == "menu"
    ensures kw == ExitWord <==> Lower(msg) == "exit"
  {
    var l := Lower(msg);
    if l == "help" then HelpWord else if l == "menu" then MenuWord else if l == "exit" then ExitWord else NoKeyword
  }

  /** The reply kinds of `whatsapp_webhook`. */
  datatype Reply =
    | Help
    | Welcome
    | ConversationReset
    | Selected(bot: string)
    | Unavailable(bot: string)
    | Answer(message: Delivered)
    /**
     * A follow-up send raised: the reply holds `inline` and then the
     * apology of the exception handler; `sent` are the follow-ups that went
     * out before, and no later part is sent.
     */
    | SendFailed(inline: string, sent: seq<string>)
    | QueryFailed

  /** `f"Source {i+1}: {source}, Page: {page}"` */
  function CitationLine(c: Citation): string
  {
    "Source " + NatToString(c.position) + ": " + c.source + ", Page: " + IntToString(c.page)
  }

  function CitationLines(cs: seq<Citation>): (lines: seq<string>)
    ensures |lines| == |cs| && forall k :: 0 <= k < |cs| ==> lines[k] == CitationLine(cs[k])
  {
    seq(|cs|, k requires 0 <= k < |cs| => CitationLine(cs[k]))
  }

  /** The citation block: empty unless some document is cited. */
  function SourceText(docs: seq<Document>): string
  {
    var cs := Citations(docs);
    if cs == [] then "" else "\n\n*Sources:*\n" + Join(CitationLines(cs), "\n")
  }

  /** A page-0 document among the first two contributes nothing to the block; with no citable document there is no block. */
  lemma SourceTextMeaning(docs: seq<Document>)
    ensures SourceText(docs) == "" <==> Citations(docs) == []
    ensures Citations(docs) != [] ==> StartsWith(SourceText(docs), "\n\n*Sources:*\n")
    ensures |Citations(docs)| <= 2
  {
    CitationsMeaning(docs);
    CitationsUpToLength(docs, Considered(docs));
  }

  /** How many of `parts` the send loop delivers: it stops at the first send that raises. */
  function SentCount(parts: seq<string>, send: string -> bool): (n: nat)
    ensures n <= |parts|
    ensures forall k :: 0 <= k < n ==> send(parts[k])
    ensures n < |parts| ==> !send(parts[n])
  {
    if parts == [] || !send(parts[0]) then 0 else 1 + SentCount(parts[1..], send)
  }

  /**
   * The reply to a question: the answer with its citations, split when over
   * 1500 characters; the follow-ups are sent one by one inside the question's
   * `try`, so a raising send ends the loop and adds the apology to the reply.
   */
  function AnswerReply(question: string, result: QaResult, send: string -> bool): Reply
  {
    var d := Deliver(WhatsAppReplyText(question, result.result, SourceText(result.sourceDocuments)), WhatsAppLimit);
    var n := SentCount(d.followUps, send);
    if n == |d.followUps| then Answer(d) else SendFailed(d.inline, d.followUps[..n])
  }

  /** The question branch: the query's result, or the apology when `query_bot` (or its availability guard) raised. */
  function QuestionReply(question: string, selected: Option<string>, available: seq<string>,
                         query: (string, string) -> Option<QaResult>, send: string -> bool): Reply
  {
    if selected.None? || selected.value !in available then QueryFailed
    else match query(selected.value, question)
      case None => QueryFailed
      case Some(result) => AnswerReply(question, result, send)
  }

  /** The in-memory `user_sessions` dictionary and the webhook. */
  class WhatsAppBotServer {
    var sessions: map<string, Session>

    /** A session that is asking questions has one of the four bots selected. */
    ghost predicate Valid()
      reads this
    {
      forall k :: k in sessions && sessions[k].stage == AskingQuestion ==>
        sessions[k].selectedBot.Some? && sessions[k].selectedBot.value in AllBotNames
    }

    constructor()
      ensures sessions == map[] && Valid()
    {
      sessions := map[];
    }

    /**
     * `whatsapp_webhook`. `body` and `sender` are the `Body` and `From` form
     * values ("" when absent), `available` the manager's list, `query` its
     * `query_bot`, `send` the Twilio send of a follow-up part. The three
     * keywords are answered before any session is created; every other
     * message goes to the sender's session, created when missing.
     */
    method Webhook(body: string, sender: string, available: seq<string>,
                   query: (string, string) -> Option<QaResult>, send: string -> bool) returns (reply: Reply)
      requires Valid()
      modifies this
      ensures Valid()
      ensures KeywordOf(PyStrip(body)) == HelpWord ==> sessions == old(sessions) && reply == Help
      ensures KeywordOf(PyStrip(body)) == MenuWord ==> sessions == old(sessions) && reply == Welcome
      ensures KeywordOf(PyStrip(body)) == ExitWord ==> sessions == old(sessions) - {sender} && reply == ConversationReset
      ensures KeywordOf(PyStrip(body)) == NoKeyword ==>
        var pre := if sender in old(sessions) then old(sessions) else old(sessions)[sender := FreshSession];
        Dispatched(pre, sessions, sender, pre[sender], PyStrip(body), available, query, send, reply)
    {
      var msg := PyStrip(body);
      var kw := KeywordOf(msg);
      if kw == HelpWord {
        return Help;
      }
      if kw == MenuWord {
        return Welcome;
      }
      if kw == ExitWord {
        Forget(sender);
        return ConversationReset;
      }
      if sender !in sessions {
        sessions := sessions[sender := FreshSession];
      }
      reply := Converse(msg, sender, available, query, send);
    }

    /**
     * While a sender is asking, the question goes to the bot they selected,
     * one of the four; it fails only when that bot is unavailable or its
     * query raised.
     */
    lemma AskingHasBot(sender: string, msg: string, available: seq<string>,
                       query: (string, string) -> Option<QaResult>, send: string -> bool)
      requires Valid() && sender in sessions && sessions[sender].stage == AskingQuestion
      ensures sessions[sender].selectedBot.Some? && sessions[sender].selectedBot.value in AllBotNames
      ensures QuestionReply(msg, sessions[sender].selectedBot, available, query, send) == QueryFailed ==>
        sessions[sender].selectedBot.value !in available || query(sessions[sender].selectedBot.value, msg).None?
    {
    }

    /** `del user_sessions[sender]` when present. */
    method Forget(sender: string)
      requires Valid()
      modifies this
      ensures Valid() && sessions == old(sessions) - {sender}
    {
      if sender in sessions {
        sessions := map k | k in sessions && k != sender :: sessions[k];
      }
    }

    /** The stage dispatch for a sender that has a session. */
    method Converse(msg: string, sender: string, available: seq<string>,
                    query: (string, string) -> Option<QaResult>, send: string -> bool) returns (reply: Reply)
      requires Valid() && sender in sessions
      modifies this
      ensures Valid()
      ensures Dispatched(old(sessions), sessions, sender, old(sessions)[sender], msg, available, query, send, reply)
    {
      var session := sessions[sender];
      if session.stage == SelectingBot {
        var bot := LegalBot(msg);
        if bot.Some? {
          if bot.value in available {
            sessions := sessions[sender := session.(selectedBot := bot, stage := AskingQuestion)];
            reply := Selected(bot.value);
          } else {
            reply := Unavailable(bot.value);
          }
        } else {
          reply := Welcome;
        }
      } else {
        reply := QuestionReply(msg, session.selectedBot, available, query, send);
        sessions := sessions[sender := session.(stage := AskingQuestion)];
      }
    }
  }

  /**
   * What the webhook does once the sender has session `s` (stored in
   * `before`): while selecting, a `LEGAL_BOTS` key whose bot is available
   * selects it, anything else changes nothing; while asking, every message
   * is a question and the session stays as it is.
   */
  ghost predicate Dispatched(before: map<string, Session>, after: map<string, Session>, sender: string, s: Session,
                             msg: string, available: seq<string>,
                             query: (string, string) -> Option<QaResult>, send: string -> bool, reply: Reply)
  {
    match s.stage
    case SelectingBot =>
      (LegalBot(msg).Some? && LegalBot(msg).value in available ==>
         after == before[sender := Session(LegalBot(msg), AskingQuestion)] && reply == Selected(LegalBot(msg).value)) &&
      (LegalBot(msg).Some? && LegalBot(msg).value !in available ==>
         after == before && reply == Unavailable(LegalBot(msg).value)) &&
      (LegalBot(msg).None? ==> after == before && reply == Welcome)
    case AskingQuestion =>
      after == before && reply == QuestionReply(msg, s.selectedBot, available, query, send)
  }

  /** A `LEGAL_BOTS` key while asking is a question like any other text: it never reselects a bot. */
  lemma DigitWhileAskingIsQuestion(before: map<string, Session>, after: map<string, Session>, sender: string,
                                   s: Session, msg: string, available: seq<string>,
                                   query: (string, string) -> Option<QaResult>, send: string -> bool, reply: Reply)
    requires s.stage == AskingQuestion && LegalBot(msg).Some?
    requires Dispatched(before, after, sender, s, msg, available, query, send, reply)
    ensures after == before && reply == QuestionReply(msg, s.selectedBot, available, query, send)
  {
  }

  /**
   * A short reply goes whole. A long one is split into 1500-character parts;
   * it is the full answer exactly when every follow-up send returns, and
   * otherwise the follow-ups sent are those before the first raising send.
   */
  lemma AnswerReplySplit(question: string, result: QaResult, send: string -> bool)
    ensures var text := WhatsAppReplyText(question, result.result, SourceText(result.sourceDocuments));
      var d := Deliver(text, WhatsAppLimit);
      var r := AnswerReply(question, result, send);
      d.inline + Concat(d.followUps) == text &&
      (|text| <= WhatsAppLimit ==> r == Answer(Delivered(text, []))) &&
      (|text| > WhatsAppLimit ==> d.followUps != [] && |d.inline| == WhatsAppLimit) &&
      (r.Answer? <==> forall k :: 0 <= k < |d.followUps| ==> send(d.followUps[k])) &&
      (r.Answer? ==> r.message == d) &&
      (r.SendFailed? ==>
         r.inline == d.inline && |r.sent| < |d.followUps| && r.sent == d.followUps[..|r.sent|] &&
         !send(d.followUps[|r.sent|]) && (forall k :: 0 <= k < |r.sent| ==> send(r.sent[k])))
  {
    var text := WhatsAppReplyText(question, result.result, SourceText(result.sourceDocuments));
    DeliverMeaning(text, WhatsAppLimit);
    var d := Deliver(text, WhatsAppLimit);
    var n := SentCount(d.followUps, send);
    if |text| <= WhatsAppLimit {
      assert d.followUps == [];
    }
  }
}
