/**
 * The Twilio voice server and its browser front end
 * (new/multi_bot/voice_server.py): the `call_sessions` and `web_sessions`
 * dictionaries, the integer counters of `call_analytics`, and the handlers
 * that move a call from language choice to bot choice to a recorded question,
 * its answer, an optional SMS and the next question.
 *
 * Speech-to-text enters as `transcribe(audio, language)`, the bot manager as
 * its availability list and `query(bot, question)`, the SMS gateway as
 * `send(body, to)`; an oracle returning None stands for a call that raised.
 * An exception that escapes a handler (a KeyError on a missing session, a
 * TypeError on a session whose language is still None) is the reply
 * `ServerError`; whatever the handler wrote before it is kept.
 */
module VoiceServer {
  import opened Common
  import opened Documents
  import opened Catalog

  /** `call_sessions[CallSid]` (its `start_time` is not modelled); the last question and answer are None until first written. */
  datatype CallSession = CallSession(callerId: string, language: Option<Language>, selectedBot: Option<string>,
                                     lastQuestion: Option<string>, lastAnswer: Option<string>)

  /** `web_sessions[session_id]` */
  datatype WebSession = WebSession(language: Option<Language>, selectedBot: Option<string>,
                                   lastQuestion: Option<string>, lastAnswer: Option<string>)

  /** The integer part of `call_analytics` (the response-time averages are not modelled). */
  datatype Analytics = Analytics(totalCalls: nat, completedQueries: nat,
                                 languages: map<string, nat>, bots: map<string, nat>)

  /** What the form values default to when the caller id or call id is absent. */
  const Unknown: string := "Unknown"

  /** Replies of the Twilio voice routes, as prompt kinds. `speech` is the language a prompt is spoken in. */
  datatype VoiceReply =
    | AskLanguage
    | AskBot(speech: Speech)
    | InvalidSelection
    | RecordQuestion(bot: string, speech: Speech)
    | ProcessingError
    | Answered(transcription: string, answer: string, offerSms: bool, speech: Speech)
    | BotNotAvailable(selected: Option<string>, speech: Speech)
    | SmsReply(outcome: SmsOutcome, speech: Speech)
    | Goodbye(speech: Speech)
    | ServerError

  /** What `send_sms` tells the caller: nothing (no SMS was asked for or possible), the text that was sent, or that it could not be sent. */
  datatype SmsOutcome = NoSms | Sent(body: string, to: string) | NotSent

  /** Replies of the JSON routes for the browser. */
  datatype WebReply =
    | SessionCreated(id: string)
    | InvalidSession
    | InvalidLanguage
    | InvalidBot
    | NoAudio
    | LanguageSet(name: string)
    | BotSet(bot: string)
    | WebAnswer(transcription: string, answer: string, sources: seq<(string, int)>)
    | WebBotUnavailable(selected: Option<string>)
    | WebFailed
    | WebServerError

  // ---------------------------------------------------------------- helpers

  /** `digit in LANGUAGES` then `LANGUAGES[digit]`; an absent digit is no key. */
  function LanguageKey(digit: Option<string>): Option<Language>
  {
    if digit.Some? then LanguageFor(digit.value) else None
  }

  /** `digit in LEGAL_BOTS` then `LEGAL_BOTS[digit]`. */
  function BotKey(digit: Option<string>): Option<string>
  {
    if digit.Some? then LegalBot(digit.value) else None
  }

  /** `counts.get(key, 0)` */
  function Count(counts: map<string, nat>, key: string): nat
  {
    if key in counts then counts[key] else 0
  }

  /** `counts[key] = counts.get(key, 0) + 1` */
  function Bump(counts: map<string, nat>, key: string): map<string, nat>
  {
    counts[key := Count(counts, key) + 1]
  }

  /** Bumping adds one to the key's count, adds the key if it was new, and leaves every other count alone. */
  lemma BumpMeaning(counts: map<string, nat>, key: string, other: string)
    ensures Count(Bump(counts, key), key) == Count(counts, key) + 1
    ensures other != key ==> Count(Bump(counts, key), other) == Count(counts, other)
    ensures Bump(counts, key).Keys == counts.Keys + {key}
  {
  }

  /** The analytics after a language choice. */
  function LanguageChosen(a: Analytics, name: string): Analytics
  {
    a.(languages := Bump(a.languages, name))
  }

  /** The analytics after an answered query. */
  function QueryAnswered(a: Analytics, bot: string): Analytics
  {
    a.(completedQueries := a.completedQueries + 1, bots := Bump(a.bots, bot))
  }

  /**
   * The counters agree with how they are updated: only the five language
   * names and the four bot names are counted, each at least once, and no bot
   * more often than there were answered queries.
   */
  ghost predicate AnalyticsValid(a: Analytics)
  {
    (forall n :: n in a.languages ==> n in LanguageNames && a.languages[n] > 0) &&
    (forall b :: b in a.bots ==> b in AllBotNames && 0 < a.bots[b] <= a.completedQueries)
  }

  lemma LanguageChosenValid(a: Analytics, name: string)
    requires AnalyticsValid(a) && name in LanguageNames
    ensures AnalyticsValid(LanguageChosen(a, name))
    ensures Count(LanguageChosen(a, name).languages, name) == Count(a.languages, name) + 1
  {
  }

  lemma QueryAnsweredValid(a: Analytics, bot: string)
    requires AnalyticsValid(a) && bot in AllBotNames
    ensures AnalyticsValid(QueryAnswered(a, bot))
    ensures QueryAnswered(a, bot).completedQueries == a.completedQueries + 1
    ensures Count(QueryAnswered(a, bot).bots, bot) == Count(a.bots, bot) + 1
  {
    var b := QueryAnswered(a, bot);
    forall x | x in b.bots ensures x in AllBotNames && 0 < b.bots[x] <= b.completedQueries {
      if x != bot {
        assert b.bots[x] == a.bots[x];
      }
    }
  }

  /** Longest SMS answer: `max_sms_length`. */
  const SmsLimit: nat := 1500

  /** An answer over 1500 characters keeps its first 1497 and gains "...". */
  function TruncateSms(answer: string): string
  {
    if |answer| > SmsLimit then answer[..SmsLimit - 3] + "..." else answer
  }

  /** A truncated answer is exactly 1500 characters long; a short one is unchanged; truncating twice changes nothing more. */
  lemma TruncateSmsMeaning(answer: string)
    ensures |TruncateSms(answer)| <= SmsLimit
    ensures |answer| <= SmsLimit ==> TruncateSms(answer) == answer
    ensures |answer| > SmsLimit ==>
      |TruncateSms(answer)| == SmsLimit && StartsWith(TruncateSms(answer), answer[..SmsLimit - 3]) &&
      EndsWith(TruncateSms(answer), "...")
    ensures TruncateSms(TruncateSms(answer)) == TruncateSms(answer)
  {
  }

  /** The SMS text for a question and its (truncated) answer. */
  function SmsBody(question: string, answer: string): string
  {
    "Your legal question: " + question + "\n\nAnswer: " + TruncateSms(answer) + "\n\n- Legal Assistant"
  }

  /** `f"Source {i+1}: {source}, page {page}"` */
  function VoiceCitationLine(c: Citation): string
  {
    "Source " + NatToString(c.position) + ": " + c.source + ", page " + IntToString(c.page)
  }

  /** The citations read out, joined with ". ". */
  function VoiceSourceText(cs: seq<Citation>): string
  {
    Join(seq(|cs|, k requires 0 <= k < |cs| => VoiceCitationLine(cs[k])), ". ")
  }

  /**
   * The answer read to the caller: the bot's answer, followed by its
   * citations for English and Hindi callers when there are any.
   */
  function SpokenAnswer(languageName: string, answer: string, cs: seq<Citation>): string
  {
    if cs == [] then answer
    else if Lower(languageName) == "english" then answer + ". Based on: " + VoiceSourceText(cs)
    else if Lower(languageName) == "hindi" then answer + ". आधारित: " + VoiceSourceText(cs)
    else answer
  }

  /** The bot's answer always opens the spoken answer, and citations are added exactly when there are some and the language is English or Hindi. */
  lemma SpokenAnswerMeaning(languageName: string, answer: string, cs: seq<Citation>)
    ensures StartsWith(SpokenAnswer(languageName, answer, cs), answer)
    ensures SpokenAnswer(languageName, answer, cs) != answer <==>
      cs != [] && (Lower(languageName) == "english" || Lower(languageName) == "hindi")
    ensures cs != [] && Lower(languageName) == "english" ==>
      SpokenAnswer(languageName, answer, cs) == answer + ". Based on: " + VoiceSourceText(cs)
  {
    var r := SpokenAnswer(languageName, answer, cs);
    if r != answer {
      assert |r| > |answer|;
    }
    assert r[..|answer|] == answer;
  }

  /** `audio.split(',')[1] if ',' in audio else audio`: the field between the first and the second comma. */
  function VoicePayload(audio: string): string
  {
    if HasChar(audio, ',') then BeforeChar(AfterChar(audio, ','), ',') else audio
  }

  /**
   * The payload is the whole text after the first comma when there is no
   * second one, and otherwise the comma-free field up to the second comma;
   * audio without a comma is passed whole.
   */
  lemma VoicePayloadMeaning(audio: string)
    ensures !HasChar(audio, ',') ==> VoicePayload(audio) == audio
    ensures HasChar(audio, ',') ==>
      !HasChar(VoicePayload(audio), ',') && StartsWith(AfterChar(audio, ','), VoicePayload(audio)) &&
      BeforeChar(audio, ',') + "," + AfterChar(audio, ',') == audio
    ensures var rest := AfterChar(audio, ',');
      HasChar(audio, ',') && !HasChar(rest, ',') ==> VoicePayload(audio) == rest
    ensures var rest := AfterChar(audio, ',');
      HasChar(audio, ',') && HasChar(rest, ',') ==> VoicePayload(audio) + "," + AfterChar(rest, ',') == rest
  {
    SplitAtChar(audio, ',');
    if HasChar(audio, ',') {
      var rest := AfterChar(audio, ',');
      SplitAtChar(rest, ',');
      var p := BeforeChar(rest, ',');
      if HasChar(rest, ',') {
        assert rest == p + [','] + AfterChar(rest, ',');
        assert rest[..|p|] == p;
      }
    }
  }

  /** A bot that is either unset or one of the four. */
  predicate KnownBot(b: Option<string>)
  {
    b.None? || b.value in AllBotNames
  }

  /** The session `/voice` creates for a new call. */
  function FreshCall(callerId: string): CallSession
  {
    CallSession(callerId, None, None, None, None)
  }

  /** The session `/web_session` creates. */
  const FreshWeb: WebSession := WebSession(None, None, None, None)

  // ---------------------------------------------------------------- the server

  class VoiceServerState {
    var callSessions: map<string, CallSession>
    var webSessions: map<string, WebSession>
    var analytics: Analytics

    /** Every selected bot is one of the four, and the counters are consistent. */
    ghost predicate Valid()
      reads this
    {
      (forall k :: k in callSessions ==> KnownBot(callSessions[k].selectedBot)) &&
      (forall k :: k in webSessions ==> KnownBot(webSessions[k].selectedBot)) &&
      AnalyticsValid(analytics)
    }

    constructor()
      ensures callSessions == map[] && webSessions == map[] && analytics == Analytics(0, 0, map[], map[])
      ensures Valid()
    {
      callSessions := map[];
      webSessions := map[];
      analytics := Analytics(0, 0, map[], map[]);
    }

    /** `/voice`: count the call and open a session for a new CallSid; an existing session is kept as it is. */
    method Voice(from: Option<string>, callSid: Option<string>) returns (reply: VoiceReply)
      requires Valid()
      modifies this
      ensures Valid() && reply == AskLanguage
      ensures analytics == old(analytics).(totalCalls := old(analytics).totalCalls + 1)
      ensures var sid := GetOr(callSid, Unknown);
        callSessions == if sid in old(callSessions) then old(callSessions)
                        else old(callSessions)[sid := FreshCall(GetOr(from, Unknown))]
      ensures webSessions == old(webSessions)
    {
      var sid := GetOr(callSid, Unknown);
      analytics := analytics.(totalCalls := analytics.totalCalls + 1);
      if sid !in callSessions {
        callSessions := callSessions[sid := FreshCall(GetOr(from, Unknown))];
      }
      reply := AskLanguage;
    }

    /**
     * `/select_language`: a `LANGUAGES` key stores that language in the
     * call's session and counts it; any other digit changes nothing. A key
     * for a call without a session raises before anything is written.
     */
    method SelectLanguage(digit: Option<string>, callSid: Option<string>) returns (reply: VoiceReply)
      requires Valid()
      modifies this
      ensures Valid() && webSessions == old(webSessions)
      ensures var sid := GetOr(callSid, Unknown);
        match LanguageKey(digit)
        case None =>
          callSessions == old(callSessions) && analytics == old(analytics) && reply == InvalidSelection
        case Some(l) =>
          if sid !in old(callSessions) then
            callSessions == old(callSessions) && analytics == old(analytics) && reply == ServerError
          else
            callSessions == old(callSessions)[sid := old(callSessions)[sid].(language := Some(l))] &&
            analytics == LanguageChosen(old(analytics), l.name) && reply == AskBot(PromptSpeech(l.tts))
    {
      var sid := GetOr(callSid, Unknown);
      var l := LanguageKey(digit);
      if l.None? {
        return InvalidSelection;
      }
      if sid !in callSessions {
        return ServerError;
      }
      callSessions := callSessions[sid := callSessions[sid].(language := l)];
      LanguageChosenValid(analytics, l.value.name);
      analytics := LanguageChosen(analytics, l.value.name);
      reply := AskBot(PromptSpeech(l.value.tts));
    }

    /**
     * `/select_bot`: a `LEGAL_BOTS` key stores the bot; any other digit
     * changes nothing. The bot is written before the language is read, so a
     * session without a language keeps the bot and the request fails.
     */
    method SelectBot(digit: Option<string>, callSid: Option<string>) returns (reply: VoiceReply)
      requires Valid()
      modifies this
      ensures Valid() && webSessions == old(webSessions) && analytics == old(analytics)
      ensures var sid := GetOr(callSid, Unknown);
        match BotKey(digit)
        case None => callSessions == old(callSessions) && reply == InvalidSelection
        case Some(bot) =>
          if sid !in old(callSessions) then callSessions == old(callSessions) && reply == ServerError
          else
            var s := old(callSessions)[sid];
            callSessions == old(callSessions)[sid := s.(selectedBot := Some(bot))] &&
            reply == (if s.language.None? then ServerError else RecordQuestion(bot, PromptSpeech(s.language.value.tts)))
    {
      var sid := GetOr(callSid, Unknown);
      var bot := BotKey(digit);
      if bot.None? {
        return InvalidSelection;
      }
      if sid !in callSessions {
        return ServerError;
      }
      var s := callSessions[sid];
      callSessions := callSessions[sid := s.(selectedBot := bot)];
      if s.language.None? {
        return ServerError;
      }
      reply := RecordQuestion(bot.value, PromptSpeech(s.language.value.tts));
    }

    /**
     * `/process_question`: transcribe the recording, remember the
     * transcription, and when the selected bot is available ask it, remember
     * and read out the answer (with citations), and count the query.
     */
    method ProcessQuestion(recordingUrl: Option<string>, callSid: Option<string>, twilioConfigured: bool,
                           available: seq<string>, transcribe: (string, string) -> Option<string>,
                           query: (string, string) -> Option<QaResult>) returns (reply: VoiceReply)
      requires Valid()
      modifies this
      ensures Valid() && webSessions == old(webSessions)
      ensures Questioned(old(callSessions), callSessions, old(analytics), analytics, GetOr(callSid, Unknown),
                         recordingUrl, twilioConfigured, available, transcribe, query, reply)
    {
      var sid := GetOr(callSid, Unknown);
      if !Truthy(recordingUrl) || sid !in callSessions {
        return ProcessingError;
      }
      var s := callSessions[sid];
      if s.language.None? {
        return ServerError;
      }
      var l := s.language.value;
      var t := transcribe(recordingUrl.value, Lower(l.name));
      if t.None? {
        return ProcessingError;
      }
      reply := AskCallBot(sid, s, l, t.value, twilioConfigured, available, query);
    }

    /** The part of `/process_question` after a successful transcription `t` for session `s`. */
    method AskCallBot(sid: string, s: CallSession, l: Language, t: string, twilioConfigured: bool,
                      available: seq<string>, query: (string, string) -> Option<QaResult>) returns (reply: VoiceReply)
      requires Valid() && sid in callSessions && callSessions[sid] == s && s.language == Some(l)
      modifies this
      ensures Valid() && webSessions == old(webSessions)
      ensures CallBotAsked(old(callSessions), callSessions, old(analytics), analytics, sid, s, l, t,
                           twilioConfigured, available, query, reply)
    {
      var s1 := s.(lastQuestion := Some(t));
      callSessions := callSessions[sid := s1];
      if s.selectedBot.None? || s.selectedBot.value !in available {
        return BotNotAvailable(s.selectedBot, PromptSpeech(l.tts));
      }
      var bot := s.selectedBot.value;
      var result := query(bot, BuildQuery(l.name, t));
      if result.None? {
        return ProcessingError;
      }
      var cs := CollectCitations(result.value.sourceDocuments);
      var answer := SpokenAnswer(l.name, result.value.result, cs);
      callSessions := callSessions[sid := s1.(lastAnswer := Some(answer))];
      QueryAnsweredValid(analytics, bot);
      analytics := QueryAnswered(analytics, bot);
      reply := Answered(t, answer, twilioConfigured && s.callerId != Unknown, PromptSpeech(l.tts));
    }

    /**
     * `/send_sms`: on digit "1", for a known call with an answer and a known
     * caller and with SMS configured, send the question and the truncated
     * answer to the caller. `send(body, to)` is true when the Twilio send
     * returned and false when it raised. A requested SMS that is not sent is
     * reported as such; with no request there is no SMS message at all.
     * Nothing is written. The follow-up prompt reads the session's language,
     * so a session without one fails the request.
     */
    method SendSms(digit: Option<string>, callSid: Option<string>, twilioConfigured: bool,
                   send: (string, string) -> bool) returns (reply: VoiceReply)
      ensures var sid := GetOr(callSid, Unknown);
        reply == ServerError <==> sid in callSessions && callSessions[sid].language.None?
      ensures var sid := GetOr(callSid, Unknown);
        reply != ServerError ==>
          reply.SmsReply? && (reply.outcome.NoSms? <==> !(digit == Some("1") && sid in callSessions && twilioConfigured))
      ensures var sid := GetOr(callSid, Unknown);
        reply.SmsReply? && reply.outcome.Sent? ==>
          var s := callSessions[sid];
          s.lastAnswer.Some? && s.callerId != Unknown && reply.outcome.to == s.callerId &&
          reply.outcome.body == SmsBody(GetOr(s.lastQuestion, "Your legal question"), s.lastAnswer.value) &&
          send(reply.outcome.body, reply.outcome.to)
      ensures var sid := GetOr(callSid, Unknown);
        (reply.SmsReply? && digit == Some("1") && sid in callSessions && twilioConfigured &&
         callSessions[sid].lastAnswer.Some? && callSessions[sid].callerId != Unknown &&
         send(SmsBody(GetOr(callSessions[sid].lastQuestion, "Your legal question"), callSessions[sid].lastAnswer.value),
              callSessions[sid].callerId)) ==> reply.outcome.Sent?
      ensures var sid := GetOr(callSid, Unknown);
        reply.SmsReply? ==> reply.speech == (if sid in callSessions then PromptSpeech(callSessions[sid].language.value.tts) else English)
    {
      var sid := GetOr(callSid, Unknown);
      var outcome := NoSms;
      if digit == Some("1") && sid in callSessions && twilioConfigured {
        var s := callSessions[sid];
        if s.lastAnswer.Some? && s.callerId != Unknown {
          var body := SmsBody(GetOr(s.lastQuestion, "Your legal question"), s.lastAnswer.value);
          var ok := send(body, s.callerId);
          // the confirmation reads the language inside the same try block
          outcome := if ok && s.language.Some? then Sent(body, s.callerId) else NotSent;
        } else {
          outcome := NotSent;
        }
      }
      if sid in callSessions {
        var s := callSessions[sid];
        if s.language.None? {
          return ServerError;
        }
        reply := SmsReply(outcome, PromptSpeech(s.language.value.tts));
      } else {
        reply := SmsReply(outcome, English);
      }
    }

    /**
     * `/another_question`: "1" goes back to bot choice and keeps the call's
     * session; any other digit says goodbye and deletes it. Both read the
     * session's language: without one the request fails and nothing is
     * deleted.
     */
    method AnotherQuestion(digit: Option<string>, callSid: Option<string>) returns (reply: VoiceReply)
      requires Valid()
      modifies this
      ensures Valid() && webSessions == old(webSessions) && analytics == old(analytics)
      ensures var sid := GetOr(callSid, Unknown);
        var speech := if sid in old(callSessions) && old(callSessions)[sid].language.Some?
                      then PromptSpeech(old(callSessions)[sid].language.value.tts) else English;
        if sid in old(callSessions) && old(callSessions)[sid].language.None? then
          callSessions == old(callSessions) && reply == ServerError
        else if digit == Some("1") then
          callSessions == old(callSessions) && reply == AskBot(speech)
        else
          callSessions == old(callSessions) - {sid} && reply == Goodbye(speech)
    {
      var sid := GetOr(callSid, Unknown);
      var speech := English;
      if sid in callSessions {
        var s := callSessions[sid];
        if s.language.None? {
          return ServerError;
        }
        speech := PromptSpeech(s.language.value.tts);
      }
      if digit == Some("1") {
        return AskBot(speech);
      }
      if sid in callSessions {
        callSessions := map k | k in callSessions && k != sid :: callSessions[k];
      }
      reply := Goodbye(speech);
    }

    /** `/web_session`: register `id` (a fresh uuid) with no language and no bot. */
    method CreateWebSession(id: string) returns (reply: WebReply)
      requires Valid()
      modifies this
      ensures Valid() && callSessions == old(callSessions) && analytics == old(analytics)
      ensures webSessions == old(webSessions)[id := FreshWeb] && reply == SessionCreated(id)
    {
      webSessions := webSessions[id := FreshWeb];
      reply := SessionCreated(id);
    }

    /** `/web_set_language`: the session is checked before the language; only when both pass is the language stored and counted. */
    method WebSetLanguage(sessionId: Option<string>, code: Option<string>) returns (reply: WebReply)
      requires Valid()
      modifies this
      ensures Valid() && callSessions == old(callSessions)
      ensures !Truthy(sessionId) || sessionId.value !in old(webSessions) ==>
        webSessions == old(webSessions) && analytics == old(analytics) && reply == InvalidSession
      ensures Truthy(sessionId) && sessionId.value in old(webSessions) && LanguageKey(code).None? ==>
        webSessions == old(webSessions) && analytics == old(analytics) && reply == InvalidLanguage
      ensures Truthy(sessionId) && sessionId.value in old(webSessions) && LanguageKey(code).Some? ==>
        var l := LanguageKey(code).value;
        webSessions == old(webSessions)[sessionId.value := old(webSessions)[sessionId.value].(language := Some(l))] &&
        analytics == LanguageChosen(old(analytics), l.name) && reply == LanguageSet(l.name)
    {
      if !Truthy(sessionId) || sessionId.value !in webSessions {
        return InvalidSession;
      }
      var l := LanguageKey(code);
      if l.None? {
        return InvalidLanguage;
      }
      var id := sessionId.value;
      webSessions := webSessions[id := webSessions[id].(language := l)];
      LanguageChosenValid(analytics, l.value.name);
      analytics := LanguageChosen(analytics, l.value.name);
      reply := LanguageSet(l.value.name);
    }

    /** `/web_set_bot`: the same checks, then only the session's bot changes. */
    method WebSetBot(sessionId: Option<string>, code: Option<string>) returns (reply: WebReply)
      requires Valid()
      modifies this
      ensures Valid() && callSessions == old(callSessions) && analytics == old(analytics)
      ensures !Truthy(sessionId) || sessionId.value !in old(webSessions) ==>
        webSessions == old(webSessions) && reply == InvalidSession
      ensures Truthy(sessionId) && sessionId.value in old(webSessions) && BotKey(code).None? ==>
        webSessions == old(webSessions) && reply == InvalidBot
      ensures Truthy(sessionId) && sessionId.value in old(webSessions) && BotKey(code).Some? ==>
        webSessions == old(webSessions)[sessionId.value := old(webSessions)[sessionId.value].(selectedBot := BotKey(code))] &&
        reply == BotSet(BotKey(code).value)
    {
      if !Truthy(sessionId) || sessionId.value !in webSessions {
        return InvalidSession;
      }
      var bot := BotKey(code);
      if bot.None? {
        return InvalidBot;
      }
      var id := sessionId.value;
      webSessions := webSessions[id := webSessions[id].(selectedBot := bot)];
      reply := BotSet(bot.value);
    }

    /**
     * `/web_process_audio`: after the session and audio checks, transcribe
     * the payload of the data URL, remember the transcription, and when the
     * bot is available ask it, remember the answer, count the query and
     * return the answer with its citations.
     */
    method WebProcessAudio(sessionId: Option<string>, audio: Option<string>, available: seq<string>,
                           transcribe: (string, string) -> Option<string>,
                           query: (string, string) -> Option<QaResult>) returns (reply: WebReply)
      requires Valid()
      modifies this
      ensures Valid() && callSessions == old(callSessions)
      ensures WebQuestioned(old(webSessions), webSessions, old(analytics), analytics, sessionId, audio,
                            available, transcribe, query, reply)
    {
      if !Truthy(sessionId) || sessionId.value !in webSessions {
        return InvalidSession;
      }
      if !Truthy(audio) {
        return NoAudio;
      }
      var id := sessionId.value;
      var s := webSessions[id];
      if s.language.None? {
        return WebServerError;
      }
      var name := s.language.value.name;
      var t := transcribe(VoicePayload(audio.value), Lower(name));
      if t.None? {
        return WebFailed;
      }
      reply := AskWebBot(id, s, name, t.value, available, query);
    }

    /** The part of `/web_process_audio` after a successful transcription `t` for session `s`. */
    method AskWebBot(id: string, s: WebSession, name: string, t: string,
                     available: seq<string>, query: (string, string) -> Option<QaResult>) returns (reply: WebReply)
      requires Valid() && id in webSessions && webSessions[id] == s
      modifies this
      ensures Valid() && callSessions == old(callSessions)
      ensures WebBotAsked(old(webSessions), webSessions, old(analytics), analytics, id, s, name, t, available, query, reply)
    {
      var s1 := s.(lastQuestion := Some(t));
      webSessions := webSessions[id := s1];
      if s.selectedBot.None? || s.selectedBot.value !in available {
        return WebBotUnavailable(s.selectedBot);
      }
      var bot := s.selectedBot.value;
      var result := query(bot, BuildQuery(name, t));
      if result.None? {
        return WebFailed;
      }
      var cs := CollectCitations(result.value.sourceDocuments);
      webSessions := webSessions[id := s1.(lastAnswer := Some(result.value.result))];
      QueryAnsweredValid(analytics, bot);
      analytics := QueryAnswered(analytics, bot);
      reply := WebAnswer(t, result.value.result, SourcePairs(cs));
    }
  }

  /**
   * What `/process_question` does to the call sessions and counters. A
   * missing URL, an unknown call, a session without a language or a failed
   * transcription change nothing; from then on the transcription is kept as
   * the last question even when the bot is unavailable or its query fails;
   * only an answered query stores the answer and moves the counters.
   */
  ghost predicate Questioned(before: map<string, CallSession>, after: map<string, CallSession>,
                             a0: Analytics, a1: Analytics, sid: string, recordingUrl: Option<string>,
                             twilioConfigured: bool, available: seq<string>,
                             transcribe: (string, string) -> Option<string>,
                             query: (string, string) -> Option<QaResult>, reply: VoiceReply)
  {
    if !Truthy(recordingUrl) || sid !in before then after == before && a1 == a0 && reply == ProcessingError
    else
      var s := before[sid];
      if s.language.None? then after == before && a1 == a0 && reply == ServerError
      else
        var l := s.language.value;
        match transcribe(recordingUrl.value, Lower(l.name))
        case None => after == before && a1 == a0 && reply == ProcessingError
        case Some(t) => CallBotAsked(before, after, a0, a1, sid, s, l, t, twilioConfigured, available, query, reply)
  }

  /**
   * Once transcribed, the question is the session's last question whatever
   * follows; an unavailable bot or a failed query stops there, and an
   * answered query stores the spoken answer and moves the counters.
   */
  ghost predicate CallBotAsked(before: map<string, CallSession>, after: map<string, CallSession>,
                               a0: Analytics, a1: Analytics, sid: string, s: CallSession, l: Language, t: string,
                               twilioConfigured: bool, available: seq<string>,
                               query: (string, string) -> Option<QaResult>, reply: VoiceReply)
  {
    var s1 := s.(lastQuestion := Some(t));
    if s.selectedBot.None? || s.selectedBot.value !in available then
      after == before[sid := s1] && a1 == a0 && reply == BotNotAvailable(s.selectedBot, PromptSpeech(l.tts))
    else
      match query(s.selectedBot.value, BuildQuery(l.name, t))
      case None => after == before[sid := s1] && a1 == a0 && reply == ProcessingError
      case Some(r) =>
        var answer := SpokenAnswer(l.name, r.result, Citations(r.sourceDocuments));
        after == before[sid := s1.(lastAnswer := Some(answer))] &&
        a1 == QueryAnswered(a0, s.selectedBot.value) &&
        reply == Answered(t, answer, twilioConfigured && s.callerId != Unknown, PromptSpeech(l.tts))
  }

  /** What `/web_process_audio` does to the web sessions and counters, in the order of its checks. */
  ghost predicate WebQuestioned(before: map<string, WebSession>, after: map<string, WebSession>,
                                a0: Analytics, a1: Analytics, sessionId: Option<string>, audio: Option<string>,
                                available: seq<string>, transcribe: (string, string) -> Option<string>,
                                query: (string, string) -> Option<QaResult>, reply: WebReply)
  {
    if !Truthy(sessionId) || sessionId.value !in before then after == before && a1 == a0 && reply == InvalidSession
    else if !Truthy(audio) then after == before && a1 == a0 && reply == NoAudio
    else
      var id := sessionId.value;
      var s := before[id];
      if s.language.None? then after == before && a1 == a0 && reply == WebServerError
      else
        var name := s.language.value.name;
        match transcribe(VoicePayload(audio.value), Lower(name))
        case None => after == before && a1 == a0 && reply == WebFailed
        case Some(t) => WebBotAsked(before, after, a0, a1, id, s, name, t, available, query, reply)
  }

  /** The web counterpart of `CallBotAsked`; the answer is returned with its sources rather than read out. */
  ghost predicate WebBotAsked(before: map<string, WebSession>, after: map<string, WebSession>,
                              a0: Analytics, a1: Analytics, id: string, s: WebSession, name: string, t: string,
                              available: seq<string>, query: (string, string) -> Option<QaResult>, reply: WebReply)
  {
    var s1 := s.(lastQuestion := Some(t));
    if s.selectedBot.None? || s.selectedBot.value !in available then
      after == before[id := s1] && a1 == a0 && reply == WebBotUnavailable(s.selectedBot)
    else
      match query(s.selectedBot.value, BuildQuery(name, t))
      case None => after == before[id := s1] && a1 == a0 && reply == WebFailed
      case Some(r) =>
        after == before[id := s1.(lastAnswer := Some(r.result))] &&
        a1 == QueryAnswered(a0, s.selectedBot.value) &&
        reply == WebAnswer(t, r.result, SourcePairs(Citations(r.sourceDocuments)))
  }

  /** Every answered call query moves the query count and that bot's count by exactly one, and nothing else moves them. */
  lemma AnsweredQueriesCounted(before: map<string, CallSession>, after: map<string, CallSession>,
                               a0: Analytics, a1: Analytics, sid: string, recordingUrl: Option<string>,
                               twilioConfigured: bool, available: seq<string>,
                               transcribe: (string, string) -> Option<string>,
                               query: (string, string) -> Option<QaResult>, reply: VoiceReply)
    requires Questioned(before, after, a0, a1, sid, recordingUrl, twilioConfigured, available, transcribe, query, reply)
    ensures reply.Answered? ==>
      sid in before && before[sid].selectedBot.Some? && before[sid].selectedBot.value in available &&
      a1.completedQueries == a0.completedQueries + 1 &&
      Count(a1.bots, before[sid].selectedBot.value) == Count(a0.bots, before[sid].selectedBot.value) + 1 &&
      after[sid].lastAnswer == Some(reply.answer)
    ensures !reply.Answered? ==> a1 == a0
  {
  }
}
