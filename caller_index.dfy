/**
 * The Node Exotel caller (new/callerjs/index.js): the `callSessions` object
 * that `/hello` resets, `/select-language` creates or updates,
 * `/select-domain` updates, `/after-answer` and `/call-status` delete from.
 * Form fields are Options (undefined when absent); a call id that is absent
 * is the property key "undefined", as JavaScript turns it into a string.
 * Speech-to-text, the bot query and text-to-speech enter as oracles returning
 * None when the request raised.
 */
module CallerIndex {
  import opened Common
  import opened Catalog

  datatype Stage = Welcome | LanguageSelected | DomainSelected

  /**
   * A session's `botType`: no such property (a session `/select-language`
   * created), the `null` that `/hello` stores, or a chosen bot.
   */
  datatype BotChoice = Unset | NullBot | Chosen(name: string)

  /**
   * The bot segment of the query URL, `encodeURIComponent(session.botType)`,
   * as the RAG service decodes it: JavaScript turns a missing property into
   * "undefined" and `null` into "null".
   */
  function BotSegment(b: BotChoice): string
  {
    match b
    case Unset => "undefined"
    case NullBot => "null"
    case Chosen(name) => name
  }

  /** `callSessions[callSid]` */
  datatype Session = Session(callerNumber: Option<string>, stage: Stage, language: string, botType: BotChoice)

  /** The property key an optional call id gives. */
  function Key(callSid: Option<string>): (k: string)
    ensures callSid.Some? ==> k == callSid.value
  {
    if callSid.Some? then callSid.value else "undefined"
  }

  /** The language prompts are spoken in: English for 'en', Hindi for anything else. */
  function SpeechOf(language: string): (s: Speech)
    ensures s == English <==> language == "en"
  {
    if language == "en" then English else Hindi
  }

  /** The language name sent to the speech services. */
  function ServiceLanguage(language: string): (name: string)
    ensures name == "english" <==> language == "en"
    ensures name != "english" ==> name == "hindi"
  {
    if language == "en" then "english" else "hindi"
  }

  /** `botTypes[digits] || 'RTI Bot'` */
  function BotTypeFor(digits: Option<string>): (bot: string)
    ensures bot in AllBotNames
    ensures digits != Some("2") && digits != Some("3") && digits != Some("4") ==> bot == "RTI Bot"
  {
    if digits == Some("1") then "RTI Bot"
    else if digits == Some("2") then "IPC Bot"
    else if digits == Some("3") then "Labor Law Bot"
    else if digits == Some("4") then "Constitution Bot"
    else "RTI Bot"
  }

  /** The statuses `/call-status` treats as the end of a call. */
  predicate CallEnded(status: Option<string>)
  {
    status == Some("completed") || status == Some("failed") || status == Some("busy") || status == Some("no-answer")
  }

  /** The answers, by what they say and where they lead. */
  datatype CallReply =
    | WelcomePrompt
    | DomainMenu(speech: Speech)
    | RedirectHello
    | RecordQuestion(bot: string, speech: Speech)
    | RecordFailed
    | PlayAnswer(audioFile: string, speech: Speech)
    | ProcessFailed(speech: Speech)
    | AskAgain(speech: Speech)
    | Goodbye(speech: Speech)
    | StatusOk

  class CallerServer {
    var sessions: map<string, Session>

    /** Every stored language is 'en' or 'hi', and a session past domain selection has chosen one of the four bots. */
    ghost predicate Valid()
      reads this
    {
      forall k :: k in sessions ==>
        (sessions[k].language == "en" || sessions[k].language == "hi") &&
        (sessions[k].stage == DomainSelected ==> sessions[k].botType.Chosen? && sessions[k].botType.name in AllBotNames)
    }

    constructor()
      ensures sessions == map[] && Valid()
    {
      sessions := map[];
    }

    /** `/hello`: the call's session is overwritten with a welcome-stage English one whose bot is `null`. */
    method Hello(callSid: Option<string>, from: Option<string>) returns (reply: CallReply)
      requires Valid()
      modifies this
      ensures Valid()
      ensures sessions == old(sessions)[Key(callSid) := Session(from, Welcome, "en", NullBot)] && reply == WelcomePrompt
    {
      sessions := sessions[Key(callSid) := Session(from, Welcome, "en", NullBot)];
      reply := WelcomePrompt;
    }

    /**
     * `/select-language`: no digit counts as '1'; '1' is English and every
     * other digit Hindi; a missing session is created, an existing one keeps
     * its caller and bot.
     */
    method SelectLanguage(callSid: Option<string>, from: Option<string>, digits: Option<string>)
      returns (reply: CallReply)
      requires Valid()
      modifies this
      ensures Valid()
      ensures var language := if OrElse(digits, "1") == "1" then "en" else "hi";
        var base := if Key(callSid) in old(sessions) then old(sessions)[Key(callSid)] else Session(from, LanguageSelected, "en", Unset);
        sessions == old(sessions)[Key(callSid) := base.(language := language, stage := LanguageSelected)] &&
        reply == DomainMenu(SpeechOf(language))
    {
      var key := Key(callSid);
      var d := OrElse(digits, "1");
      if key !in sessions {
        sessions := sessions[key := Session(from, LanguageSelected, "en", Unset)];
      }
      var language := if d == "1" then "en" else "hi";
      sessions := sessions[key := sessions[key].(language := language, stage := LanguageSelected)];
      reply := DomainMenu(SpeechOf(language));
    }

    /** `/select-domain`: a lost session restarts at `/hello`; otherwise the digit's bot, RTI by default, is stored. */
    method SelectDomain(callSid: Option<string>, digits: Option<string>) returns (reply: CallReply)
      requires Valid()
      modifies this
      ensures Valid()
      ensures Key(callSid) !in old(sessions) ==> sessions == old(sessions) && reply == RedirectHello
      ensures Key(callSid) in old(sessions) ==>
        var s := old(sessions)[Key(callSid)];
        sessions == old(sessions)[Key(callSid) := s.(stage := DomainSelected, botType := Chosen(BotTypeFor(digits)))] &&
        reply == RecordQuestion(BotTypeFor(digits), SpeechOf(s.language))
    {
      var key := Key(callSid);
      if key !in sessions {
        return RedirectHello;
      }
      var bot := BotTypeFor(digits);
      sessions := sessions[key := sessions[key].(stage := DomainSelected, botType := Chosen(bot))];
      reply := RecordQuestion(bot, SpeechOf(sessions[key].language));
    }

    /**
     * `/process-question`. It never writes the session. A lost session, a
     * recording that did not complete, or a missing URL hang up; otherwise
     * the question is transcribed, asked of the session's bot and spoken in
     * the session's language, any failure ending on the apology.
     */
    method ProcessQuestion(callSid: Option<string>, recordingUrl: Option<string>, recordingStatus: Option<string>,
                           stt: (string, string) -> Option<string>, ask: (string, string) -> Option<string>,
                           tts: (string, string) -> Option<string>) returns (reply: CallReply)
      ensures Key(callSid) !in sessions || recordingStatus != Some("completed") || !Truthy(recordingUrl) <==>
        reply == RecordFailed
      ensures Key(callSid) in sessions && recordingStatus == Some("completed") && Truthy(recordingUrl) ==>
        Answered(sessions[Key(callSid)], recordingUrl.value, stt, ask, tts, reply)
    {
      var key := Key(callSid);
      if key !in sessions || recordingStatus != Some("completed") || !Truthy(recordingUrl) {
        return RecordFailed;
      }
      var session := sessions[key];
      var service := ServiceLanguage(session.language);
      var speech := SpeechOf(session.language);
      var question := stt(recordingUrl.value, service);
      if question.None? {
        return ProcessFailed(speech);
      }
      var answer := ask(BotSegment(session.botType), question.value);
      if answer.None? {
        return ProcessFailed(speech);
      }
      var audio := tts(answer.value, service);
      if audio.None? {
        return ProcessFailed(speech);
      }
      reply := PlayAnswer(audio.value, speech);
    }

    /** `/after-answer`: a lost session restarts at `/hello`; '1' asks again and keeps it; anything else deletes it. */
    method AfterAnswer(callSid: Option<string>, digits: Option<string>) returns (reply: CallReply)
      requires Valid()
      modifies this
      ensures Valid()
      ensures Key(callSid) !in old(sessions) ==> sessions == old(sessions) && reply == RedirectHello
      ensures Key(callSid) in old(sessions) && digits == Some("1") ==>
        sessions == old(sessions) && reply == AskAgain(SpeechOf(old(sessions)[Key(callSid)].language))
      ensures Key(callSid) in old(sessions) && digits != Some("1") ==>
        sessions == old(sessions) - {Key(callSid)} && reply == Goodbye(SpeechOf(old(sessions)[Key(callSid)].language))
    {
      var key := Key(callSid);
      if key !in sessions {
        return RedirectHello;
      }
      var speech := SpeechOf(sessions[key].language);
      if digits == Some("1") {
        return AskAgain(speech);
      }
      sessions := map k | k in sessions && k != key :: sessions[k];
      reply := Goodbye(speech);
    }

    /** `/call-status`: the session is deleted exactly when the call completed, failed, was busy or was not answered. */
    method CallStatus(callSid: Option<string>, callStatus: Option<string>) returns (reply: CallReply)
      requires Valid()
      modifies this
      ensures Valid()
      ensures CallEnded(callStatus) ==> sessions == old(sessions) - {Key(callSid)}
      ensures !CallEnded(callStatus) ==> sessions == old(sessions)
      ensures reply == StatusOk
    {
      if CallEnded(callStatus) {
        sessions := map k | k in sessions && k != Key(callSid) :: sessions[k];
      }
      reply := StatusOk;
    }

    /**
     * A call that went through `/select-domain` asks one of the four bots;
     * only a call that skipped it asks "undefined" or "null".
     */
    lemma DomainSelectedAsksNamedBot(key: string)
      requires Valid() && key in sessions
      ensures sessions[key].stage == DomainSelected ==> BotSegment(sessions[key].botType) in AllBotNames
      ensures sessions[key].botType.Unset? ==> BotSegment(sessions[key].botType) == "undefined"
      ensures sessions[key].botType.NullBot? ==> BotSegment(sessions[key].botType) == "null"
    {
    }
  }

  /**
   * The question path for session `s`: transcribed and spoken in the
   * session's service language, asked of the bot its URL names
   * ("undefined" or "null" when none was chosen).
   */
  ghost predicate Answered(s: Session, url: string, stt: (string, string) -> Option<string>,
                           ask: (string, string) -> Option<string>, tts: (string, string) -> Option<string>,
                           reply: CallReply)
  {
    var service := ServiceLanguage(s.language);
    match stt(url, service)
    case None => reply == ProcessFailed(SpeechOf(s.language))
    case Some(question) =>
      match ask(BotSegment(s.botType), question)
      case None => reply == ProcessFailed(SpeechOf(s.language))
      case Some(answer) =>
        match tts(answer, service)
        case None => reply == ProcessFailed(SpeechOf(s.language))
        case Some(audio) => reply == PlayAnswer(audio, SpeechOf(s.language))
  }

  /** After `/select-language` the call speaks English exactly when the digit was '1' or missing. */
  lemma LanguageChoice(digits: Option<string>)
    ensures var language := if OrElse(digits, "1") == "1" then "en" else "hi";
      (SpeechOf(language) == English <==> digits.None? || digits == Some("") || digits == Some("1")) &&
      ServiceLanguage(language) == (if language == "en" then "english" else "hindi")
  {
  }
}
