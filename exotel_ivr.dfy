/**
 * The Python Exotel IVR (new/caller_bot/exotel_ivr.py): the language choice
 * of the welcome step, the menu selection that writes `user_sessions`, the
 * guards of the question step and the choice after an answer. The translator
 * service enters as `translate(language, text)`, the audio file it answered
 * with or None when the request raised; speech-to-text, the bot query and
 * text-to-speech of the RAG service as oracles of the same kind.
 */
module ExotelIvr {
  import opened Common
  import opened Catalog
  import Translator

  /** `user_sessions[CallSid]` as `menu_selection` writes it. */
  datatype Session = Session(selectedBot: string, language: string)

  /** `bot_mapping`, keyed by the menu digit. */
  function BotMapping(digit: string): (bot: Option<string>)
    ensures bot.Some? <==> digit in {"1", "2", "3", "4"}
    ensures bot.Some? ==> bot.value in AllBotNames
  {
    if digit == "1" then Some("RTI Bot")
    else if digit == "2" then Some("IPC Bot")
    else if digit == "3" then Some("Labor Law Bot")
    else if digit == "4" then Some("Constitution Bot")
    else None
  }

  /** The menu numbers the four bots differently from `LEGAL_BOTS`: 1 is RTI and 2 is IPC. */
  lemma BotMappingOrder()
    ensures BotMapping("1") == Some("RTI Bot") && LegalBot("1") == Some("IPC Bot")
    ensures BotMapping("2") == Some("IPC Bot") && LegalBot("2") == Some("RTI Bot")
    ensures BotMapping("3") == LegalBot("3") && BotMapping("4") == LegalBot("4")
  {
  }

  /** The IVR's answers, by what they play and where they lead. */
  datatype IvrReply =
    | PlayWelcome
    | PlayMenu(language: string)
    | ReplayMenu(language: string)
    | AskQuestion(audioFile: string)
    | PromptFailed
    | RecordingFailed
    | PlayAnswer(audioFile: string)
    | QuestionFailed
    | AskNextQuestion(audioFile: string)
    | Goodbye(speech: Speech)
    | ServerError

  /** The text prompts are Hindi for a "hindi" session and English for every other language name. */
  function SpeechOf(language: string): (s: Speech)
    ensures s == Hindi <==> language == "hindi"
  {
    if language == "hindi" then Hindi else English
  }

  /** The menu language a welcome digit selects: "2" is Hindi, any other digit English. */
  function MenuLanguage(digit: string): string
  {
    if digit == "1" then "english" else if digit == "2" then "hindi" else "english"
  }

  /**
   * `welcome_ivr` as written: a digit picks the menu's language, but the
   * branch for no digits formats `request.url` although no `request` is in
   * scope, so it raises `NameError` and the request fails.
   */
  function WelcomeIvr(digits: Option<string>): IvrReply
  {
    if !Truthy(digits) then ServerError
    else PlayMenu(MenuLanguage(digits.value))
  }

  /** As written: a call without digits always fails; only "2" selects Hindi; every other digit selects English. */
  lemma WelcomeChoice(digits: Option<string>)
    ensures WelcomeIvr(digits) == ServerError <==> !Truthy(digits)
    ensures WelcomeIvr(None) == ServerError && WelcomeIvr(Some("")) == ServerError
    ensures WelcomeIvr(digits) == PlayMenu("hindi") <==> digits == Some("2")
    ensures Truthy(digits) && digits.value != "2" ==> WelcomeIvr(digits) == PlayMenu("english")
  {
  }

  /** `welcome_ivr` as evidently intended: no digits plays the welcome and gathers a digit. */
  function WelcomeIvrIntended(digits: Option<string>): IvrReply
  {
    if !Truthy(digits) then PlayWelcome
    else PlayMenu(MenuLanguage(digits.value))
  }

  /**
   * The intended handler never fails: it plays the welcome exactly when no
   * digit was entered, and otherwise answers as the written one does.
   */
  lemma IntendedWelcomeChoice(digits: Option<string>)
    ensures WelcomeIvrIntended(digits) != ServerError
    ensures WelcomeIvrIntended(digits) == PlayWelcome <==> !Truthy(digits)
    ensures Truthy(digits) ==> WelcomeIvrIntended(digits) == WelcomeIvr(digits)
    ensures WelcomeIvrIntended(digits) == PlayMenu("hindi") <==> digits == Some("2")
  {
  }

  /** The translator oracle only answers with audio for a language the translation service supports. */
  ghost predicate ServedByTranslator(translate: (string, string) -> Option<string>)
  {
    forall language, text :: translate(language, text).Some? ==> language in Translator.SupportedLanguages
  }

  /** The prompt after a selection, in the session's language. */
  function SelectedPrompt(bot: string, language: string): string
  {
    if language == "hindi" then "आपने " + bot + " का चयन किया है। कृपया बीप के बाद अपना सवाल पूछें।"
    else "You've selected " + bot + ". Please ask your question after the beep."
  }

  /** The prompt for a further question. */
  function NextPrompt(language: string): string
  {
    if language == "hindi" then "कृपया बीप के बाद अपना अगला सवाल पूछें।"
    else "Please ask your next question after the beep."
  }

  class ExotelIvrServer {
    var sessions: map<string, Session>

    /** Every stored session names one of the four bots. */
    ghost predicate Valid()
      reads this
    {
      forall k :: k in sessions ==> sessions[k].selectedBot in AllBotNames
    }

    constructor()
      ensures sessions == map[] && Valid()
    {
      sessions := map[];
    }

    /**
     * `menu_selection` for the menu of `language`. Missing and out-of-menu
     * digits replay the menu and write nothing; a menu digit overwrites the
     * call's session, and only then is the prompt translated, so the session
     * stays written when the translator fails.
     */
    method MenuSelection(language: string, callSid: string, digits: Option<string>,
                         translate: (string, string) -> Option<string>) returns (reply: IvrReply)
      requires Valid()
      modifies this
      ensures Valid()
      ensures MenuSelected(old(sessions), sessions, language, callSid, digits, translate, reply)
    {
      if !Truthy(digits) || digits.value !in ["1", "2", "3", "4"] {
        return ReplayMenu(language);
      }
      var bot := BotMapping(digits.value).value;
      sessions := sessions[callSid := Session(bot, language)];
      var audio := translate(language, SelectedPrompt(bot, language));
      if audio.None? {
        reply := PromptFailed;
      } else {
        reply := AskQuestion(audio.value);
      }
    }

    /**
     * `process_question`. It reads the session and never writes it. A
     * recording that did not complete, or has no URL, hangs up before the
     * session is looked at; a call without a selected bot, and any failing
     * service, ends on the apology.
     */
    method ProcessQuestion(callSid: string, recordingUrl: Option<string>, recordingStatus: Option<string>,
                           stt: (string, string) -> Option<string>, query: (string, string) -> Option<string>,
                           tts: (string, string) -> Option<string>) returns (reply: IvrReply)
      ensures recordingStatus != Some("completed") || !Truthy(recordingUrl) ==> reply == RecordingFailed
      ensures recordingStatus == Some("completed") && Truthy(recordingUrl) ==>
        (callSid !in sessions || sessions[callSid].selectedBot == "" ==> reply == QuestionFailed) &&
        (callSid in sessions && sessions[callSid].selectedBot != "" ==>
          Answered(sessions[callSid], recordingUrl.value, stt, query, tts, reply))
      ensures reply.PlayAnswer? ==> callSid in sessions && recordingStatus == Some("completed")
      ensures Valid() && recordingStatus == Some("completed") && Truthy(recordingUrl) && callSid in sessions ==>
        Answered(sessions[callSid], recordingUrl.value, stt, query, tts, reply)
    {
      if recordingStatus != Some("completed") || !Truthy(recordingUrl) {
        return RecordingFailed;
      }
      if callSid !in sessions || sessions[callSid].selectedBot == "" {
        return QuestionFailed;
      }
      var session := sessions[callSid];
      var question := stt(recordingUrl.value, session.language);
      if question.None? {
        return QuestionFailed;
      }
      var answer := query(session.selectedBot, question.value);
      if answer.None? {
        return QuestionFailed;
      }
      var audio := tts(answer.value, session.language);
      if audio.None? {
        return QuestionFailed;
      }
      reply := PlayAnswer(audio.value);
    }

    /**
     * `after_answer`. It never writes the session. "1" with a selected bot
     * asks for another question when the prompt translates; everything else,
     * a failed translation included, says goodbye, in English unless the
     * session's language is "hindi". A missing session counts as English
     * without a bot.
     */
    method AfterAnswer(callSid: string, digits: Option<string>, translate: (string, string) -> Option<string>)
      returns (reply: IvrReply)
      ensures var language := if callSid in sessions then sessions[callSid].language else "english";
        var asks := digits == Some("1") && callSid in sessions && sessions[callSid].selectedBot != "";
        (asks && translate(language, NextPrompt(language)).Some? ==>
           reply == AskNextQuestion(translate(language, NextPrompt(language)).value)) &&
        (!asks || translate(language, NextPrompt(language)).None? ==> reply == Goodbye(SpeechOf(language)))
    {
      var language := if callSid in sessions then sessions[callSid].language else "english";
      if digits == Some("1") && callSid in sessions && sessions[callSid].selectedBot != "" {
        var audio := translate(language, NextPrompt(language));
        if audio.Some? {
          return AskNextQuestion(audio.value);
        }
      }
      reply := Goodbye(SpeechOf(language));
    }
  }

  /**
   * What `menu_selection` does: no write and a menu replay for anything but
   * "1".."4"; otherwise the call's session becomes that digit's bot with the
   * menu's language, and the reply is the recording prompt or, when the
   * translator fails, the apology.
   */
  ghost predicate MenuSelected(before: map<string, Session>, after: map<string, Session>, language: string,
                               callSid: string, digits: Option<string>,
                               translate: (string, string) -> Option<string>, reply: IvrReply)
  {
    if !Truthy(digits) || BotMapping(digits.value).None? then after == before && reply == ReplayMenu(language)
    else
      var bot := BotMapping(digits.value).value;
      after == before[callSid := Session(bot, language)] &&
      match translate(language, SelectedPrompt(bot, language))
      case None => reply == PromptFailed
      case Some(audio) => reply == AskQuestion(audio)
  }

  /** The question path: transcribe in the session's language, ask its bot, speak the answer. */
  ghost predicate Answered(s: Session, url: string, stt: (string, string) -> Option<string>,
                           query: (string, string) -> Option<string>, tts: (string, string) -> Option<string>,
                           reply: IvrReply)
  {
    match stt(url, s.language)
    case None => reply == QuestionFailed
    case Some(question) =>
      match query(s.selectedBot, question)
      case None => reply == QuestionFailed
      case Some(answer) =>
        match tts(answer, s.language)
        case None => reply == QuestionFailed
        case Some(audio) => reply == PlayAnswer(audio)
  }

  /** Menu selection only ever adds or overwrites the one call's entry: no session is removed. */
  lemma MenuSelectionKeepsSessions(before: map<string, Session>, after: map<string, Session>, language: string,
                                   callSid: string, digits: Option<string>,
                                   translate: (string, string) -> Option<string>, reply: IvrReply)
    requires MenuSelected(before, after, language, callSid, digits, translate, reply)
    ensures before.Keys <= after.Keys
    ensures forall k :: k in before && k != callSid ==> k in after && after[k] == before[k]
    ensures reply != ReplayMenu(language) ==> callSid in after && after[callSid].language == language
  {
  }

  /**
   * Against the translation service of this repository, which serves no
   * "english" model, an English menu selection always ends on the apology
   * after writing the session, and an English caller who asks for another
   * question is told goodbye instead.
   */
  lemma EnglishPromptsFail(before: map<string, Session>, after: map<string, Session>, callSid: string,
                           digits: Option<string>, translate: (string, string) -> Option<string>, reply: IvrReply)
    requires ServedByTranslator(translate)
    requires MenuSelected(before, after, "english", callSid, digits, translate, reply)
    requires Truthy(digits) && digits.value in {"1", "2", "3", "4"}
    ensures reply == PromptFailed && callSid in after
    ensures translate("english", NextPrompt("english")).None?
  {
    var bot := BotMapping(digits.value).value;
    assert "english" !in Translator.SupportedLanguages;
    assert translate("english", SelectedPrompt(bot, "english")).Some? ==> "english" in Translator.SupportedLanguages;
    assert translate("english", NextPrompt("english")).Some? ==> "english" in Translator.SupportedLanguages;
  }
}
