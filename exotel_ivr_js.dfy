/**
 * The Node Exotel IVR (new/callerjs/exotel-ivr.js): the `callSessions`
 * object that the root handler resets, `/bot-selection` creates and updates,
 * `/process-recording` annotates and `/after-answer` deletes from. Request
 * parameters are the query and body maps, merged with the body winning.
 * Speech-to-text enters as `stt(url, language)`, the transcription text ("" when
 * the service sent none) or None when the request raised; the bot query as
 * `ask(bot, question)`, the answer text or None. Audio paths are relative to
 * `AUDIO_BASE_URL`.
 */
module ExotelIvrJs {
  import opened Common

  /** Request parameters: the query string or the form body. */
  type Params = map<string, string>

  /** `params[key]`, undefined when absent. */
  function Param(p: Params, key: string): (v: Option<string>)
    ensures v.Some? <==> key in p
    ensures v.Some? ==> v.value == p[key]
  {
    if key in p then Some(p[key]) else None
  }

  /** `{...req.query, ...req.body}` */
  function Merged(query: Params, body: Params): (p: Params)
    ensures p.Keys == query.Keys + body.Keys
  {
    query + body
  }

  /** A body parameter overrides the query parameter of the same name; a query parameter alone is kept. */
  lemma MergedPrefersBody(query: Params, body: Params, key: string)
    ensures key in body ==> Param(Merged(query, body), key) == Some(body[key])
    ensures key !in body ==> Param(Merged(query, body), key) == Param(query, key)
  {
  }

  /** `params.CallSid || params.callsid || 'unknown'` */
  function CallSidOf(p: Params): string
  {
    OrElse(Param(p, "CallSid"), OrElse(Param(p, "callsid"), "unknown"))
  }

  /** `params.digits || params.Digits || ''` */
  function DigitsOf(p: Params): string
  {
    OrElse(Param(p, "digits"), OrElse(Param(p, "Digits"), ""))
  }

  /** The lower-case `digits` wins over `Digits` whenever it is non-empty; with neither there are no digits. */
  lemma DigitsPreferLowerCase(p: Params)
    ensures Truthy(Param(p, "digits")) ==> DigitsOf(p) == p["digits"]
    ensures !Truthy(Param(p, "digits")) && Truthy(Param(p, "Digits")) ==> DigitsOf(p) == p["Digits"]
    ensures !Truthy(Param(p, "digits")) && !Truthy(Param(p, "Digits")) ==> DigitsOf(p) == ""
  {
  }

  /** `LEGAL_BOTS[digits].name` for the five own keys. */
  function LegalBotJs(key: string): (name: Option<string>)
    ensures name.Some? <==> key in {"1", "2", "3", "4", "5"}
  {
    if key == "1" then Some("RTI Bot")
    else if key == "2" then Some("IPC Bot")
    else if key == "3" then Some("Labor Law Bot")
    else if key == "4" then Some("Constitution Bot")
    else if key == "5" then Some("Family Law Bot")
    else None
  }

  /** `Object.keys(LEGAL_BOTS).find(key => LEGAL_BOTS[key].name === name)`, keys visited in order. */
  function BotNumber(name: string): Option<string>
  {
    if name == "RTI Bot" then Some("1")
    else if name == "IPC Bot" then Some("2")
    else if name == "Labor Law Bot" then Some("3")
    else if name == "Constitution Bot" then Some("4")
    else if name == "Family Law Bot" then Some("5")
    else None
  }

  /** The names are distinct, so looking up a selected bot's number gives back the digit it was selected with. */
  lemma BotNumberInverse(key: string, name: string)
    ensures LegalBotJs(key).Some? ==> BotNumber(LegalBotJs(key).value) == Some(key)
    ensures BotNumber(name).Some? ==> LegalBotJs(BotNumber(name).value) == Some(name)
  {
  }

  /** The pre-recorded answer played for a selected bot. */
  function ResponsePath(selectedBot: string): (path: string)
  {
    match BotNumber(selectedBot)
    case Some(k) => "/bot-" + k + "-response.mp3"
    case None => "/generic-response.mp3"
  }

  /** Each of the five bots has its own recording; any other name gets the generic one. */
  lemma ResponsePathMeaning(key: string, name: string)
    ensures LegalBotJs(key).Some? ==> ResponsePath(LegalBotJs(key).value) == "/bot-" + key + "-response.mp3"
    ensures BotNumber(name).None? ==> ResponsePath(name) == "/generic-response.mp3"
  {
    BotNumberInverse(key, name);
  }

  datatype Stage = BotSelection | BotSelected

  /** `callSessions[callSid]`; `null` and a missing property are both None. */
  datatype Session = Session(callerNumber: string, stage: Stage, language: string,
                             selectedBot: Option<string>, lastQuery: Option<string>, lastResponse: Option<string>)

  /** The session the root handler and `/bot-selection` start a call with. */
  function NewSession(callerNumber: string): Session
  {
    Session(callerNumber, BotSelection, "en", None, None, None)
  }

  /** The TwiML-like answers, by what they play and where they lead. */
  datatype ExoReply =
    | MenuOptions
    | AskQuestion
    | InvalidSelection
    | ErrorHangup
    | ErrorGatherAfterAnswer
    | PlayResponse(path: string)
    | SelectAnotherDomain
    | Goodbye

  /**
   * The session after a recording: `lastQuery` is the transcription, even an
   * empty one; `lastResponse` is the bot's answer only when the transcription
   * is non-empty and the query succeeded.
   */
  function Recorded(s: Session, url: string, stt: (string, string) -> Option<string>,
                    ask: (string, string) -> Option<string>): Session
    requires s.selectedBot.Some?
  {
    match stt(url, OrElse(Some(s.language), "english"))
    case None => s
    case Some(t) =>
      if t == "" then s.(lastQuery := Some(t))
      else match ask(s.selectedBot.value, t)
        case None => s.(lastQuery := Some(t))
        case Some(a) => s.(lastQuery := Some(t), lastResponse := Some(a))
  }

  /** A recording changes no field but the two `last` ones, and an empty or failed transcription leaves the answer untouched. */
  lemma RecordedMeaning(s: Session, url: string, stt: (string, string) -> Option<string>,
                        ask: (string, string) -> Option<string>)
    requires s.selectedBot.Some?
    ensures var r := Recorded(s, url, stt, ask);
      r.callerNumber == s.callerNumber && r.stage == s.stage && r.language == s.language && r.selectedBot == s.selectedBot
    ensures var t := stt(url, OrElse(Some(s.language), "english"));
      (t.None? || t == Some("")) ==> Recorded(s, url, stt, ask).lastResponse == s.lastResponse
    ensures var t := stt(url, OrElse(Some(s.language), "english"));
      t.Some? ==> Recorded(s, url, stt, ask).lastQuery == t
  {
  }

  class ExotelIvrJsServer {
    var sessions: map<string, Session>

    constructor()
      ensures sessions == map[]
    {
      sessions := map[];
    }

    /** `GET /`: the call's session is replaced by a fresh one on every request, then the menu plays. */
    method Root(query: Params) returns (reply: ExoReply)
      modifies this
      ensures var caller := OrElse(Param(query, "CallFrom"), OrElse(Param(query, "From"), "0000000000"));
        sessions == old(sessions)[OrElse(Param(query, "CallSid"), "unknown") := NewSession(caller)]
      ensures reply == MenuOptions
    {
      var callSid := OrElse(Param(query, "CallSid"), "unknown");
      var callerNumber := OrElse(Param(query, "CallFrom"), OrElse(Param(query, "From"), "0000000000"));
      sessions := sessions[callSid := NewSession(callerNumber)];
      reply := MenuOptions;
    }

    /**
     * `/bot-selection`. A missing session is created; the stage becomes
     * `bot-selected` before the digit is looked at, so even an invalid
     * digit changes it; a `LEGAL_BOTS` key selects that bot and asks for the
     * question, anything else keeps the old selection and gathers again.
     */
    method SelectBot(query: Params, body: Params) returns (reply: ExoReply)
      modifies this
      ensures var p := Merged(query, body);
        var id := CallSidOf(p);
        var base := if id in old(sessions) then old(sessions)[id]
                    else NewSession(OrElse(Param(p, "CallFrom"), OrElse(Param(p, "From"), "unknown")));
        var bot := LegalBotJs(DigitsOf(p));
        sessions == old(sessions)[id := base.(stage := BotSelected,
                                              selectedBot := if bot.Some? then bot else base.selectedBot)] &&
        reply == (if bot.Some? then AskQuestion else InvalidSelection)
    {
      var params := Merged(query, body);
      var callSid := CallSidOf(params);
      var digits := DigitsOf(params);
      if callSid !in sessions {
        var callerNumber := OrElse(Param(params, "CallFrom"), OrElse(Param(params, "From"), "unknown"));
        sessions := sessions[callSid := NewSession(callerNumber)];
      }
      sessions := sessions[callSid := sessions[callSid].(stage := BotSelected)];
      var bot := LegalBotJs(digits);
      if bot.Some? {
        sessions := sessions[callSid := sessions[callSid].(selectedBot := bot)];
        reply := AskQuestion;
      } else {
        reply := InvalidSelection;
      }
    }

    /**
     * `/process-recording`. No session: the error prompt and a hang-up. No
     * URL or no selected bot: the error prompt and the after-answer menu,
     * nothing written. Otherwise the transcription and answer are stored as
     * `Recorded` says, and the reply is the bot's pre-recorded answer whatever
     * the services did.
     */
    method ProcessRecording(query: Params, body: Params, stt: (string, string) -> Option<string>,
                            ask: (string, string) -> Option<string>) returns (reply: ExoReply)
      modifies this
      ensures var p := Merged(query, body);
        var id := CallSidOf(p);
        var url := OrElse(Param(p, "RecordingUrl"), "");
        (id !in old(sessions) ==> sessions == old(sessions) && reply == ErrorHangup) &&
        (id in old(sessions) && (url == "" || !Truthy(old(sessions)[id].selectedBot)) ==>
           sessions == old(sessions) && reply == ErrorGatherAfterAnswer) &&
        (id in old(sessions) && url != "" && Truthy(old(sessions)[id].selectedBot) ==>
           sessions == old(sessions)[id := Recorded(old(sessions)[id], url, stt, ask)] &&
           reply == PlayResponse(ResponsePath(old(sessions)[id].selectedBot.value)))
    {
      var params := Merged(query, body);
      var callSid := CallSidOf(params);
      var recordingUrl := OrElse(Param(params, "RecordingUrl"), "");
      if callSid !in sessions {
        return ErrorHangup;
      }
      var session := sessions[callSid];
      if recordingUrl == "" || !Truthy(session.selectedBot) {
        return ErrorGatherAfterAnswer;
      }
      var transcription := stt(recordingUrl, OrElse(Some(session.language), "english"));
      if transcription.Some? {
        session := session.(lastQuery := Some(transcription.value));
        if transcription.value != "" {
          var answer := ask(session.selectedBot.value, transcription.value);
          if answer.Some? {
            session := session.(lastResponse := Some(answer.value));
          }
        }
      }
      sessions := sessions[callSid := session];
      reply := PlayResponse(ResponsePath(session.selectedBot.value));
    }

    /** `/after-answer`: "1" goes back to bot selection with the session kept; anything else deletes it and says goodbye. */
    method AfterAnswer(query: Params, body: Params) returns (reply: ExoReply)
      modifies this
      ensures var p := Merged(query, body);
        (DigitsOf(p) == "1" ==> sessions == old(sessions) && reply == SelectAnotherDomain) &&
        (DigitsOf(p) != "1" ==> sessions == old(sessions) - {CallSidOf(p)} && reply == Goodbye)
    {
      var params := Merged(query, body);
      var callSid := CallSidOf(params);
      if DigitsOf(params) == "1" {
        return SelectAnotherDomain;
      }
      sessions := map k | k in sessions && k != callSid :: sessions[k];
      reply := Goodbye;
    }
  }
}
