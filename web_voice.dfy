/**
 * The browser voice server (new/multi_bot/web_voice_server.py): the
 * `web_sessions` dictionary, its validation order, and `process_audio`, which
 * strips the data-URL header, joins the recognizer's transcripts and asks the
 * selected bot. Speech recognition enters as `recognize(payload, code)`,
 * None when decoding or the service raised, otherwise for each result the
 * transcripts of its alternatives; the bot manager as its availability list
 * and `query(bot, question)`.
 */
module WebVoice {
  import opened Common
  import opened Documents
  import opened Catalog

  /** `web_sessions[session_id]` */
  datatype Session = Session(language: Option<Language>, selectedBot: Option<string>)

  const FreshSession: Session := Session(None, None)

  /** The JSON replies, by their `error` text or success payload. */
  datatype Reply =
    | Created(id: string)
    | MissingField
    | InvalidSessionId
    | InvalidCode
    | Updated
    | NotSelected
    | Success(transcription: string, answer: string, sources: seq<(string, int)>)
    | BotNotAvailable(bot: string, transcription: string)
    | Failed

  /** `audio.split(",", 1)[1]` when the audio holds a comma: everything after the first one. */
  function AudioPayload(audio: string): string
  {
    if HasChar(audio, ',') then AfterChar(audio, ',') else audio
  }

  /** The data-URL header is everything up to and including the first comma; audio without one is passed on whole. */
  lemma AudioPayloadMeaning(audio: string)
    ensures !HasChar(audio, ',') ==> AudioPayload(audio) == audio
    ensures HasChar(audio, ',') ==>
      BeforeChar(audio, ',') + "," + AudioPayload(audio) == audio && !HasChar(BeforeChar(audio, ','), ',')
  {
    SplitAtChar(audio, ',');
  }

  /** Every recognition result has at least one alternative. */
  predicate AllHaveAlternative(results: seq<seq<string>>)
  {
    forall i :: 0 <= i < |results| ==> |results[i]| > 0
  }

  /** `result.alternatives[0].transcript` of every result, in order. */
  function FirstAlternatives(results: seq<seq<string>>): (firsts: seq<string>)
    requires AllHaveAlternative(results)
    ensures |firsts| == |results| && forall i :: 0 <= i < |results| ==> firsts[i] == results[i][0]
  {
    seq(|results|, i requires 0 <= i < |results| => results[i][0])
  }

  /**
   * The `transcription +=` loop: the first alternatives concatenated in
   * order, or None when some result has no alternative (an IndexError).
   */
  method JoinTranscription(results: seq<seq<string>>) returns (t: Option<string>)
    ensures t.Some? <==> AllHaveAlternative(results)
    ensures t.Some? ==> t.value == Concat(FirstAlternatives(results))
  {
    var acc := "";
    for i := 0 to |results|
      invariant AllHaveAlternative(results[..i])
      invariant acc == Concat(FirstAlternatives(results[..i]))
    {
      if |results[i]| == 0 {
        return None;
      }
      assert results[..i + 1] == results[..i] + [results[i]];
      assert FirstAlternatives(results[..i + 1]) == FirstAlternatives(results[..i]) + [results[i][0]];
      ConcatAppend(FirstAlternatives(results[..i]), results[i][0]);
      acc := acc + results[i][0];
    }
    assert results[..|results|] == results;
    return Some(acc);
  }

  class WebVoiceServer {
    var sessions: map<string, Session>

    /** Every stored bot is one of the four and every stored language one of the five. */
    ghost predicate Valid()
      reads this
    {
      forall k :: k in sessions ==>
        (sessions[k].selectedBot.None? || sessions[k].selectedBot.value in AllBotNames) &&
        (sessions[k].language.None? || sessions[k].language.value.name in LanguageNames)
    }

    constructor()
      ensures sessions == map[] && Valid()
    {
      sessions := map[];
    }

    /** `/web_session`: register `id` (a fresh uuid) with neither language nor bot. */
    method CreateSession(id: string) returns (reply: Reply)
      requires Valid()
      modifies this
      ensures Valid() && sessions == old(sessions)[id := FreshSession] && reply == Created(id)
    {
      sessions := sessions[id := FreshSession];
      reply := Created(id);
    }

    /**
     * `/web_set_language`: missing fields, then an unknown session, then an
     * unknown code are refused in that order, and only then is the language
     * stored.
     */
    method SetLanguage(sessionId: Option<string>, code: Option<string>) returns (reply: Reply)
      requires Valid()
      modifies this
      ensures Valid()
      ensures !Truthy(sessionId) || !Truthy(code) ==> sessions == old(sessions) && reply == MissingField
      ensures Truthy(sessionId) && Truthy(code) && sessionId.value !in old(sessions) ==>
        sessions == old(sessions) && reply == InvalidSessionId
      ensures Truthy(sessionId) && Truthy(code) && sessionId.value in old(sessions) && LanguageFor(code.value).None? ==>
        sessions == old(sessions) && reply == InvalidCode
      ensures Truthy(sessionId) && Truthy(code) && sessionId.value in old(sessions) && LanguageFor(code.value).Some? ==>
        sessions == old(sessions)[sessionId.value := old(sessions)[sessionId.value].(language := LanguageFor(code.value))] &&
        reply == Updated
    {
      if !Truthy(sessionId) || !Truthy(code) {
        return MissingField;
      }
      var id := sessionId.value;
      if id !in sessions {
        return InvalidSessionId;
      }
      var l := LanguageFor(code.value);
      if l.None? {
        return InvalidCode;
      }
      sessions := sessions[id := sessions[id].(language := l)];
      reply := Updated;
    }

    /** `/web_set_bot`: the same checks in the same order; only the bot changes. */
    method SetBot(sessionId: Option<string>, code: Option<string>) returns (reply: Reply)
      requires Valid()
      modifies this
      ensures Valid()
      ensures !Truthy(sessionId) || !Truthy(code) ==> sessions == old(sessions) && reply == MissingField
      ensures Truthy(sessionId) && Truthy(code) && sessionId.value !in old(sessions) ==>
        sessions == old(sessions) && reply == InvalidSessionId
      ensures Truthy(sessionId) && Truthy(code) && sessionId.value in old(sessions) && LegalBot(code.value).None? ==>
        sessions == old(sessions) && reply == InvalidCode
      ensures Truthy(sessionId) && Truthy(code) && sessionId.value in old(sessions) && LegalBot(code.value).Some? ==>
        sessions == old(sessions)[sessionId.value := old(sessions)[sessionId.value].(selectedBot := LegalBot(code.value))] &&
        reply == Updated
    {
      if !Truthy(sessionId) || !Truthy(code) {
        return MissingField;
      }
      var id := sessionId.value;
      if id !in sessions {
        return InvalidSessionId;
      }
      var bot := LegalBot(code.value);
      if bot.None? {
        return InvalidCode;
      }
      sessions := sessions[id := sessions[id].(selectedBot := bot)];
      reply := Updated;
    }

    /**
     * `/web_process_audio`. It changes no session. It refuses missing
     * fields, an unknown session, and a session without both a language and
     * a bot, in that order; after that, any failure of decoding, recognition
     * or the query is `Failed`.
     */
    method ProcessAudio(sessionId: Option<string>, audio: Option<string>, available: seq<string>,
                        recognize: (string, string) -> Option<seq<seq<string>>>,
                        query: (string, string) -> Option<QaResult>) returns (reply: Reply)
      ensures !Truthy(sessionId) || !Truthy(audio) ==> reply == MissingField
      ensures Truthy(sessionId) && Truthy(audio) && sessionId.value !in sessions ==> reply == InvalidSessionId
      ensures Truthy(sessionId) && Truthy(audio) && sessionId.value in sessions ==>
        var s := sessions[sessionId.value];
        (s.language.None? || s.selectedBot.None? ==> reply == NotSelected) &&
        (s.language.Some? && s.selectedBot.Some? ==>
          AudioAnswered(s.language.value, s.selectedBot.value, audio.value, available, recognize, query, reply))
    {
      if !Truthy(sessionId) || !Truthy(audio) {
        return MissingField;
      }
      var id := sessionId.value;
      if id !in sessions {
        return InvalidSessionId;
      }
      var s := sessions[id];
      if s.language.None? || s.selectedBot.None? {
        return NotSelected;
      }
      var l := s.language.value;
      var bot := s.selectedBot.value;
      var results := recognize(AudioPayload(audio.value), l.code);
      if results.None? {
        return Failed;
      }
      var t := JoinTranscription(results.value);
      if t.None? {
        return Failed;
      }
      if bot !in available {
        return BotNotAvailable(bot, t.value);
      }
      var result := query(bot, BuildQuery(l.name, t.value));
      if result.None? {
        return Failed;
      }
      var cs := CollectCitations(result.value.sourceDocuments);
      reply := Success(t.value, result.value.result, SourcePairs(cs));
    }
  }

  /**
   * The reply to audio for a session with language `l` and bot `bot`: the
   * recognizer hears the payload in the language's speech code; the joined
   * transcription is asked of the bot when it is available, with the
   * language instruction for non-English sessions, and the answer comes back
   * with its citations.
   */
  ghost predicate AudioAnswered(l: Language, bot: string, audio: string, available: seq<string>,
                                recognize: (string, string) -> Option<seq<seq<string>>>,
                                query: (string, string) -> Option<QaResult>, reply: Reply)
  {
    match recognize(AudioPayload(audio), l.code)
    case None => reply == Failed
    case Some(results) =>
      if !AllHaveAlternative(results) then reply == Failed
      else
        var t := Concat(FirstAlternatives(results));
        if bot !in available then reply == BotNotAvailable(bot, t)
        else
          match query(bot, BuildQuery(l.name, t))
          case None => reply == Failed
          case Some(r) => reply == Success(t, r.result, SourcePairs(Citations(r.sourceDocuments)))
  }
}
