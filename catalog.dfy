/**
 * The constant tables the channel servers share: the four legal bots and the
 * digit that selects each (`LEGAL_BOTS` in new/whatsapp_example/app.js,
 * new/multi_bot/whatsapp_bot.py, new/multi_bot/voice_server.py and
 * new/multi_bot/web_voice_server.py), the five call languages (`LANGUAGES` in
 * the two Python voice servers), the WhatsApp answer template and the
 * query prefix for non-English callers.
 */
module Catalog {
  import opened Common

  /** The bot names in `LEGAL_BOTS` order. */
  const AllBotNames: seq<string> := ["IPC Bot", "RTI Bot", "Labor Law Bot", "Constitution Bot"]

  /** `LEGAL_BOTS[key]`: "1".."4" select IPC, RTI, Labor Law and Constitution. */
  function LegalBot(key: string): (bot: Option<string>)
    ensures bot.Some? <==> key in {"1", "2", "3", "4"}
    ensures bot.Some? ==> bot.value in AllBotNames
  {
    if key == "1" then Some("IPC Bot")
    else if key == "2" then Some("RTI Bot")
    else if key == "3" then Some("Labor Law Bot")
    else if key == "4" then Some("Constitution Bot")
    else None
  }

  /** Every bot has exactly one digit, and distinct digits select distinct bots. */
  lemma LegalBotBijective(a: string, b: string)
    requires LegalBot(a).Some? && LegalBot(b).Some?
    ensures LegalBot(a) == LegalBot(b) <==> a == b
  {
  }

  /** One `LANGUAGES` entry: recognition code, display name and text-to-speech voice. */
  datatype Language = Language(code: string, name: string, tts: string)

  /** `LANGUAGES[key]`: "1".."5" select English, Hindi, Tamil, Telugu and Marathi. */
  function LanguageFor(key: string): (l: Option<Language>)
    ensures l.Some? <==> key in {"1", "2", "3", "4", "5"}
    ensures l.Some? ==> l.value.name in LanguageNames
  {
    if key == "1" then Some(Language("en-IN", "English", "en-US"))
    else if key == "2" then Some(Language("hi-IN", "Hindi", "hi-IN"))
    else if key == "3" then Some(Language("ta-IN", "Tamil", "ta-IN"))
    else if key == "4" then Some(Language("te-IN", "Telugu", "te-IN"))
    else if key == "5" then Some(Language("mr-IN", "Marathi", "mr-IN"))
    else None
  }

  const LanguageNames: set<string> := {"English", "Hindi", "Tamil", "Telugu", "Marathi"}

  /** Only English is spoken with the en-US voice; every other language keeps its own code as voice. */
  lemma LanguageVoices(key: string)
    requires LanguageFor(key).Some?
    ensures var l := LanguageFor(key).value;
      (l.tts == "en-US" <==> l.name == "English") && (l.tts == "hi-IN" <==> l.name == "Hindi")
  {
  }

  /** The language in which a voice prompt is spoken: Hindi for the hi-IN voice, English (en-US) for every other. */
  datatype Speech = English | Hindi

  function PromptSpeech(tts: string): (s: Speech)
    ensures s == Hindi <==> tts == "hi-IN"
  {
    if tts == "hi-IN" then Hindi else English
  }

  /**
   * The query sent to the bot for a transcription: English callers' words
   * unchanged, every other language behind "Answer the following query in
   * {name}: ".
   */
  function BuildQuery(languageName: string, transcription: string): string
  {
    if Lower(languageName) != "english" then "Answer the following query in " + languageName + ": " + transcription
    else transcription
  }

  /**
   * English (in any case) passes the caller's words through unchanged; any
   * other language gets the instruction naming it, and the words still end
   * the query.
   */
  lemma BuildQueryMeaning(languageName: string, transcription: string)
    ensures Lower(languageName) == "english" <==> BuildQuery(languageName, transcription) == transcription
    ensures Lower(languageName) != "english" ==>
      StartsWith(BuildQuery(languageName, transcription), "Answer the following query in " + languageName + ": ")
    ensures EndsWith(BuildQuery(languageName, transcription), transcription)
  {
    var q := BuildQuery(languageName, transcription);
    var prefix := "Answer the following query in " + languageName + ": ";
    if Lower(languageName) != "english" {
      assert q == prefix + transcription;
      assert |q| > |transcription|;
      assert q[|q| - |transcription|..] == transcription;
    }
  }

  /** The WhatsApp reply to a question, with a citation block (possibly empty) after the answer. */
  function WhatsAppReplyText(question: string, answer: string, sourceText: string): string
  {
    "🔍 *Question:*\n" + question + "\n\n📝 *Answer:*\n" + answer + sourceText +
    "\n\n_(Ask another question or type 'menu' to change legal domain)_"
  }

  /** Longest WhatsApp message the servers send in one piece. */
  const WhatsAppLimit: nat := 1500
}
