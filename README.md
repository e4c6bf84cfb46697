# Legal assistant channels: a Dafny model

The repository is a multi-channel front end over a retrieval-augmented
question-answering service with four legal "bots": IPC, RTI, Labor Law and
Constitution. People reach the bots in several ways:

- WhatsApp, through a Node server and a Python server;
- a Twilio phone line with a browser front end;
- a standalone browser voice server;
- three Exotel phone menus.

All of them use a Python bot manager and a FastAPI layer. A separate
translation service turns English prompts into Hindi, Malayalam, Marathi or
Urdu speech. Plain loaders read PDF and text files for ingestion.

This project models the deterministic logic that is left once the hosted
services are replaced by oracles:

- the session maps of every channel server and what each handler does to them;
- the order in which each handler validates its input;
- the message-shaping helpers: the 1500-character split, SMS truncation,
  citations, `whatsapp:` prefixing, the data-URL payload, transcript joining
  and the translator's 100-word groups;
- the bot availability registry and the API's dispatch rules;
- the document loaders.

Each server is a Dafny `class`:

- its session dictionary is a `map<string, Session>` field;
- there is one method per HTTP handler;
- each reply is a datatype of prompt kinds, not XML or JSON text.

Hosted calls are arrow-typed parameters:

- speech-to-text, the bot query, text-to-speech, the translator, the SMS
  gateway and the vector-store file system;
- each one returns `None` when the call raised, except the SMS send, which
  returns `false` when it raised.

A Python exception that escapes a handler unhandled (a `KeyError` on a missing
session, a `TypeError` on a session whose language is still `None`) is the
reply `ServerError`. Whatever the handler wrote before the exception is kept.

The modules follow the source files:

| module | source |
|---|---|
| `Common` | string, sequence and option helpers with the semantics of Python and JavaScript built-ins |
| `Documents` | documents and the citation rule of the three Python channels |
| `Catalog` | `LEGAL_BOTS`, `LANGUAGES`, the query prefix and the WhatsApp reply template |
| `BotManager` | new/multi_bot/utils.py |
| `Api` | new/multi_bot/api.py |
| `Loaders` | new/multi_bot/ingest/custom_loaders.py |
| `WhatsAppNode` | new/whatsapp_example/app.js |
| `WhatsAppBot` | new/multi_bot/whatsapp_bot.py |
| `VoiceServer` | new/multi_bot/voice_server.py |
| `WebVoice` | new/multi_bot/web_voice_server.py |
| `Translator` | new/caller_bot/lang.py |
| `ExotelIvr` | new/caller_bot/exotel_ivr.py |
| `ExotelIvrJs` | new/callerjs/exotel-ivr.js |
| `CallerIndex` | new/callerjs/index.js |

Some facts proved across components:

- PDF page 0 and every text-file document are never cited, because the
  citation rule drops pages that are not truthy.
- Against the translation service of this repository, which has no
  "english" model, every English selection in the Python Exotel menu ends on
  the apology after the session has been written.
- The Python Exotel menu numbers the bots differently from `LEGAL_BOTS`.

Where the general description of the system and the code differ, the model
follows the code:

- An invalid digit does not always leave the stage alone. `/bot-selection`
  in exotel-ivr.js sets `bot-selected` before it looks at the digit.
- Citations are not deduplicated. Only the first two source documents are
  looked at; those that fail the guard are dropped, and the rest are labelled
  by their position.
- The channel state machines do not share one shape. Their digit tables,
  defaults and deletion rules differ, and each module states its own.
- `get_bot` only checks that the index path exists. The availability list
  also requires it to be a directory.
- The query endpoint turns any exception into a 500, including an index that
  disappeared after the availability check.

## Model

| member | source | states |
|---|---|---|
| Catalog.LegalBot | new/multi_bot/whatsapp_bot.py:29-34 | exactly "1".."4" are keys, and each names one of the four bots |
| Catalog.LegalBotBijective | new/multi_bot/whatsapp_bot.py:29-34 | distinct keys select distinct bots, so the bot determines the digit |
| Catalog.LanguageFor | new/multi_bot/web_voice_server.py:30-36 | exactly "1".."5" are keys, and each gives one of the five language names |
| Catalog.LanguageVoices | new/multi_bot/voice_server.py:49-55 | the en-US voice is English's alone and the hi-IN voice is Hindi's alone |
| Catalog.PromptSpeech | new/multi_bot/voice_server.py:149-178 | a prompt is Hindi exactly for the hi-IN voice; every other voice gets the English prompt |
| Catalog.BuildQueryMeaning | new/multi_bot/voice_server.py:307-310 | English (any case) passes the words through unchanged; any other language gets the "Answer the following query in {name}: " prefix; the words always end the query |
| Documents.CitationsMeaning | new/multi_bot/whatsapp_bot.py:123-132 | at most two citations, from the first two documents only; each cited document has a non-empty basename and a non-zero page; every such document is cited; labels are positions 1 and 2 and order is kept |
| Documents.PageZeroNeverCited | new/multi_bot/whatsapp_bot.py:127-128 | a document on page 0 is never cited |
| Documents.SourcePairs | new/multi_bot/web_voice_server.py:180-186 | the JSON sources list has one (source, page) pair per citation, in order |
| Documents.CollectCitations | new/multi_bot/voice_server.py:317-323 | the append loop over `source_documents[:2]` collects exactly the citations of the rule |
| Common.SlicesMeaning | new/whatsapp_example/app.js:416-422 | the slices concatenate back to the text; there are ceil(len/n) of them; each is non-empty and at most n long; all but the last are exactly n long |
| Common.DeliverMeaning | new/multi_bot/whatsapp_bot.py:141-156 | a reply over the limit is sliced, with the first slice inline and the rest as follow-ups; nothing is lost and every message fits; a short reply goes whole |
| Common.BasenameMeaning | new/multi_bot/whatsapp_bot.py:126 | `split("/")[-1]` is the part after the last '/' and holds no '/' |
| BotManager.DomainOf | new/multi_bot/utils.py:37-42 | a domain exists exactly for the four bot names |
| BotManager.DomainMappingTable | new/multi_bot/utils.py:37-42 | the table lists the four bots in `LEGAL_BOTS` order, and each maps to its domain |
| BotManager.AvailableUpToMeaning | new/multi_bot/utils.py:52-55 | the list built over a prefix of the table holds exactly the bots whose index directory exists, in table order and without repeats |
| BotManager.AvailableFromMeaning | new/multi_bot/utils.py:50-55 | the recomputed list holds exactly the bots with an existing index directory, in table order, each once |
| BotManager.GetBotMeaning | new/multi_bot/utils.py:59-88 | a chain is built for a known bot whose index path exists, over that bot's index with k = 4; an unknown name is refused first |
| BotManager.AvailableBotLoads | new/multi_bot/utils.py:48-68 | a bot listed as available from a file-system view can be loaded from that view |
| BotManager.LegalBotManager.constructor | new/multi_bot/utils.py:44-46 | the cache is computed once at construction |
| BotManager.LegalBotManager.CheckAvailableBots | new/multi_bot/utils.py:48-57 | the cache is reset and recomputed from the file system |
| BotManager.LegalBotManager.QueryBot | new/multi_bot/utils.py:94-107 | a bot missing from the cached list is refused before the chain is built; `get_bot` errors follow; a raising chain is an error; a result implies the bot was available |
| Api.DescribedAreTheFour | new/multi_bot/api.py:74-79 | the described bots are exactly the four |
| Api.ListBots | new/multi_bot/api.py:88-101 | four entries in table order, each available exactly when the manager lists it |
| Api.MirrorSources | new/multi_bot/api.py:117-123 | one response per source document, content and metadata copied, in order |
| Api.QueryEndpoint | new/multi_bot/api.py:104-131 | 404 for an undescribed bot, before the 400 for an unavailable one; 500 when the query fails; otherwise the answer and every source |
| Api.IngestDocuments | new/multi_bot/api.py:134-153 | an unknown domain or a failed ingestion leaves the list; a successful one recomputes it from the resulting file system |
| Api.StartIngestion | new/multi_bot/api.py:156-176 | domains outside the five are refused with nothing scheduled; "all" schedules ipc, rti, labor_law, constitution in that order; a single domain schedules itself |
| Api.ScheduledDomainsAreKnown | new/multi_bot/api.py:134-147 | every scheduled task is a domain the background task accepts, so none is dropped as unknown, and at most four are scheduled |
| Api.JoinSegment | new/multi_bot/api.py:193 | joining a directory and a plain segment inserts exactly one separator |
| Api.DomainIsSegment | new/multi_bot/api.py:185 | the four domain names are plain path segments |
| Api.DomainDirectory | new/multi_bot/api.py:193 | the domain directory is `{base}/data/{domain}` |
| Api.UploadValidation | new/multi_bot/api.py:185-206 | an invalid domain is reported before an invalid extension; a file is saved exactly when the domain is one of the four and the name ends in .pdf or .txt |
| Api.UploadDestination | new/multi_bot/api.py:193-197 | a relative name is saved under the domain directory; an absolute name is used as it stands |
| Loaders.LoadText | new/multi_bot/ingest/custom_loaders.py:17-27 | one document with the whole text and the path as source, or none when reading raised |
| Loaders.TextDocumentsNeverCited | new/multi_bot/ingest/custom_loaders.py:23-24 | a text-file document has no page, so it is never cited |
| Loaders.StripTruthyIff | new/multi_bot/ingest/custom_loaders.py:44 | `text.strip()` is truthy exactly when the text has a non-whitespace character |
| Loaders.NonBlankPagesMeaning | new/multi_bot/ingest/custom_loaders.py:42-46 | the documents are exactly the non-blank pages, in page order, each with its zero-based index and the path |
| Loaders.PdfDocumentsMeaning | new/multi_bot/ingest/custom_loaders.py:36-51 | an unreadable PDF, or one where any page's extraction raises, gives no documents at all; otherwise exactly the non-blank pages |
| Loaders.FirstPdfPageNeverCited | new/multi_bot/ingest/custom_loaders.py:45 | the first page is recorded as page 0, so it is never cited |
| Loaders.LoadPdf | new/multi_bot/ingest/custom_loaders.py:36-51 | the page loop computes exactly the documents of the rule |
| Loaders.DirectoryDocumentsAppend | new/multi_bot/ingest/custom_loaders.py:67-75 | the result for two runs of glob entries is their results concatenated, in glob order |
| Loaders.NoLoaderNoDocuments | new/multi_bot/ingest/custom_loaders.py:72 | without a loader class the directory loader returns nothing |
| Loaders.SkipsOnlyThatFile | new/multi_bot/ingest/custom_loaders.py:67-77 | a non-file entry or a file whose loader raised is skipped, and the other entries are unaffected |
| Loaders.SkipEntry | new/multi_bot/ingest/custom_loaders.py:68-77 | removing a skipped entry from the middle of the glob list leaves the result unchanged |
| Loaders.SkippedEntry | new/multi_bot/ingest/custom_loaders.py:68-77 | a skipped entry contributes no document |
| Loaders.LoadDirectory | new/multi_bot/ingest/custom_loaders.py:62-79 | the glob loop computes exactly the concatenation of the rule |
| WhatsAppNode.GetAvailableBots | new/whatsapp_example/app.js:384-392 | all four bots when the request raised; otherwise the available names of the listing |
| WhatsAppNode.AvailableNamesMembership | new/whatsapp_example/app.js:387 | a name is returned exactly when some listed bot with it is available; there are no more names than listed bots |
| WhatsAppNode.AvailableNamesAppend | new/whatsapp_example/app.js:387 | the filter keeps listing order |
| WhatsAppNode.QueryResult | new/whatsapp_example/app.js:395-413 | null when the request raised or a source lacks a path; otherwise the answer and, per source in order, the basename and the page |
| WhatsAppNode.SourceLines | new/whatsapp_example/app.js:307-310 | at most two lines, numbered by position, with no filtering |
| WhatsAppNode.SourceText | new/whatsapp_example/app.js:306-315 | the citation block is empty exactly when there are no sources |
| WhatsAppNode.SplitMessageIntoParts | new/whatsapp_example/app.js:416-422 | the substring loop produces exactly the slices of the message |
| WhatsAppNode.WhatsAppAddress | new/whatsapp_example/app.js:661 | the result always starts with "whatsapp:"; a formatted number is kept; any other number gets "whatsapp:+" and still ends with the input |
| WhatsAppNode.WhatsAppAddressIdempotent | new/whatsapp_example/app.js:691 | formatting twice equals formatting once |
| WhatsAppNode.IncomingMessage | new/whatsapp_example/app.js:120 | the trimmed body when non-empty, else the trimmed button text when non-empty, else "" |
| WhatsAppNode.IncomingMessageTrimmed | new/whatsapp_example/app.js:120 | the dispatched message never starts or ends with whitespace |
| WhatsAppNode.Classify | new/whatsapp_example/app.js:139-292 | a greeting or a sender without a session is Greet; a `LEGAL_BOTS` key of a known sender selects its bot; a question is non-empty, not a digit and not a greeting |
| WhatsAppNode.JoinShadowsLaterCommands | new/whatsapp_example/app.js:164-169 | any message containing "join" that is not a greeting or "test" is taken as the sandbox join |
| WhatsAppNode.WhatsAppServer.constructor | new/whatsapp_example/app.js:35 | the session map starts empty |
| WhatsAppNode.WhatsAppServer.HandleMessage | new/whatsapp_example/app.js:117-374 | the map and reply follow `Handled` for the message's command: only a greeting or first message, 'menu', 'exit' and an available bot digit change the map |
| WhatsAppNode.WhatsAppServer.Dispatch | new/whatsapp_example/app.js:138-362 | each command's branch: Greet resets the session, 'menu' clears the bot, 'exit' deletes, the other commands only reply |
| WhatsAppNode.WhatsAppServer.SelectBot | new/whatsapp_example/app.js:245-282 | an available digit bot is selected and the stage becomes asking, with the switching note naming the previous bot; an unavailable one changes nothing |
| WhatsAppNode.WhatsAppServer.QuestionBranch | new/whatsapp_example/app.js:284-361 | while selecting, a re-prompt; while asking, the selected bot's answer; in a valid state that bot is one of the four, never "null" |
| WhatsAppNode.AnswerQuestion | new/whatsapp_example/app.js:299-356 | no answer when the query returned null; otherwise the reply text, split at 1500 characters |
| WhatsAppNode.GreetingResetsMidConversation | new/whatsapp_example/app.js:139-154 | a greeting is Greet with or without a session |
| WhatsAppNode.DigitSelectsInAnyStage | new/whatsapp_example/app.js:244-256 | a digit 1-4 selects its bot whatever the stage |
| WhatsAppBot.KeywordOf | new/multi_bot/whatsapp_bot.py:76-88 | help, menu and exit are recognised exactly when the lowered message equals them |
| WhatsAppBot.CitationLines | new/multi_bot/whatsapp_bot.py:129 | one "Source i: name, Page: p" line per citation, in order |
| WhatsAppBot.SourceTextMeaning | new/multi_bot/whatsapp_bot.py:122-132 | the block is empty exactly when nothing is cited, else opens with the Sources header; at most two lines |
| WhatsAppBot.WhatsAppBotServer.constructor | new/multi_bot/whatsapp_bot.py:37 | the session map starts empty |
| WhatsAppBot.WhatsAppBotServer.Webhook | new/multi_bot/whatsapp_bot.py:62-162 | help and menu change nothing; exit deletes the sender; any other message creates a missing session, then is dispatched by stage, with the question's reply depending on the follow-up sends |
| WhatsAppBot.WhatsAppBotServer.Forget | new/multi_bot/whatsapp_bot.py:84-86 | the sender's entry is removed, if present, and nothing else |
| WhatsAppBot.WhatsAppBotServer.Converse | new/multi_bot/whatsapp_bot.py:96-160 | while selecting, an available `LEGAL_BOTS` key selects it and anything else changes nothing; while asking, every message is a question (answered, failed, or cut short by a raising follow-up send) and the session stays |
| WhatsAppBot.WhatsAppBotServer.AskingHasBot | new/multi_bot/whatsapp_bot.py:102-117 | a sender who is asking has selected one of the four bots; the question fails only when that bot is unavailable or its query raised |
| WhatsAppBot.DigitWhileAskingIsQuestion | new/multi_bot/whatsapp_bot.py:98-116 | any `LEGAL_BOTS` key sent while asking leaves the sessions unchanged and gets the question reply of the selected bot |
| WhatsAppBot.SentCount | new/multi_bot/whatsapp_bot.py:149-154 | the send loop delivers every part before the first raising send, and stops there |
| WhatsAppBot.AnswerReplySplit | new/multi_bot/whatsapp_bot.py:141-160 | the parts rejoin to the reply; a short reply goes whole with no send; a long one has a 1500-character inline part; the reply is the full answer exactly when every follow-up send returns; otherwise it is the inline part plus the apology, with the follow-ups before the first raising send |
| VoiceServer.BumpMeaning | new/multi_bot/voice_server.py:136 | `get(k, 0) + 1` adds one to that key only and adds the key if it was new |
| VoiceServer.LanguageChosenValid | new/multi_bot/voice_server.py:135-136 | counting a language keeps the counters consistent and adds one |
| VoiceServer.QueryAnsweredValid | new/multi_bot/voice_server.py:341-348 | counting a query keeps no bot above the query count, and adds one to both |
| VoiceServer.TruncateSmsMeaning | new/multi_bot/voice_server.py:460-462 | a long answer becomes its first 1497 characters and "...", exactly 1500 in total; a short one is unchanged; truncating is idempotent |
| VoiceServer.SpokenAnswerMeaning | new/multi_bot/voice_server.py:326-331 | the answer opens the spoken text; citations are appended exactly when there are some and the language is English or Hindi |
| VoiceServer.VoicePayloadMeaning | new/multi_bot/voice_server.py:695 | `split(',')[1]` is everything after the first comma when there is no second one, and otherwise the comma-free field that, with the second comma and what follows it, makes up the rest; audio without a comma passes whole |
| VoiceServer.VoiceServerState.constructor | new/multi_bot/voice_server.py:66-76 | no sessions and zeroed counters |
| VoiceServer.VoiceServerState.Voice | new/multi_bot/voice_server.py:78-121 | every call is counted; a session is created only for a new CallSid, never overwriting one |
| VoiceServer.VoiceServerState.SelectLanguage | new/multi_bot/voice_server.py:123-192 | a `LANGUAGES` key stores and counts the language; any other digit changes nothing and goes back to `/voice`; a key for an unknown call raises before any write |
| VoiceServer.VoiceServerState.SelectBot | new/multi_bot/voice_server.py:194-250 | a `LEGAL_BOTS` key stores the bot, kept even when reading the missing language then raises; any other digit changes nothing |
| VoiceServer.VoiceServerState.ProcessQuestion | new/multi_bot/voice_server.py:252-440 | the sessions and counters follow `Questioned`: guards first, then the transcription is kept, and only an answered query stores the answer and moves the counters |
| VoiceServer.VoiceServerState.AskCallBot | new/multi_bot/voice_server.py:305-434 | after transcription: an unavailable bot or failed query stores only the question; an answer is stored with its spoken citations and counted; the SMS offer needs Twilio and a known caller |
| VoiceServer.VoiceServerState.SendSms | new/multi_bot/voice_server.py:442-525 | fails exactly for a known call without a language; otherwise always an SMS reply, with no SMS message exactly when digit 1, a known call and Twilio are not all present; a requested SMS is sent, with the question and truncated answer, exactly when there is an answer, a known caller and the send succeeds, and is otherwise reported as not sent; nothing is written |
| VoiceServer.VoiceServerState.AnotherQuestion | new/multi_bot/voice_server.py:527-607 | '1' keeps the session; any other digit deletes it; a session without a language raises before the delete |
| VoiceServer.VoiceServerState.CreateWebSession | new/multi_bot/voice_server.py:625-634 | a fresh id with neither language nor bot |
| VoiceServer.VoiceServerState.WebSetLanguage | new/multi_bot/voice_server.py:636-655 | the session is checked before the code; only when both pass is the language stored and counted |
| VoiceServer.VoiceServerState.WebSetBot | new/multi_bot/voice_server.py:657-672 | the same order; only the bot changes |
| VoiceServer.VoiceServerState.WebProcessAudio | new/multi_bot/voice_server.py:674-770 | session, then audio checks; a session without a language raises; then as `WebQuestioned` |
| VoiceServer.VoiceServerState.AskWebBot | new/multi_bot/voice_server.py:716-763 | the transcription is kept; an available bot's answer is stored, counted and returned with its sources |
| VoiceServer.AnsweredQueriesCounted | new/multi_bot/voice_server.py:341-348 | an answered call query moves the query count and that bot's count by exactly one; no other path moves them |
| WebVoice.AudioPayloadMeaning | new/multi_bot/web_voice_server.py:128-129 | with a comma, everything up to and including the first one is removed; without one, the audio passes whole |
| WebVoice.FirstAlternatives | new/multi_bot/web_voice_server.py:159-160 | the first alternative of every result, in order |
| WebVoice.JoinTranscription | new/multi_bot/web_voice_server.py:158-160 | the loop gives the in-order concatenation of the first alternatives, or fails when a result has none |
| WebVoice.WebVoiceServer.constructor | new/multi_bot/web_voice_server.py:47 | the session map starts empty |
| WebVoice.WebVoiceServer.CreateSession | new/multi_bot/web_voice_server.py:54-64 | the new id gets neither language nor bot |
| WebVoice.WebVoiceServer.SetLanguage | new/multi_bot/web_voice_server.py:66-85 | missing fields, then an unknown session, then an unknown code; only if all pass is the language stored |
| WebVoice.WebVoiceServer.SetBot | new/multi_bot/web_voice_server.py:87-106 | the same order; only the bot changes |
| WebVoice.WebVoiceServer.ProcessAudio | new/multi_bot/web_voice_server.py:108-208 | missing fields, unknown session, then language and bot both required; then recognition of the payload, the join, availability, the prefixed query and the cited answer |
| Translator.TtsCodeMeaning | new/caller_bot/lang.py:63 | every language gets one of hi, ur, ml and mr, marathi gets mr, and the four supported languages get four distinct codes |
| Translator.GroupsMeaning | new/caller_bot/lang.py:45-50 | the groups concatenate to the words; there are ceil(n/100); each holds 1 to 100 words; all but the last are full |
| Translator.GroupStep | new/caller_bot/lang.py:49-50 | at word offset i, the next group is `words[i:i+100]` and the rest are the groups of what follows |
| Translator.TranslateFromMeaning | new/caller_bot/lang.py:49-57 | translations exist exactly when every group translates, and each matches its group; otherwise the first failing group is reported with its word offset |
| Translator.SpacedAppend | new/caller_bot/lang.py:54 | each translation is followed by one space |
| Translator.SpacedIsJoin | new/caller_bot/lang.py:54 | the accumulated text is the space-join of the translations plus one trailing space |
| Translator.StrippedSpaced | new/caller_bot/lang.py:59 | stripping the accumulated text equals stripping the space-join |
| Translator.PrependStep | new/caller_bot/lang.py:49-57 | one loop step moves a translation from the remaining outcome to the done prefix |
| Translator.TranslateEndpoint | new/caller_bot/lang.py:37-74 | 400 exactly for a language outside the four; otherwise a group failure is a 500, a TTS failure is a 500, a success carries the capitalized language, the stripped join and the audio file |
| Translator.Speak | new/caller_bot/lang.py:59-74 | the stripped text is spoken with the language's code; the result is the TTS 500 or the response |
| Translator.TranslateWords | new/caller_bot/lang.py:44-59 | the loop stops at the first failing group, or returns the spaced translations of all groups |
| Translator.GroupStart | new/caller_bot/lang.py:52 | group k starts at word 100*k |
| Translator.GroupPrefixLength | new/caller_bot/lang.py:49 | k full groups hold 100*k words; all groups hold every word |
| ExotelIvr.BotMapping | new/caller_bot/exotel_ivr.py:36-41 | exactly "1".."4" map to a bot, each one of the four |
| ExotelIvr.BotMappingOrder | new/caller_bot/exotel_ivr.py:36-41 | 1 is RTI and 2 is IPC, the reverse of `LEGAL_BOTS`; 3 and 4 agree |
| ExotelIvr.SpeechOf | new/caller_bot/exotel_ivr.py:339-342 | the text is Hindi exactly for "hindi", and English for every other language |
| ExotelIvr.WelcomeChoice | new/caller_bot/exotel_ivr.py:106-140 | as written, a call without digits (none or empty) fails with a server error, because the welcome branch formats an unbound `request`; only "2" selects hindi; any other digit selects english |
| ExotelIvr.IntendedWelcomeChoice | new/caller_bot/exotel_ivr.py:116-126 | the intended handler never fails; it plays the welcome exactly when no digit was entered, and otherwise answers as the written one |
| ExotelIvr.ExotelIvrServer.constructor | new/caller_bot/exotel_ivr.py:44 | the session map starts empty |
| ExotelIvr.ExotelIvrServer.MenuSelection | new/caller_bot/exotel_ivr.py:142-210 | a missing or out-of-menu digit replays the menu with no write; a menu digit overwrites the call's session before the prompt is translated |
| ExotelIvr.ExotelIvrServer.ProcessQuestion | new/caller_bot/exotel_ivr.py:212-294 | an incomplete recording or missing URL hangs up before the session is read; a missing session or bot gives the apology; otherwise the answer, with any failure giving the apology; in a valid state every stored session reaches the services |
| ExotelIvr.ExotelIvrServer.AfterAnswer | new/caller_bot/exotel_ivr.py:296-350 | only "1" with a selected bot and a translated prompt asks again; everything else says goodbye, in English unless the language is hindi |
| ExotelIvr.MenuSelectionKeepsSessions | new/caller_bot/exotel_ivr.py:168-173 | menu selection never removes a session, and it touches only the call's own entry |
| ExotelIvr.EnglishPromptsFail | new/caller_bot/exotel_ivr.py:176-210 | with a translator serving only its four languages, an English selection writes the session and ends on the apology, and an English follow-up says goodbye |
| ExotelIvrJs.Param | new/callerjs/exotel-ivr.js:123-124 | a parameter is defined exactly when its key is present |
| ExotelIvrJs.Merged | new/callerjs/exotel-ivr.js:120 | the merged keys are those of query and body |
| ExotelIvrJs.MergedPrefersBody | new/callerjs/exotel-ivr.js:120 | a body parameter overrides the same query parameter; a query parameter alone is kept |
| ExotelIvrJs.DigitsPreferLowerCase | new/callerjs/exotel-ivr.js:124 | non-empty `digits` wins over `Digits`; with neither the digits are "" |
| ExotelIvrJs.LegalBotJs | new/callerjs/exotel-ivr.js:19-45 | exactly "1".."5" are keys |
| ExotelIvrJs.BotNumberInverse | new/callerjs/exotel-ivr.js:269 | looking up a selected bot's number gives back its key, and the key's name is the bot |
| ExotelIvrJs.ResponsePathMeaning | new/callerjs/exotel-ivr.js:266-272 | each of the five bots plays `bot-{k}-response.mp3` for its own key; any other name plays the generic response |
| ExotelIvrJs.RecordedMeaning | new/callerjs/exotel-ivr.js:224-256 | a recording changes only the two `last` fields; an empty or failed transcription leaves `lastResponse`; any transcription becomes `lastQuery` |
| ExotelIvrJs.ExotelIvrJsServer.constructor | new/callerjs/exotel-ivr.js:16 | the session map starts empty |
| ExotelIvrJs.ExotelIvrJsServer.Root | new/callerjs/exotel-ivr.js:75-114 | the call's session is always replaced by a fresh bot-selection one in English without a bot |
| ExotelIvrJs.ExotelIvrJsServer.SelectBot | new/callerjs/exotel-ivr.js:117-182 | a missing session is created; the stage becomes bot-selected even for an invalid digit; a key selects its bot, anything else keeps the old one |
| ExotelIvrJs.ExotelIvrJsServer.ProcessRecording | new/callerjs/exotel-ivr.js:185-293 | no session hangs up; no URL or bot gathers again with no write; otherwise the session is updated as `Recorded` and the bot's recording plays |
| ExotelIvrJs.ExotelIvrJsServer.AfterAnswer | new/callerjs/exotel-ivr.js:296-335 | "1" keeps the session and goes back to bot selection; anything else deletes it |
| CallerIndex.Key | new/callerjs/index.js:25-31 | a present call id is its own key |
| CallerIndex.SpeechOf | new/callerjs/index.js:68-74 | prompts are English exactly for 'en' |
| CallerIndex.ServiceLanguage | new/callerjs/index.js:151 | 'english' exactly for 'en', and 'hindi' otherwise |
| CallerIndex.BotTypeFor | new/callerjs/index.js:102-109 | the digit's bot, and RTI for anything else |
| CallerIndex.CallerServer.constructor | new/callerjs/index.js:11 | the session map starts empty |
| CallerIndex.CallerServer.Hello | new/callerjs/index.js:24-47 | the call's session is overwritten with a welcome-stage English one whose bot is `null` |
| CallerIndex.CallerServer.SelectLanguage | new/callerjs/index.js:50-86 | no digit counts as '1'; '1' is 'en' and any other digit 'hi'; a missing session is created; the stage is language-selected |
| CallerIndex.CallerServer.SelectDomain | new/callerjs/index.js:89-125 | no session goes to `/hello` with no write; otherwise the stage is domain-selected and the bot is the digit's, RTI by default |
| CallerIndex.CallerServer.ProcessQuestion | new/callerjs/index.js:128-203 | hangs up exactly when the session is missing, the status is not completed or the URL is absent; otherwise the answer in the session's language from the bot the URL names ("undefined" for a session without `botType`, "null" for one whose bot is `null`), with any failure giving the apology |
| CallerIndex.CallerServer.DomainSelectedAsksNamedBot | new/callerjs/index.js:158 | a call past `/select-domain` queries one of the four bots; a session without `botType` queries "undefined" and one with `null` queries "null" |
| CallerIndex.CallerServer.AfterAnswer | new/callerjs/index.js:206-249 | no session goes to `/hello`; '1' asks again and keeps the session; anything else deletes it |
| CallerIndex.CallerServer.CallStatus | new/callerjs/index.js:252-264 | the session is deleted exactly for completed, failed, busy and no-answer |
| CallerIndex.LanguageChoice | new/callerjs/index.js:52-64 | the call speaks English exactly when the digit was '1', missing or empty |

## Findings

| source | as written | input that shows it | evidently intended | confidence | as-written member | corrected member |
|---|---|---|---|---|---|---|
| new/caller_bot/exotel_ivr.py:116-126 | the no-digits branch of `welcome_ivr` formats `{request.url}`, but no `request` is bound in that handler (its parameters are `CallSid`, `From` and `digits_entered`), so it raises `NameError` and answers 500 | a POST to `/ivr/welcome` with no `digits_entered` (or an empty one) | play the welcome audio and gather a digit, calling back this URL | high; not executed | ExotelIvr.WelcomeChoice | ExotelIvr.IntendedWelcomeChoice |

`ExotelIvr.WelcomeIvr` models the handler as written, and `ExotelIvr.WelcomeIvrIntended` is the corrected one. Each lemma states its handler's behaviour for every input.

## Left out

- XML, TwiML and JSON rendering, HTTP routing and status lines: replies are prompt kinds and response constructors.
- Hosted services are oracles. These are speech-to-text, text-to-speech, the translation pipelines, the LLM and retrieval chain, Twilio and Exotel calls, and the vector store.
- `uuid` values, temporary file names and the audio file names of the translator are folded into parameters or oracle results.
- The retry and sleep loop of `transcribe_audio` is part of the speech-to-text oracle: it raises or returns a text.
- The `setTimeout` follow-up sends in app.js are not performed: they run after the reply with their own catch, so the reply carries every follow-up part, along with the proof that they rejoin to the message. The follow-up sends of whatsapp_bot.py run inside the question's `try`; each is a boolean oracle on the part's text, false when `messages.create` raised.
- `avg_response_time`, `total_response_time`, `start_time`, `timestamp` and the Node `lastInteraction` are wall-clock or float values. Only `lastInteraction` is kept, as a parameter.
- Concurrency: each handler runs to completion alone. Races on the shared maps and the background ingestion tasks are not modelled.
- JavaScript string lengths count UTF-16 code units, and the model counts characters. The two differ for emoji in the WhatsApp template.
- Lower-casing is ASCII only. Python `str.lower` and JavaScript `toLowerCase` also fold other scripts.
- JavaScript property lookup is modelled on own keys only. Prototype keys such as `LEGAL_BOTS["constructor"]` or `botTypes["toString"]`, which are truthy in the source, are not modelled.
- `request.json` being `None` (a request without a JSON body) is not modelled; the model starts from the fields.
- `generate_menu_audios` and `startup_event` in new/caller_bot/exotel_ivr.py make network calls at startup. The menu audio URLs they produce are not modelled.
- The `/health`, `/call_stats`, `/test-exotel`, `/debug/sessions`, `/verify-twilio`, `/send-test-message`, `/direct-message` and troubleshooting routes are not modelled. They are diagnostics around the core; only the number formatting they share is modelled.
- new/multi_bot/ingest/base_ingestion.py, ingest_all.py and domain_ingestion.py are not part of this model. Ingestion enters the API as an oracle from a domain to the resulting file system.
- new/multi_bot/prompts/domain_prompts.py, app.py, client_examples.py and the test scripts are not part of this model.
- BotManager.LegalBotManager.constructor: the `google_api_key` argument, its copy into the environment and the `ValueError` raised when `GOOGLE_API_KEY` is still unset (new/multi_bot/utils.py:19-24) are configuration and are not modelled. The constructor covers a manager whose key check passed; without the key, no server that builds a manager at import starts.
- WhatsAppNode.SplitMessageIntoParts: requires a positive `maxLength`. The loop of new/whatsapp_example/app.js:418 never ends for 0, and its only caller passes 1500.
- WhatsAppNode.QueryResult: a source whose metadata lacks a `source` path makes `split` raise inside `queryBot`. The model returns null for it, as the source's catch does; other malformed response bodies are not modelled.
- The Twilio SMS send is a boolean oracle, true when `messages.create` returned. The SMS body's formatting is modelled; the gateway's splitting into segments is not.
