/**
 * The translation endpoint (new/caller_bot/lang.py): `POST /translate/{lang}`
 * refuses languages without a translation model, splits the text into words,
 * translates consecutive groups of at most 100 words, joins the translations
 * with single spaces, strips the result and speaks it. The translation
 * pipeline enters as `translate(lang, chunk)`, None when it raised; gTTS and
 * the uuid file name as `speak(text, code)`, the saved file's name or None
 * when the conversion raised.
 */
module Translator {
  import opened Common

  /** The languages of `language_models`. */
  const SupportedLanguages: set<string> := {"hindi", "malayalam", "marathi", "urdu"}

  /** `max_words` */
  const MaxWords: nat := 100

  /** The endpoint's answers. */
  datatype Response =
    | Unsupported400(lang: string)
    | TranslationFailed500(start: nat)
    | TtsFailed500
    | Translated(language: string, translatedText: string, audioFile: string)

  /** gTTS's language code: hindi, urdu and malayalam by name, anything else Marathi. */
  function TtsCode(lang: string): string
  {
    if lang == "hindi" then "hi" else if lang == "urdu" then "ur" else if lang == "malayalam" then "ml" else "mr"
  }

  /** Each supported language is spoken in its own code. */
  lemma TtsCodeMeaning(lang: string)
    ensures TtsCode(lang) in {"hi", "ur", "ml", "mr"}
    ensures lang == "marathi" ==> TtsCode(lang) == "mr"
    ensures forall a, b :: a in SupportedLanguages && b in SupportedLanguages && a != b ==> TtsCode(a) != TtsCode(b)
  {
  }

  /** The word groups `words[i:i+100]` for `i` in `range(0, len(words), 100)`. */
  function Groups(words: seq<string>): seq<seq<string>>
  {
    Slices(words, MaxWords)
  }

  /** The groups hold the words in order, ceil(n / 100) of them, each at most 100 and all but the last full. */
  lemma GroupsMeaning(words: seq<string>)
    ensures Concat(Groups(words)) == words
    ensures |Groups(words)| == (|words| + MaxWords - 1) / MaxWords
    ensures forall k :: 0 <= k < |Groups(words)| ==> 0 < |Groups(words)[k]| <= MaxWords
    ensures forall k :: 0 <= k < |Groups(words)| - 1 ==> |Groups(words)[k]| == MaxWords
  {
    SlicesMeaning(words, MaxWords);
  }

  /** The group starting at word `i` is the next slice of what is left from `i` on. */
  lemma GroupStep(words: seq<string>, i: nat)
    requires i < |words|
    ensures var end := if i + MaxWords <= |words| then i + MaxWords else |words|;
      Slices(words[i..], MaxWords) == [words[i..end]] + (if end < |words| then Slices(words[end..], MaxWords) else [])
  {
    var end := if i + MaxWords <= |words| then i + MaxWords else |words|;
    if |words[i..]| > MaxWords {
      assert words[i..][..MaxWords] == words[i..end];
      assert words[i..][MaxWords..] == words[end..];
    } else {
      assert words[i..] == words[i..end];
    }
  }

  /** What the translation loop produces: every translation in order, or the first word of the group that failed. */
  datatype Outcome = Translations(ts: seq<string>) | FailedAt(start: nat)

  /** Translating `groups`, the first of which starts at word `start`. */
  function TranslateFrom(lang: string, groups: seq<seq<string>>, translate: (string, string) -> Option<string>,
                         start: nat): Outcome
    decreases |groups|
  {
    if groups == [] then Translations([])
    else match translate(lang, Join(groups[0], " "))
      case None => FailedAt(start)
      case Some(t) =>
        match TranslateFrom(lang, groups[1..], translate, start + |groups[0]|)
        case FailedAt(s) => FailedAt(s)
        case Translations(ts) => Translations([t] + ts)
  }

  /** Whether every group, joined with spaces, is translated. */
  predicate AllTranslate(lang: string, groups: seq<seq<string>>, translate: (string, string) -> Option<string>)
  {
    forall k :: 0 <= k < |groups| ==> translate(lang, Join(groups[k], " ")).Some?
  }

  /**
   * The loop translates every group in order when none fails; otherwise it
   * stops at the first failing group and reports where that group starts.
   */
  lemma {:induction false} TranslateFromMeaning(lang: string, groups: seq<seq<string>>,
                                                translate: (string, string) -> Option<string>, start: nat)
    ensures TranslateFrom(lang, groups, translate, start).Translations? <==> AllTranslate(lang, groups, translate)
    ensures TranslateFrom(lang, groups, translate, start).Translations? ==>
      var ts := TranslateFrom(lang, groups, translate, start).ts;
      |ts| == |groups| && forall k :: 0 <= k < |groups| ==> ts[k] == translate(lang, Join(groups[k], " ")).value
    ensures TranslateFrom(lang, groups, translate, start).FailedAt? ==>
      exists k :: 0 <= k < |groups| && AllTranslate(lang, groups[..k], translate) &&
        translate(lang, Join(groups[k], " ")).None? &&
        TranslateFrom(lang, groups, translate, start).start == start + |Concat(groups[..k])|
    decreases |groups|
  {
    if groups != [] {
      var rest := groups[1..];
      TranslateFromMeaning(lang, rest, translate, start + |groups[0]|);
      var r := TranslateFrom(lang, rest, translate, start + |groups[0]|);
      assert forall k :: 1 <= k < |groups| ==> groups[k] == rest[k - 1];
      if translate(lang, Join(groups[0], " ")).None? {
        assert groups[..0] == [];
        assert AllTranslate(lang, groups[..0], translate);
      } else if r.FailedAt? {
        var k :| 0 <= k < |rest| && AllTranslate(lang, rest[..k], translate) &&
          translate(lang, Join(rest[k], " ")).None? && r.start == start + |groups[0]| + |Concat(rest[..k])|;
        assert groups[..k + 1] == [groups[0]] + rest[..k];
        assert Concat(groups[..k + 1]) == groups[0] + Concat(rest[..k]);
        assert !AllTranslate(lang, groups, translate) by {
          assert translate(lang, Join(groups[k + 1], " ")).None?;
        }
        var g := groups[..k + 1];
        forall j | 0 <= j < |g| ensures translate(lang, Join(g[j], " ")).Some? {
          if j > 0 { assert g[j] == rest[..k][j - 1]; }
        }
      }
    }
  }

  /** The accumulated `translated_text`: each translation followed by one space. */
  function Spaced(ts: seq<string>): string
  {
    if ts == [] then "" else ts[0] + " " + Spaced(ts[1..])
  }

  lemma {:induction false} SpacedAppend(ts: seq<string>, t: string)
    ensures Spaced(ts + [t]) == Spaced(ts) + t + " "
  {
    if ts != [] {
      assert (ts + [t])[1..] == ts[1..] + [t];
      SpacedAppend(ts[1..], t);
    }
  }

  /** The accumulated text is the space-joined translations with one trailing space. */
  lemma {:induction false} SpacedIsJoin(ts: seq<string>)
    ensures ts != [] ==> Spaced(ts) == Join(ts, " ") + " "
  {
    if |ts| > 1 {
      SpacedIsJoin(ts[1..]);
    }
  }

  /** Stripping the accumulated text is stripping the translations joined with single spaces. */
  lemma StrippedSpaced(ts: seq<string>)
    ensures PyStrip(Spaced(ts)) == PyStrip(Join(ts, " "))
  {
    SpacedIsJoin(ts);
    if ts != [] {
      TrimAppendSpace(Join(ts, " "), IsPySpace);
    }
  }

  /** Adding one more translation to the front of an outcome, as the loop does while it goes. */
  function Prepend(ts: seq<string>, o: Outcome): Outcome
  {
    match o
    case FailedAt(s) => FailedAt(s)
    case Translations(us) => Translations(ts + us)
  }

  /** One more successful group moves its translation from the pending outcome to the finished ones. */
  lemma PrependStep(lang: string, done: seq<string>, groups: seq<seq<string>>,
                    translate: (string, string) -> Option<string>, i: nat, next: nat)
    requires groups != [] && translate(lang, Join(groups[0], " ")).Some?
    requires next == i + |groups[0]| || groups[1..] == []
    ensures Prepend(done, TranslateFrom(lang, groups, translate, i)) ==
      Prepend(done + [translate(lang, Join(groups[0], " ")).value], TranslateFrom(lang, groups[1..], translate, next))
  {
    var t := translate(lang, Join(groups[0], " ")).value;
    match TranslateFrom(lang, groups[1..], translate, next)
    case FailedAt(s) =>
    case Translations(us) =>
      assert done + ([t] + us) == (done + [t]) + us;
  }

  /**
   * What the endpoint answers once every group has been tried: the first
   * failure, or the stripped space-joined translations spoken in the
   * language's gTTS code.
   */
  ghost predicate Responded(lang: string, o: Outcome, speak: (string, string) -> Option<string>, resp: Response)
  {
    match o
    case FailedAt(s) => resp == TranslationFailed500(s)
    case Translations(ts) =>
      var out := PyStrip(Join(ts, " "));
      (speak(out, TtsCode(lang)).None? ==> resp == TtsFailed500) &&
      (speak(out, TtsCode(lang)).Some? ==> resp == Translated(Capitalize(lang), out, speak(out, TtsCode(lang)).value))
  }

  /**
   * `translate_text_endpoint`. `text` is `text_in.text`. Unsupported
   * languages are refused before anything is translated; a failing group
   * aborts with the position of its first word; the stripped text is spoken
   * and the language comes back capitalized.
   */
  method TranslateEndpoint(lang: string, text: string, translate: (string, string) -> Option<string>,
                           speak: (string, string) -> Option<string>) returns (resp: Response)
    ensures lang !in SupportedLanguages <==> resp == Unsupported400(lang)
    ensures lang in SupportedLanguages ==>
      Responded(lang, TranslateFrom(lang, Groups(Words(text)), translate, 0), speak, resp)
  {
    if lang !in SupportedLanguages {
      return Unsupported400(lang);
    }
    var words := Words(text);
    ghost var o := TranslateFrom(lang, Groups(words), translate, 0);
    var failed, translatedText := TranslateWords(lang, words, translate);
    if failed.Some? {
      return TranslationFailed500(failed.value);
    }
    assert o == Translations(o.ts);
    resp := Speak(lang, o.ts, translatedText, speak);
  }

  /** The stripped text goes to gTTS; its failure is a 500, its file name the answer's audio. */
  method Speak(lang: string, ghost ts: seq<string>, translatedText: string, speak: (string, string) -> Option<string>)
    returns (resp: Response)
    requires translatedText == Spaced(ts)
    ensures Responded(lang, Translations(ts), speak, resp)
    ensures resp.TtsFailed500? || resp.Translated?
  {
    var out := PyStrip(translatedText);
    assert out == PyStrip(Join(ts, " ")) by {
      StrippedSpaced(ts);
    }
    var audioFile := speak(out, TtsCode(lang));
    if audioFile.None? {
      return TtsFailed500;
    }
    resp := Translated(Capitalize(lang), out, audioFile.value);
  }

  /**
   * The loop over `range(0, len(words), 100)`: each group joined with spaces
   * is translated and appended with a trailing space; the first failure
   * stops it with the index of the group's first word.
   */
  method TranslateWords(lang: string, words: seq<string>, translate: (string, string) -> Option<string>)
    returns (failed: Option<nat>, translatedText: string)
    ensures TranslateFrom(lang, Groups(words), translate, 0).FailedAt? ==>
      failed == Some(TranslateFrom(lang, Groups(words), translate, 0).start)
    ensures TranslateFrom(lang, Groups(words), translate, 0).Translations? ==>
      failed == None && translatedText == Spaced(TranslateFrom(lang, Groups(words), translate, 0).ts)
  {
    ghost var groups := Groups(words);
    ghost var whole := TranslateFrom(lang, groups, translate, 0);
    translatedText := "";
    var i := 0;
    ghost var k := 0;
    ghost var done: seq<string> := [];
    assert words[0..] == words;
    assert done + [] == done;
    while i < |words|
      invariant 0 <= k <= |groups|
      invariant i < |words| ==> groups[k..] == Slices(words[i..], MaxWords)
      invariant i >= |words| ==> k == |groups|
      invariant translatedText == Spaced(done)
      invariant whole == Prepend(done, TranslateFrom(lang, groups[k..], translate, i))
      decreases |words| - i
    {
      var end := if i + MaxWords <= |words| then i + MaxWords else |words|;
      var chunk := Join(words[i..end], " ");
      GroupStep(words, i);
      assert groups[k..][0] == words[i..end];
      assert groups[k..][1..] == groups[k + 1..];
      var translated := translate(lang, chunk);
      if translated.None? {
        return Some(i), translatedText;
      }
      SpacedAppend(done, translated.value);
      if end < |words| {
        assert groups[k + 1..] == Slices(words[end..], MaxWords);
      } else {
        assert groups[k + 1..] == [];
      }
      PrependStep(lang, done, groups[k..], translate, i, i + MaxWords);
      translatedText := translatedText + translated.value + " ";
      done := done + [translated.value];
      i := i + MaxWords;
      k := k + 1;
    }
    assert groups[k..] == [];
    assert done + [] == done;
    failed := None;
  }

  /** The first word of group `k` is word `100 * k`, as the failure message counts it. */
  lemma GroupStart(words: seq<string>, k: nat)
    requires k <= |Groups(words)|
    ensures |Concat(Groups(words)[..k])| == if k < |Groups(words)| then MaxWords * k else |words|
  {
    GroupsMeaning(words);
    GroupPrefixLength(Groups(words), k);
    if k == |Groups(words)| {
      assert Groups(words)[..k] == Groups(words);
    }
  }

  lemma {:induction false} GroupPrefixLength(gs: seq<seq<string>>, k: nat)
    requires k <= |gs|
    requires forall j :: 0 <= j < |gs| - 1 ==> |gs[j]| == MaxWords
    ensures k < |gs| ==> |Concat(gs[..k])| == MaxWords * k
    ensures k == |gs| ==> Concat(gs[..k]) == Concat(gs)
  {
    if k == |gs| {
      assert gs[..k] == gs;
    } else if k > 0 {
      GroupPrefixLength(gs, k - 1);
      assert gs[..k] == gs[..k - 1] + [gs[k - 1]];
      ConcatAppend(gs[..k - 1], gs[k - 1]);
    }
  }
}
