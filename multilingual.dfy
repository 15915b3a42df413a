/**
 * Language settings for the voice pipeline: the supported languages with their speech
 * voices and native display names, the script each language is written in, the
 * recogniser's language names, and the scripts a language's voice cannot render.
 * Dictionaries are association lists in the source's key order.
 */
module Multilingual {
  import opened Wrappers
  import Tables

  datatype LanguageConfig = LanguageConfig(language: string, ttsVoice: string, displayName: string)

  /** The supported languages; Hindi is disabled and has no entry. */
  function Langs(): seq<(string, LanguageConfig)>
  {
    [ ("ur", LanguageConfig("ur", "ur-PK-UzmaNeural", "\U{0627}\U{0631}\U{062F}\U{0648}")),
      ("en", LanguageConfig("en", "en-US-ChristopherNeural", "English")),
      ("es", LanguageConfig("es", "es-ES-AlvaroNeural", "Espa\U{00F1}ol")),
      ("fr", LanguageConfig("fr", "fr-FR-HenriNeural", "Fran\U{00E7}ais")),
      ("de", LanguageConfig("de", "de-DE-ConradNeural", "Deutsch")),
      ("zh", LanguageConfig("zh", "zh-CN-XiaoxiaoNeural", "\U{4E2D}\U{6587}")) ]
  }

  /** The expected script of each language code; `None` means any script is accepted. */
  function LangScriptMap(): seq<(string, Option<string>)>
  {
    [ ("ur", Some("arabic")), ("ar", Some("arabic")),
      ("en", Some("latin")), ("es", Some("latin")), ("fr", Some("latin")),
      ("de", Some("latin")), ("pt", Some("latin")),
      ("zh", None), ("ja", None), ("ko", None) ]
  }

  /** The speech recogniser's full language names. */
  function LangWhisperName(): seq<(string, string)>
  {
    [ ("ur", "urdu"), ("en", "english"), ("es", "spanish"), ("fr", "french"),
      ("de", "german"), ("pt", "portuguese"), ("zh", "chinese"), ("ja", "japanese"),
      ("ko", "korean"), ("ar", "arabic") ]
  }

  /** The scripts that a language's voice cannot render. */
  function TtsIncompatibleScripts(): seq<(string, set<string>)>
  {
    [ ("ur", {"devanagari", "latin"}),
      ("zh", {"arabic", "devanagari"}),
      ("ja", {"arabic", "devanagari"}),
      ("ko", {"arabic", "devanagari"}) ]
  }

  /** `get_language_config(code)`: the entry for a supported code, otherwise `None`. */
  function GetLanguageConfig(code: string): (r: Option<LanguageConfig>)
    ensures r.Some? <==> code in Tables.Keys(Langs())
    ensures r.Some? ==> (code, r.value) in Langs()
  {
    Tables.Lookup(Langs(), code)
  }

  /** `validate_language_code(code)`: membership among the keys. */
  function ValidateLanguageCode(code: string): (b: bool)
    ensures b <==> exists i :: 0 <= i < |Langs()| && Langs()[i].0 == code
  {
    code in Tables.Keys(Langs())
  }

  /** `{code: config.display_name ...}` over any language table, in its order. */
  function DisplayNames(langs: seq<(string, LanguageConfig)>): (r: seq<(string, string)>)
    ensures Tables.Keys(r) == Tables.Keys(langs)
    ensures forall i :: 0 <= i < |r| ==> r[i].1 == langs[i].1.displayName
  {
    seq(|langs|, i requires 0 <= i < |langs| => (langs[i].0, langs[i].1.displayName))
  }

  /** `get_supported_languages()`. */
  function GetSupportedLanguages(): seq<(string, string)>
  {
    DisplayNames(Langs())
  }

  /** Hindi is not supported. */
  lemma HindiNotSupported()
    ensures !ValidateLanguageCode("hi") && GetLanguageConfig("hi").None?
  {
    var t := Langs();
    assert forall i :: 0 <= i < |t| ==> t[i].0 != "hi" by {
      assert t[0].0 == "ur" && t[1].0 == "en" && t[2].0 == "es";
      assert t[3].0 == "fr" && t[4].0 == "de" && t[5].0 == "zh";
    }
  }

  /** Each configuration names its own key as its language. */
  lemma ConfigLanguageIsKey(code: string)
    requires GetLanguageConfig(code).Some?
    ensures GetLanguageConfig(code).value.language == code
  {
    var t := Langs();
    var c := GetLanguageConfig(code).value;
    assert t[0].1.language == t[0].0 && t[1].1.language == t[1].0 && t[2].1.language == t[2].0;
    assert t[3].1.language == t[3].0 && t[4].1.language == t[4].0 && t[5].1.language == t[5].0;
  }

  /** The supported languages and their display names, key by key. */
  lemma SupportedLanguagesShape(code: string)
    ensures code in Tables.Keys(GetSupportedLanguages()) <==> ValidateLanguageCode(code)
    ensures forall i :: 0 <= i < |GetSupportedLanguages()| ==>
      GetSupportedLanguages()[i] == (Langs()[i].0, Langs()[i].1.displayName)
  {
    var r := GetSupportedLanguages();
    assert Tables.Keys(r) == Tables.Keys(Langs());
    forall i | 0 <= i < |r|
      ensures r[i] == (Langs()[i].0, Langs()[i].1.displayName)
    {
      assert Tables.Keys(r)[i] == r[i].0;
    }
  }

  /** Every supported language has an expected script and a recogniser name. */
  lemma EverySupportedLanguageMapped(code: string)
    requires ValidateLanguageCode(code)
    ensures code in Tables.Keys(LangScriptMap())
    ensures code in Tables.Keys(LangWhisperName())
  {
    var s := Tables.Keys(LangScriptMap());
    var w := Tables.Keys(LangWhisperName());
    assert s[0] == "ur" && s[2] == "en" && s[3] == "es" && s[4] == "fr" && s[5] == "de" && s[7] == "zh";
    assert w[0] == "ur" && w[1] == "en" && w[2] == "es" && w[3] == "fr" && w[4] == "de" && w[6] == "zh";
  }

  lemma ScriptKeysDistinct()
    ensures Tables.DistinctKeys(LangScriptMap())
  {
  }

  /** Chinese, Japanese and Korean skip the script check. */
  lemma CjkScriptAgnostic()
    ensures Tables.Lookup(LangScriptMap(), "zh") == Some(None)
    ensures Tables.Lookup(LangScriptMap(), "ja") == Some(None)
    ensures Tables.Lookup(LangScriptMap(), "ko") == Some(None)
  {
    ScriptKeysDistinct();
    Tables.LookupDistinct(LangScriptMap(), 7);
    Tables.LookupDistinct(LangScriptMap(), 8);
    Tables.LookupDistinct(LangScriptMap(), 9);
  }

  /**
   * Urdu's voice rejects Devanagari and Latin text; the CJK voices reject Arabic and
   * Devanagari but never Latin.
   */
  lemma IncompatibleScripts()
    ensures Tables.Lookup(TtsIncompatibleScripts(), "ur") == Some({"devanagari", "latin"})
    ensures forall c :: c in ["zh", "ja", "ko"] ==>
      Tables.Lookup(TtsIncompatibleScripts(), c) == Some({"arabic", "devanagari"})
    ensures forall c :: c in ["zh", "ja", "ko"] ==>
      "latin" !in Tables.Lookup(TtsIncompatibleScripts(), c).value
  {
  }
}
