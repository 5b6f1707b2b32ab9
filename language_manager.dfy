/** Message languages: the `lang_<code>.yml` files of the `lang` directory,
    the language chosen from the plugin configuration with its fallbacks,
    and message lookup with a visible placeholder for missing keys. */
module Languages {
  import opened Common
  import opened Yaml

  const LangPrefix: string := "lang_"
  const LangSuffix: string := ".yml"
  const DefaultLanguage: string := "en_US"
  const NotFoundPrefix: string := "Message not found: "

  /** The listing filter: a language file is named `lang_*.yml`. */
  predicate IsLangFile(name: string) {
    StartsWith(name, LangPrefix) && EndsWith(name, LangSuffix)
  }

  /** The prefix and the suffix of a language file cannot overlap. */
  lemma LangFileLength(name: string)
    requires IsLangFile(name)
    ensures |name| >= |LangPrefix| + |LangSuffix|
  {
    var d := |name| - |LangSuffix|;
    assert name[d] == '.' by { assert name[d] == name[d..][0]; }
    assert forall j :: 0 <= j < |LangPrefix| ==> name[j] == LangPrefix[j] != '.' by {
      assert name[..|LangPrefix|] == LangPrefix;
    }
  }

  /** `fileName.substring(5, fileName.length() - 4)`: the language code,
      which is what lies between the prefix and the suffix. */
  function LangCode(name: string): (code: string)
    requires IsLangFile(name)
    ensures LangPrefix + code + LangSuffix == name
  {
    LangFileLength(name);
    var code := name[5..|name| - 4];
    assert LangPrefix + code + LangSuffix == name[..5] + name[5..|name| - 4] + name[|name| - 4..];
    code
  }

  /** The file of a code is a language file, and its code is that code. */
  lemma LangCodeRoundTrip(code: string)
    ensures IsLangFile(LangPrefix + code + LangSuffix)
    ensures LangCode(LangPrefix + code + LangSuffix) == code
  {
    var name := LangPrefix + code + LangSuffix;
    assert name[..5] == LangPrefix;
    assert name[|name| - 4..] == LangSuffix;
    assert LangPrefix + LangCode(name) + LangSuffix == name;
    assert LangCode(name) == name[5..|name| - 4];
  }

  /** A language file names a code exactly when it is that code's file. */
  lemma LangCodeIff(name: string, code: string)
    requires IsLangFile(name)
    ensures LangCode(name) == code <==> name == LangPrefix + code + LangSuffix
  {
    if name == LangPrefix + code + LangSuffix {
      LangCodeRoundTrip(code);
    }
  }

  /** The languages after the first `i` files of the listing: each language
      file is put under its code; other files are skipped. */
  function LanguagesUpTo(files: seq<(string, Section)>, i: nat): seq<(string, Section)>
    requires i <= |files|
  {
    if i == 0 then []
    else
      var prev := LanguagesUpTo(files, i - 1);
      var name := files[i - 1].0;
      if IsLangFile(name) then Put(prev, LangCode(name), files[i - 1].1) else prev
  }

  /** The file of `code` is among the first `i` files of the listing. */
  predicate FileBefore(files: seq<(string, Section)>, i: nat, code: string)
    requires i <= |files|
  {
    i > 0 && (files[i - 1].0 == LangPrefix + code + LangSuffix || FileBefore(files, i - 1, code))
  }

  /** A code is loaded exactly when its file is listed. */
  lemma {:induction false} LanguagesUpToHas(files: seq<(string, Section)>, i: nat, code: string)
    requires i <= |files|
    ensures Lookup(LanguagesUpTo(files, i), code).Some? <==> FileBefore(files, i, code)
  {
    if i > 0 {
      LanguagesUpToHas(files, i - 1, code);
      var name := files[i - 1].0;
      if IsLangFile(name) {
        LangCodeIff(name, code);
      } else {
        assert name != LangPrefix + code + LangSuffix by {
          if name == LangPrefix + code + LangSuffix {
            LangCodeRoundTrip(code);
          }
        }
      }
    }
  }

  /** The languages a `lang` directory yields: none when the directory is
      missing. */
  function LoadedLanguages(lang: Option<seq<(string, Section)>>): seq<(string, Section)> {
    match lang
    case None => []
    case Some(files) => LanguagesUpTo(files, |files|)
  }

  /** `setLanguage(code)`: the requested language when loaded; otherwise
      en_US when loaded; otherwise the first loaded language; otherwise an
      empty configuration. */
  function Selected(languages: seq<(string, Section)>, code: string): Section {
    match Lookup(languages, code)
    case Some(c) => c
    case None =>
      match Lookup(languages, DefaultLanguage)
      case Some(c) => c
      case None => if |languages| > 0 then languages[0].1 else []
  }

  /** The fallback chain, and that the language chosen is always a loaded
      one when any is loaded. */
  lemma SelectedChain(languages: seq<(string, Section)>, code: string)
    ensures Lookup(languages, code).Some? ==> Selected(languages, code) == Lookup(languages, code).value
    ensures Lookup(languages, code).None? && Lookup(languages, DefaultLanguage).Some? ==>
      Selected(languages, code) == Lookup(languages, DefaultLanguage).value
    ensures |languages| == 0 ==> Selected(languages, code) == []
    ensures |languages| > 0 ==> exists i :: 0 <= i < |languages| && languages[i].1 == Selected(languages, code)
  {
    if |languages| > 0 {
      var r := Selected(languages, code);
      if Lookup(languages, code).Some? {
        var i :| 0 <= i < |languages| && languages[i] == (code, r);
      } else if Lookup(languages, DefaultLanguage).Some? {
        var i :| 0 <= i < |languages| && languages[i] == (DefaultLanguage, r);
      } else {
        assert languages[0].1 == r;
      }
    }
  }

  class LanguageManager {
    var languages: seq<(string, Section)>
    /** `null` until the first load. */
    var currentLang: Option<Section>

    constructor ()
      ensures languages == [] && currentLang == None
    {
      languages := [];
      currentLang := None;
    }

    /** `loadLanguageFiles()`: the previous languages are discarded, the
        listing is read afresh and the configured language is selected. */
    method LoadLanguageFiles(lang: Option<seq<(string, Section)>>, config: Section)
      modifies this
      ensures languages == LoadedLanguages(lang)
      ensures currentLang == Some(Selected(languages, GetString(config, "language", DefaultLanguage)))
    {
      languages := [];
      if lang.Some? {
        var files := lang.value;
        var i := 0;
        while i < |files|
          invariant i <= |files|
          invariant languages == LanguagesUpTo(files, i)
        {
          var fileName := files[i].0;
          if IsLangFile(fileName) {
            var langCode := LangCode(fileName);
            languages := Put(languages, langCode, files[i].1);
          }
          i := i + 1;
        }
      }
      var language := GetString(config, "language", DefaultLanguage);
      SetLanguage(language);
    }

    /** `setLanguage(langCode)`. */
    method SetLanguage(langCode: string)
      modifies this
      ensures languages == old(languages)
      ensures currentLang == Some(Selected(languages, langCode))
    {
      if Lookup(languages, langCode).Some? {
        currentLang := Lookup(languages, langCode);
      } else if Lookup(languages, DefaultLanguage).Some? {
        currentLang := Lookup(languages, DefaultLanguage);
      } else if |languages| > 0 {
        currentLang := Some(languages[0].1);
      } else {
        currentLang := Some([]);
      }
    }

    /** `getMessage(key)` before colour translation; none stands for the
        null dereference when no language was ever loaded. */
    function GetMessage(key: string): (r: Option<string>)
      reads this
      ensures r.None? <==> currentLang.None?
      ensures currentLang.Some? && Get(currentLang.value, key).None? ==> r == Some(NotFoundPrefix + key)
      ensures currentLang.Some? && IsString(currentLang.value, key) ==> r == Some(Get(currentLang.value, key).value.text)
    {
      match currentLang
      case None => None
      case Some(c) => Some(GetString(c, key, NotFoundPrefix + key))
    }
  }
}
