/** The locale-string parser `extractLangCode` of internal/i18n/locale.go. */
module Locale {
  import opened Strings

  /**
   * `if idx := strings.Index(s, sep); idx > 0 { s = s[:idx] }`: the text
   * in front of the first `sep`, unless there is none or it opens `s`.
   */
  function CutAtFirst(s: string, sep: char): string
  {
    var idx := Index(s, sep);
    if 0 < idx <= |s| then s[..idx] else s
  }

  /** The cut keeps a prefix; it is all of `s` unless a `sep` follows some text, and then it stops right before it. */
  lemma CutAtFirstSpec(s: string, sep: char)
    ensures var r := CutAtFirst(s, sep);
      && |r| <= |s| && r == s[..|r|]
      && (sep !in s || s[0] == sep ==> r == s)
      && (sep in s && s[0] != sep ==> 0 < |r| < |s| && s[|r|] == sep && sep !in r)
  {
    IndexSpec(s, sep);
  }

  /** What is left after the encoding and then the region are cut off (locale.go:29-35). */
  function Base(trimmed: string): string
  {
    CutAtFirst(CutAtFirst(trimmed, '.'), '_')
  }

  lemma BasePrefix(trimmed: string)
    ensures |Base(trimmed)| <= |trimmed| && Base(trimmed) == trimmed[..|Base(trimmed)|]
  {
    var a := CutAtFirst(trimmed, '.');
    CutAtFirstSpec(trimmed, '.');
    CutAtFirstSpec(a, '_');
  }

  /** `extractLangCode` (locale.go:23-40). */
  function ExtractLangCode(locale: string): string
  {
    var t := TrimSpace(locale);
    if t == "" || t == "C" || t == "POSIX" then ""
    else
      var base := Base(t);
      if |base| >= 2 then ToLower(base[..2]) else ""
  }

  /**
   * The code is empty or two characters with no upper-case letter; when
   * there is one it is the first two characters of the trimmed locale,
   * lower-cased.
   */
  lemma LangCodeShape(locale: string)
    ensures var code := ExtractLangCode(locale);
      && (|code| == 0 || |code| == 2)
      && (forall i | 0 <= i < |code| :: !IsAsciiUpper(code[i]))
      && (code != "" ==> |TrimSpace(locale)| >= 2 && code == ToLower(TrimSpace(locale)[..2]))
  {
    var t := TrimSpace(locale);
    BasePrefix(t);
    var base := Base(t);
    if |base| >= 2 {
      assert base[..2] == t[..2];
    }
  }

  /** Exactly when there is no code: an empty, `C` or `POSIX` locale, or fewer than two characters left. */
  lemma NoLangCode(locale: string)
    ensures var t := TrimSpace(locale);
      ExtractLangCode(locale) == "" <==> (t == "" || t == "C" || t == "POSIX" || |Base(t)| < 2)
  {
  }

  /** Leading and trailing white space is ignored. */
  lemma SurroundingSpaceIgnored(p: string, s: string, q: string)
    requires AllSpace(p) && AllSpace(q)
    ensures ExtractLangCode(p + s + q) == ExtractLangCode(s)
  {
    TrimSpaceIgnoresSurrounding(p, s, q);
  }

  lemma TrimmedAlready(s: string)
    requires |s| > 0 && !IsSpace(s[0]) && !IsSpace(s[|s| - 1])
    ensures TrimSpace(s) == s
  {
  }

  lemma CutAtSeparator(p: string, sep: char, rest: string)
    requires p != [] && sep !in p
    ensures CutAtFirst(p + [sep] + rest, sep) == p
  {
    var s := p + [sep] + rest;
    assert s[|p|] == sep && sep in s;
    assert s[..|p|] == p;
    CutAtFirstSpec(s, sep);
  }

  lemma CutAbsent(s: string, sep: char)
    requires sep !in s
    ensures CutAtFirst(s, sep) == s
  {
    CutAtFirstSpec(s, sep);
  }

  /** A locale of the form `ll_RR.ENC` (or without encoding) gives `ll` when `ll` is lower case. */
  lemma LanguageRegionEncoding(lang: string, region: string, enc: string)
    requires |lang| == 2 && forall i | 0 <= i < 2 :: 'a' <= lang[i] <= 'z'
    requires '.' !in region && '_' !in region && region != [] && !IsSpace(region[|region| - 1])
    requires enc == [] || !IsSpace(enc[|enc| - 1])
    ensures ExtractLangCode(lang + "_" + region + (if enc == [] then [] else "." + enc)) == lang
  {
    var lr := lang + "_" + region;
    var t := lr + (if enc == [] then [] else "." + enc);
    assert t[0] == lang[0] && t[2] == '_';
    TrimmedAlready(t);
    assert '.' !in lr;
    if enc == [] {
      assert t == lr;
      CutAbsent(t, '.');
    } else {
      assert t == lr + ['.'] + enc;
      CutAtSeparator(lr, '.', enc);
    }
    assert lr == lang + ['_'] + region;
    CutAtSeparator(lang, '_', region);
    assert Base(t) == lang;
    assert lang[..2] == lang;
    assert ToLower(lang) == lang;
    assert t != "C" && t != "POSIX" by {
      assert t[0] != 'C' && t[0] != 'P';
    }
  }

  /** internal/i18n/i18n_test.go:164-183: `de_DE.UTF-8`, written as its parts. */
  lemma GermanUtf8Locale()
    ensures ExtractLangCode("de" + "_" + "DE" + ("." + "UTF-8")) == "de"
  {
    LanguageRegionEncoding("de", "DE", "UTF-8");
  }

  /** internal/i18n/i18n_test.go:164-183: `en_US.UTF-8`, written as its parts. */
  lemma EnglishUtf8Locale()
    ensures ExtractLangCode("en" + "_" + "US" + ("." + "UTF-8")) == "en"
  {
    LanguageRegionEncoding("en", "US", "UTF-8");
  }

  /** internal/i18n/i18n_test.go:164-183: a locale without encoding. */
  lemma ChineseLocale()
    ensures ExtractLangCode("zh_CN") == "zh"
  {
  }

  /** internal/i18n/i18n_test.go:164-183: a bare language code. */
  lemma BareLanguage()
    ensures ExtractLangCode("fr") == "fr"
  {
  }

  /** internal/i18n/i18n_test.go:164-183: the C and POSIX locales and the empty string carry no language. */
  lemma NeutralLocales()
    ensures ExtractLangCode("C") == "" && ExtractLangCode("POSIX") == "" && ExtractLangCode("") == ""
  {
  }

  /** A separator at index 0 is kept: only a separator after some text cuts. */
  lemma LeadingSeparatorKept()
    ensures ExtractLangCode("_DE") == "_d"
  {
    TrimmedAlready("_DE");
    assert ToLower("_D") == [LowerChar('_'), LowerChar('D')];
  }
}
