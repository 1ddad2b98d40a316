/**
 * The active-language state and the lookups of internal/i18n/i18n.go. The
 * package-level `active` pointer becomes the field of a `Translator`, which
 * reads the registry it was given; `detectLocale()` becomes the parameter
 * `detected` of `Init`.
 */
module I18n {
  import opened Options
  import opened Strings
  import opened Lang
  import Languages

  /** What `time.Weekday.String()` returns, Sunday first. */
  const WeekdayNames: seq<string> := ["Sunday", "Monday", "Tuesday", "Wednesday", "Thursday", "Friday", "Saturday"]

  /** `time.Weekday`: 0 is Sunday. */
  type Weekday = d: int | 0 <= d < 7

  /** The text `TipManualLocation` shows before any language is active (i18n.go:92). */
  const DefaultTip := "Tip: Use --city or --lat/--lon to specify a location manually"

  /** The language `Init` selects: the requested code, lower-cased, if registered, else English, else none. */
  function Select(entries: map<string, Lang>, langOverride: string, detected: string): Option<Lang>
  {
    var code := ToLower(if langOverride == "" then detected else langOverride);
    if code in entries then Some(entries[code])
    else if "en" in entries then Some(entries["en"])
    else None
  }

  /**
   * With every record stored under its own code: the selected language has
   * the requested code, or the request is unknown and it is English; there
   * is no selection only when neither is registered.
   */
  lemma SelectedCode(entries: map<string, Lang>, langOverride: string, detected: string)
    requires forall c | c in entries :: entries[c].code == c
    ensures var code := ToLower(if langOverride == "" then detected else langOverride);
      var r := Select(entries, langOverride, detected);
      && (r.None? <==> code !in entries && "en" !in entries)
      && (r.Some? ==> r.value.code == code || (code !in entries && r.value.code == "en"))
      && (code in entries ==> r.Some? && r.value.code == code)
  {
  }

  /** Matching ignores the case of ASCII letters: `"DE"` and `"de"` select the same language. */
  lemma SelectIgnoresCase(entries: map<string, Lang>, langOverride: string, detected: string)
    ensures Select(entries, ToLower(langOverride), detected) == Select(entries, langOverride, detected)
  {
    ToLowerIdempotent(langOverride);
    assert ToLower(langOverride) == "" <==> langOverride == "";
  }

  /** The key-to-field table that `Label`'s switch spells out (i18n.go:32-46). */
  function LabelTable(l: Lang): map<string, string>
  {
    map["day" := l.labelDay, "hi" := l.labelHi, "lo" := l.labelLo, "cond" := l.labelCond,
        "humidity" := l.labelHumidity, "wind" := l.labelWind, "feels" := l.labelFeels]
  }

  class Translator {
    var active: Option<Lang>
    const registry: Registry

    /** The package state before `Init`: no active language. */
    constructor (registry: Registry)
      ensures this.registry == registry && active == None
    {
      this.registry := registry;
      active := None;
    }

    /** `Init` (i18n.go:13-25): changes only `active`; the registry is left as it was. */
    method Init(langOverride: string, detected: string)
      modifies this
      ensures active == Select(registry.entries, langOverride, detected)
      ensures registry.entries == old(registry.entries)
    {
      var code := langOverride;
      if code == "" {
        code := detected;
      }
      code := ToLower(code);
      var l := registry.Lookup(code);
      if l.Some? {
        active := l;
        return;
      }
      active := registry.Lookup("en");
    }

    /** `Label` (i18n.go:28-50): a known key gives its field, any other key, or no language, the key itself. */
    function Label(key: string): (r: string)
      reads this
      ensures r == if active.Some? && key in LabelTable(active.value) then LabelTable(active.value)[key] else key
    {
      if active.None? then key
      else
        match key
        case "day" => active.value.labelDay
        case "hi" => active.value.labelHi
        case "lo" => active.value.labelLo
        case "cond" => active.value.labelCond
        case "humidity" => active.value.labelHumidity
        case "wind" => active.value.labelWind
        case "feels" => active.value.labelFeels
        case _ => key
    }

    /** `Condition` (i18n.go:54-62): the translation, or `""` without a language or a translation. */
    function Condition(code: int): (r: string)
      reads this
      ensures active.Some? && code in active.value.conditions ==> r == active.value.conditions[code]
      ensures active.None? || code !in active.value.conditions ==> r == ""
    {
      if active.None? then ""
      else if code in active.value.conditions then active.value.conditions[code]
      else ""
    }

    /** `DayAbbr` (i18n.go:65-70): the active abbreviation, or the first three letters of the English name. */
    function DayAbbr(wd: Weekday): (r: string)
      reads this
      ensures active.Some? ==> r == active.value.dayAbbreviations[wd]
      ensures active.None? ==> r == WeekdayNames[wd][..3]
    {
      if active.None? then WeekdayNames[wd][..3] else active.value.dayAbbreviations[wd]
    }

    /** `Cardinal` (i18n.go:73-78): `"?"` without a language or outside `0..15`. */
    function Cardinal(idx: int): (r: string)
      reads this
      ensures active.None? || idx < 0 || idx > 15 ==> r == "?"
      ensures active.Some? && 0 <= idx <= 15 ==> r == active.value.cardinals[idx]
    {
      if active.None? || idx < 0 || idx > 15 then "?" else active.value.cardinals[idx]
    }

    /** `TipManualLocation` (i18n.go:90-95). */
    function TipManualLocation(): (r: string)
      reads this
      ensures active.None? ==> r == DefaultTip
      ensures active.Some? ==> r == active.value.tipManualLocation
    {
      if active.None? then DefaultTip else active.value.tipManualLocation
    }
  }

  /** Without a language, `DayAbbr` falls back to exactly the English abbreviations. */
  lemma FallbackDaysAreEnglish(wd: Weekday)
    ensures WeekdayNames[wd][..3] == Languages.En.dayAbbreviations[wd]
  {
  }

  /** Without a language, the tip is the English one. */
  lemma FallbackTipIsEnglish()
    ensures DefaultTip == Languages.En.tipManualLocation
  {
  }

  /** A translator over the built-in registry, as the program starts it. */
  method NewTranslator() returns (t: Translator)
    ensures fresh(t) && t.active == None
    ensures t.registry.Valid() && t.registry.entries == map["de" := Languages.De, "en" := Languages.En]
  {
    var r := new Registry();
    Languages.RegisterBuiltins(r);
    t := new Translator(r);
  }

  lemma LowerExamples()
    ensures ToLower("en") == "en" && ToLower("de") == "de" && ToLower("xx") == "xx" && ToLower("DE") == "de"
  {
    assert ToLower("DE") == [LowerChar('D'), LowerChar('E')];
  }

  /** internal/i18n/i18n_test.go:9-17. */
  method InitEnglish() returns (code: string)
    ensures code == "en"
  {
    var t := NewTranslator();
    LowerExamples();
    t.Init("en", "");
    code := t.active.value.code;
  }

  /** internal/i18n/i18n_test.go:19-24. */
  method InitGerman() returns (code: string)
    ensures code == "de"
  {
    var t := NewTranslator();
    LowerExamples();
    t.Init("de", "");
    code := t.active.value.code;
  }

  /** internal/i18n/i18n_test.go:26-31: an unknown code falls back to English. */
  method InitFallback() returns (code: string)
    ensures code == "en"
  {
    var t := NewTranslator();
    LowerExamples();
    t.Init("xx", "");
    code := t.active.value.code;
  }

  /** internal/i18n/i18n_test.go:33-38. */
  method InitCaseInsensitive() returns (code: string)
    ensures code == "de"
  {
    var t := NewTranslator();
    LowerExamples();
    t.Init("DE", "");
    code := t.active.value.code;
  }

  /** internal/i18n/i18n_test.go:153-162, with the detected locale handed in. */
  method InitFromDetectedLocale() returns (code: string)
    ensures code == "de"
  {
    var t := NewTranslator();
    LowerExamples();
    t.Init("", "de");
    code := t.active.value.code;
  }

  /** The English label table, entry by entry. */
  lemma EnglishLabelTable()
    ensures var t := LabelTable(Languages.En);
      && t["day"] == "Day" && t["hi"] == "Hi" && t["lo"] == "Lo" && t["cond"] == "Cond."
      && t["humidity"] == "Humidity:" && t["wind"] == "Wind:" && t["feels"] == "feels"
  {
  }

  /** internal/i18n/i18n_test.go:40-60. */
  method EnglishLabels() returns (labels: seq<string>)
    ensures labels == ["Day", "Hi", "Lo", "Cond.", "Humidity:", "Wind:", "feels"]
  {
    var t := NewTranslator();
    LowerExamples();
    t.Init("en", "");
    EnglishLabelTable();
    labels := [t.Label("day"), t.Label("hi"), t.Label("lo"), t.Label("cond"),
               t.Label("humidity"), t.Label("wind"), t.Label("feels")];
  }

  /** internal/i18n/i18n_test.go:62-70. */
  method GermanLabels() returns (feels: string, humidity: string)
    ensures feels == "gef\U{FC}hlt" && humidity == "Feuchte:"
  {
    var t := NewTranslator();
    LowerExamples();
    t.Init("de", "");
    feels := t.Label("feels");
    humidity := t.Label("humidity");
  }

  /** internal/i18n/i18n_test.go:72-84. */
  method EnglishConditions() returns (clear: string, heavyRain: string, unknown: string)
    ensures clear == "Clear sky" && heavyRain == "Heavy rain" && unknown == ""
  {
    var t := NewTranslator();
    LowerExamples();
    t.Init("en", "");
    Languages.EnglishConditionExamples();
    clear := t.Condition(0);
    heavyRain := t.Condition(65);
    unknown := t.Condition(9999);
  }

  /** internal/i18n/i18n_test.go:86-91. */
  method GermanCondition() returns (clear: string)
    ensures clear == "Klarer Himmel"
  {
    var t := NewTranslator();
    LowerExamples();
    t.Init("de", "");
    Languages.GermanConditionExample();
    clear := t.Condition(0);
  }

  /** internal/i18n/i18n_test.go:93-108 (Sunday is 0, Monday 1). */
  method DayAbbrExamples() returns (monday: string, sunday: string, germanMonday: string)
    ensures monday == "Mon" && sunday == "Sun" && germanMonday == "Mo"
  {
    var t := NewTranslator();
    LowerExamples();
    t.Init("en", "");
    monday := t.DayAbbr(1);
    sunday := t.DayAbbr(0);
    t.Init("de", "");
    germanMonday := t.DayAbbr(1);
  }

  /** internal/i18n/i18n_test.go:110-125. */
  method CardinalExamples() returns (north: string, east: string, germanEast: string, outside: string)
    ensures north == "N" && east == "E" && germanEast == "O" && outside == "?"
  {
    var t := NewTranslator();
    LowerExamples();
    t.Init("en", "");
    north := t.Cardinal(0);
    east := t.Cardinal(4);
    outside := t.Cardinal(16);
    t.Init("de", "");
    germanEast := t.Cardinal(4);
  }

  /** internal/i18n/i18n_test.go:144-151. */
  method TipExample() returns (tip: string)
    ensures tip == DefaultTip
  {
    var t := NewTranslator();
    LowerExamples();
    t.Init("en", "");
    tip := t.TipManualLocation();
  }

  /** Before `Init`, every lookup takes its fallback. */
  method UninitialisedExamples() returns (key: string, cond: string, day: string, point: string)
    ensures key == "feels" && cond == "" && day == "Mon" && point == "?"
  {
    var t := NewTranslator();
    key := t.Label("feels");
    cond := t.Condition(0);
    day := t.DayAbbr(1);
    point := t.Cardinal(4);
  }
}
