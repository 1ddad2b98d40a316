/**
 * The English and German records of internal/i18n/lang_en.go and
 * lang_de.go, and the registrations their `init` functions perform.
 */
module Languages {
  import opened Lang
  import Conditions
  import Units

  /** lang_en.go:4-32. */
  const En: Lang := Lang(
    "en", "Day", "Hi", "Lo", "Cond.", "Humidity:", "Wind:", "feels",
    ["Sun", "Mon", "Tue", "Wed", "Thu", "Fri", "Sat"],
    ["N", "NNE", "NE", "ENE", "E", "ESE", "SE", "SSE", "S", "SSW", "SW", "WSW", "W", "WNW", "NW", "NNW"],
    map[
      0 := "Clear sky", 1 := "Mainly clear", 2 := "Partly cloudy", 3 := "Overcast",
      45 := "Fog", 48 := "Depositing rime fog",
      51 := "Light drizzle", 53 := "Moderate drizzle", 55 := "Dense drizzle",
      56 := "Light freezing drizzle", 57 := "Dense freezing drizzle",
      61 := "Slight rain", 63 := "Moderate rain", 65 := "Heavy rain",
      66 := "Light freezing rain", 67 := "Heavy freezing rain",
      71 := "Slight snow", 73 := "Moderate snow", 75 := "Heavy snow", 77 := "Snow grains",
      80 := "Slight rain showers", 81 := "Moderate rain showers", 82 := "Violent rain showers",
      85 := "Slight snow showers", 86 := "Heavy snow showers",
      95 := "Thunderstorm", 96 := "Thunderstorm with slight hail", 99 := "Thunderstorm with heavy hail"
    ],
    "Tip: Use --city or --lat/--lon to specify a location manually")

  /** lang_de.go:4-32. */
  const De: Lang := Lang(
    "de", "Tag", "Max", "Min", "Wetter", "Feuchte:", "Wind:", "gef\U{FC}hlt",
    ["So", "Mo", "Di", "Mi", "Do", "Fr", "Sa"],
    ["N", "NNO", "NO", "ONO", "O", "OSO", "SO", "SSO", "S", "SSW", "SW", "WSW", "W", "WNW", "NW", "NNW"],
    map[
      0 := "Klarer Himmel", 1 := "\U{DC}berwiegend klar", 2 := "Teilweise bew\U{F6}lkt", 3 := "Bedeckt",
      45 := "Nebel", 48 := "Reifnebel",
      51 := "Leichter Nieselregen", 53 := "M\U{E4}\U{DF}iger Nieselregen", 55 := "Starker Nieselregen",
      56 := "Leichter gefrierender Nieselregen", 57 := "Starker gefrierender Nieselregen",
      61 := "Leichter Regen", 63 := "M\U{E4}\U{DF}iger Regen", 65 := "Starker Regen",
      66 := "Leichter gefrierender Regen", 67 := "Starker gefrierender Regen",
      71 := "Leichter Schneefall", 73 := "M\U{E4}\U{DF}iger Schneefall", 75 := "Starker Schneefall",
      77 := "Schneegriesel",
      80 := "Leichte Regenschauer", 81 := "M\U{E4}\U{DF}ige Regenschauer", 82 := "Heftige Regenschauer",
      85 := "Leichte Schneeschauer", 86 := "Starke Schneeschauer",
      95 := "Gewitter", 96 := "Gewitter mit leichtem Hagel", 99 := "Gewitter mit starkem Hagel"
    ],
    "Tipp: Verwenden Sie --city oder --lat/--lon, um einen Ort manuell anzugeben")

  /** The `init` functions of lang_de.go and lang_en.go, in file-name order. */
  method RegisterBuiltins(r: Registry)
    requires r.Valid()
    modifies r
    ensures r.Valid()
    ensures r.entries == old(r.entries)["de" := De]["en" := En]
  {
    r.Register(De);
    r.Register(En);
  }

  /** Both languages translate exactly the WMO codes of the condition table. */
  lemma ConditionKeys()
    ensures En.conditions.Keys == Conditions.WmoCodes
    ensures De.conditions.Keys == Conditions.WmoCodes
  {
  }

  /** The English translations are the descriptions of the condition table. */
  lemma EnglishMatchesTable()
    ensures forall k | k in Conditions.Table :: k in En.conditions && En.conditions[k] == Conditions.Table[k].description
  {
  }

  /** The English compass points are the ones `WindCardinal` names. */
  lemma EnglishCardinalsAreDirections()
    ensures En.cardinals == Units.Directions
  {
  }

  lemma EnglishConditionExamples()
    ensures 0 in En.conditions && En.conditions[0] == "Clear sky"
    ensures 65 in En.conditions && En.conditions[65] == "Heavy rain"
    ensures 9999 !in En.conditions
  {
  }

  lemma GermanConditionExample()
    ensures 0 in De.conditions && De.conditions[0] == "Klarer Himmel"
  {
  }
}
