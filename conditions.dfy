/** The WMO weather-code table of internal/display/conditions.go. */
module Conditions {
  import opened Measure

  datatype WeatherCondition = WeatherCondition(code: int, description: string, emoji: string, category: string)

  /** The table `conditions` (conditions.go:11-40). */
  const Table: map<int, WeatherCondition> := map[
    0 := WeatherCondition(0, "Clear sky", "\U{2600}\U{FE0F}", "clear"),
    1 := WeatherCondition(1, "Mainly clear", "\U{1F324}\U{FE0F}", "clear"),
    2 := WeatherCondition(2, "Partly cloudy", "\U{26C5}", "cloudy"),
    3 := WeatherCondition(3, "Overcast", "\U{2601}\U{FE0F}", "cloudy"),
    45 := WeatherCondition(45, "Fog", "\U{1F32B}\U{FE0F}", "fog"),
    48 := WeatherCondition(48, "Depositing rime fog", "\U{1F32B}\U{FE0F}", "fog"),
    51 := WeatherCondition(51, "Light drizzle", "\U{1F326}\U{FE0F}", "rain"),
    53 := WeatherCondition(53, "Moderate drizzle", "\U{1F326}\U{FE0F}", "rain"),
    55 := WeatherCondition(55, "Dense drizzle", "\U{1F326}\U{FE0F}", "rain"),
    56 := WeatherCondition(56, "Light freezing drizzle", "\U{1F327}\U{FE0F}", "rain"),
    57 := WeatherCondition(57, "Dense freezing drizzle", "\U{1F327}\U{FE0F}", "rain"),
    61 := WeatherCondition(61, "Slight rain", "\U{1F327}\U{FE0F}", "rain"),
    63 := WeatherCondition(63, "Moderate rain", "\U{1F327}\U{FE0F}", "rain"),
    65 := WeatherCondition(65, "Heavy rain", "\U{1F327}\U{FE0F}", "rain"),
    66 := WeatherCondition(66, "Light freezing rain", "\U{1F327}\U{FE0F}", "rain"),
    67 := WeatherCondition(67, "Heavy freezing rain", "\U{1F327}\U{FE0F}", "rain"),
    71 := WeatherCondition(71, "Slight snow", "\U{2744}\U{FE0F}", "snow"),
    73 := WeatherCondition(73, "Moderate snow", "\U{2744}\U{FE0F}", "snow"),
    75 := WeatherCondition(75, "Heavy snow", "\U{2744}\U{FE0F}", "snow"),
    77 := WeatherCondition(77, "Snow grains", "\U{2744}\U{FE0F}", "snow"),
    80 := WeatherCondition(80, "Slight rain showers", "\U{1F326}\U{FE0F}", "rain"),
    81 := WeatherCondition(81, "Moderate rain showers", "\U{1F326}\U{FE0F}", "rain"),
    82 := WeatherCondition(82, "Violent rain showers", "\U{26C8}\U{FE0F}", "rain"),
    85 := WeatherCondition(85, "Slight snow showers", "\U{1F328}\U{FE0F}", "snow"),
    86 := WeatherCondition(86, "Heavy snow showers", "\U{1F328}\U{FE0F}", "snow"),
    95 := WeatherCondition(95, "Thunderstorm", "\U{26A1}", "storm"),
    96 := WeatherCondition(96, "Thunderstorm with slight hail", "\U{26A1}", "storm"),
    99 := WeatherCondition(99, "Thunderstorm with heavy hail", "\U{26A1}", "storm")
  ]

  /** The 28 WMO codes the table maps; every language must translate the same codes. */
  const WmoCodes: set<int> := {0, 1, 2, 3, 45, 48, 51, 53, 55, 56, 57, 61, 63, 65, 66, 67,
                               71, 73, 75, 77, 80, 81, 82, 85, 86, 95, 96, 99}

  const Categories: set<string> := {"clear", "cloudy", "fog", "rain", "snow", "storm", "unknown"}

  /** The emoji glyphs the table uses. */
  const Emojis: set<string> := {"\U{2600}\U{FE0F}", "\U{1F324}\U{FE0F}", "\U{26C5}", "\U{2601}\U{FE0F}",
                                "\U{1F32B}\U{FE0F}", "\U{1F326}\U{FE0F}", "\U{1F327}\U{FE0F}", "\U{2744}\U{FE0F}",
                                "\U{26C8}\U{FE0F}", "\U{1F328}\U{FE0F}", "\U{26A1}", "\U{2753}"}

  /** The fallback for codes the table does not hold (conditions.go:48). */
  function UnknownCondition(code: int): WeatherCondition
  {
    WeatherCondition(code, "Unknown", "\U{2753}", "unknown")
  }

  /** An entry is stored under its own code, has a description, one of the table's glyphs and a real category. */
  predicate WellFormedEntry(code: int, c: WeatherCondition)
  {
    && c.code == code
    && c.description != []
    && c.emoji in Emojis
    && c.category in Categories && c.category != "unknown"
  }

  lemma EmojisEscapeFree()
    ensures forall e | e in Emojis :: Esc !in e
  {
  }

  lemma TableKeys()
    ensures Table.Keys == WmoCodes
  {
  }

  lemma TableWellFormed()
    ensures forall k | k in Table :: WellFormedEntry(k, Table[k])
  {
  }

  lemma DescriptionsEscFreeFrom0()
    ensures Esc !in "Clear sky"
    ensures Esc !in "Mainly clear"
    ensures Esc !in "Partly cloudy"
    ensures Esc !in "Overcast"
  {
  }

  lemma DescriptionsEscFreeFrom45()
    ensures Esc !in "Fog"
    ensures Esc !in "Depositing rime fog"
    ensures Esc !in "Light drizzle"
    ensures Esc !in "Moderate drizzle"
  {
  }

  lemma DescriptionsEscFreeFrom55()
    ensures Esc !in "Dense drizzle"
    ensures Esc !in "Light freezing drizzle"
    ensures Esc !in "Dense freezing drizzle"
    ensures Esc !in "Slight rain"
  {
  }

  lemma DescriptionsEscFreeFrom63()
    ensures Esc !in "Moderate rain"
    ensures Esc !in "Heavy rain"
    ensures Esc !in "Light freezing rain"
    ensures Esc !in "Heavy freezing rain"
  {
  }

  lemma DescriptionsEscFreeFrom71()
    ensures Esc !in "Slight snow"
    ensures Esc !in "Moderate snow"
    ensures Esc !in "Heavy snow"
    ensures Esc !in "Snow grains"
  {
  }

  lemma DescriptionsEscFreeFrom80()
    ensures Esc !in "Slight rain showers"
    ensures Esc !in "Moderate rain showers"
    ensures Esc !in "Violent rain showers"
    ensures Esc !in "Slight snow showers"
  {
  }

  lemma DescriptionsEscFreeFrom86()
    ensures Esc !in "Heavy snow showers"
    ensures Esc !in "Thunderstorm"
    ensures Esc !in "Thunderstorm with slight hail"
    ensures Esc !in "Thunderstorm with heavy hail"
  {
  }

  /** No English description holds an ESC, so none can open an escape sequence in a card line. */
  lemma DescriptionsEscFree()
    ensures forall k | k in Table :: Esc !in Table[k].description
  {
    DescriptionsEscFreeFrom0();
    DescriptionsEscFreeFrom45();
    DescriptionsEscFreeFrom55();
    DescriptionsEscFreeFrom63();
    DescriptionsEscFreeFrom71();
    DescriptionsEscFreeFrom80();
    DescriptionsEscFreeFrom86();
  }

  /** `GetCondition` (conditions.go:44-49): total over all codes. */
  function GetCondition(code: int): (c: WeatherCondition)
    ensures c.code == code
    ensures c.description != [] && Esc !in c.description
    ensures Esc !in c.emoji
    ensures c.category in Categories
    ensures code in WmoCodes <==> c.category != "unknown"
    ensures code in Table ==> c == Table[code]
    ensures code !in WmoCodes ==> c == UnknownCondition(code)
  {
    TableKeys();
    TableWellFormed();
    EmojisEscapeFree();
    DescriptionsEscFree();
    if code in Table then Table[code] else UnknownCondition(code)
  }

  /** The cases of internal/display/display_test.go:53-56 and 91-99. */
  lemma GetConditionExamples()
    ensures GetCondition(0).description == "Clear sky" && GetCondition(0).emoji[0] == '\U{2600}'
    ensures GetCondition(999).description == "Unknown" && GetCondition(999).emoji == "\U{2753}"
  {
  }
}
