# weather-cli card renderer, modelled in Dafny

This project models the terminal card renderer of weather-cli, together with the small closed mappings that feed it. The renderer draws:

- a frame 52 columns wide;
- a header with the location and the condition emoji;
- a five-line block that puts ASCII art beside four lines of current conditions;
- a forecast table with fixed columns.

The model covers these parts:

- **Measurement** (`measure.dfy`):
  - `runeWidth` (0, 1 or 2 columns per code point);
  - the two-state escape scanner, and `visLen`;
  - `truncateToWidth`.
- **Composition** (`card.dfy`):
  - `padLine`, the four rule lines and `forecastRow`;
  - the builder loops of `RenderWeatherCard`: the art/info merge, the art padding loop and the capped row loop.
- **Closed mappings**:
  - the WMO condition table and `GetCondition` (`conditions.dfy`);
  - the colour wrappers (`color.dfy`);
  - the ASCII art (`ascii.dfy`);
  - the unit suffixes and `WindCardinal` (`units.dfy`).
- **Localisation**:
  - the `Lang` record and the registry (`lang.dfy`);
  - the English and German records (`languages.dfy`);
  - the active-language state and its lookups (`i18n.dfy`);
  - `extractLangCode` (`locale.dfy`).
- **Shared helpers**: `strings.dfy` models the Go string functions the code calls, and `options.dfy` holds the option type.

Go's loops become Dafny methods with loop invariants, each proved equal to a specification function:

- `visLen`, `truncateToWidth` and `forecastRow`;
- the art padding loop, the merge loop, the row loop and `RenderWeatherCard` itself.

The package-level state becomes classes:

- The `registry` map becomes the field of `Lang.Registry`, which `Register` updates.
- The `active` pointer becomes the field of `I18n.Translator`, which `Init` assigns.

The global `ColorEnabled` becomes a parameter, and so does the locale that `detectLocale` would find.

Strings are sequences of Unicode code points. Go's UTF-8 decoding is abstracted away.

The Unicode property tables that `unicode.Is` consults (Mn, Me, Han) are an uninterpreted parameter `u`, so every result holds for any tables. Only `Sane(u)` is assumed: ASCII and box-drawing code points belong to none of the three tables.

Control sequences are ESC, any code points, then an ASCII letter (ECMA-48 section 5.4). The colour codes are Select Graphic Rendition sequences (ECMA-48 section 8.3.117).

The main results:

- **Widths.**
  - `runeWidth` is 0, 1 or 2, by the source's precedence.
  - Escapes are invisible, and colouring never changes visual width.
  - Without ESC, `visLen` is the plain sum of `runeWidth`.
- **Truncation.** `truncateToWidth` returns the longest prefix that fits, and text that fits comes back unchanged.
- **Frame.**
  - Every card line is framed: a one-column plain character, an interior of exactly 52 columns that closes every escape it opens, another plain character and a line feed. The precondition is that the caller's texts leave no escape sequence open.
  - The card has twelve fixed lines plus `min(days, len(daily))` rows, and no rows when `days <= 0`.
- **No colour.** With colour off and ESC-free inputs, the card holds no ESC.
- **Localisation.**
  - The language selection is case-insensitive and falls back to English.
  - Every lookup is total, with its fallback.
  - `register` leaves every other code's entry alone.
- **Test vectors.** These test vectors are proved:
  - `TestVisLen` and `TestGetConditionUnknown` in `display_test.go`, and the no-ESC property of `TestRenderNoColor` for all ESC-free inputs;
  - `TestTempUnit`, `TestWindUnit` and `TestWindCardinal` in `units_test.go`;
  - in `i18n_test.go`, every test except `TestFormatDay`, `TestFormatDayGerman` and the `es`, `fr`, `it` and `zh` entries of `TestAllLanguagesRegistered`. `TestAllLanguagesHaveConditions` holds for `en` and `de`. `TestLocaleDetectionFromEnv` is proved in two halves: `I18n.InitFromDetectedLocale` takes the detected code as given, and `Locale.GermanUtf8Locale` parses the locale.
- **Test vectors not proved.** `TestFormatTemp` (float formatting), the two `FormatDay` tests (calendar), the substring checks of `TestRenderWeatherCard` and `TestRenderNoColor` (`Berlin`, `18`, corners, sun) and the four untranscribed languages.

Where the Go program panics, the model returns `None`. `WindCardinal` indexes its table with a negative remainder exactly when the truncated sector number `(degrees + 11) / 22` is negative and not a multiple of 16 (`Units.WindCardinalPanics`). That is -54..-33 degrees, then every band of 22 degrees below, except that each 16th band gives north again (-384..-363, for one). `RenderWeatherCard` returns `None` in those cases too. The arithmetic is on unbounded integers (see `Units.WindCardinal` under "## Left out").

## Model

| member | source | states |
|---|---|---|
| Measure.RuneWidth | internal/display/display.go:233-276 | at most 2; 0 exactly for the zero-width class (variation selectors, Mn/Me marks, joiners and direction marks, skin tones); 2 exactly for the wide class outside it (regional indicators, emoji ranges, Han, fullwidth forms); 1 otherwise |
| Measure.NarrowAscii | internal/display/display.go:233-276 | ASCII and box-drawing code points are one column wide |
| Measure.VisLen | internal/display/display.go:212-229 | the loop returns the scanner's width of the whole string |
| Measure.WidthConcat | internal/display/display.go:212-229 | the width of a concatenation is the width of the first part plus that of the second, measured from the state the first part leaves |
| Measure.BalancedConcat | internal/display/display.go:212-229 | two strings that end outside an escape concatenate to one that does too |
| Measure.VisibleWidthConcat | internal/display/display.go:212-229 | after a balanced prefix, widths add |
| Measure.BalancedAppend | internal/display/display.go:212-229 | balanced pieces add their widths and stay balanced together |
| Measure.EscapeFreeWidth | internal/display/display.go:215-227 | without ESC, `visLen` equals the sum of `runeWidth` over the code points (an independent reference) and the text is balanced |
| Measure.WidthFrom | internal/display/display.go:215-227 | the scanner's width from a given state: ESC enters an escape, an ASCII letter ends one, and each code point outside an escape adds its `runeWidth`; its properties are `Measure.WidthConcat`, `Measure.EscapeFreeWidth` and `Measure.EscapeSequenceInvisible` |
| Measure.VisibleWidth | internal/display/display.go:212-229 | what `visLen` returns: the scanner's width from outside an escape; `Measure.VisLen` returns it and `Measure.EscapeFreeWidth` ties it to the plain sum of widths |
| Measure.PlainTextWidth | internal/display/display.go:215-227 | printable ASCII and box drawing are exactly as wide as they are long |
| Measure.SpacesWidth | internal/display/display.go:215-227 | `n` spaces are `n` columns and balanced |
| Measure.EscapeSequenceInvisible | internal/display/display.go:215-227 | ESC up to and including the next ASCII letter counts nothing and leaves the scanner outside an escape, from either state |
| Measure.WrappedWidth | internal/display/display.go:215-227 | text between two control sequences keeps its width and ends balanced |
| Measure.TruncateToWidth | internal/display/display.go:170-209 | the loop with its `break` returns `Truncated(s, maxWidth)` |
| Measure.Truncated | internal/display/display.go:170-209 | what `truncateToWidth` returns; `Measure.TruncatedIsLongestFit` and `Measure.TruncateFitting` characterise it as the longest prefix that fits |
| Measure.TruncFromFacts | internal/display/display.go:170-209 | what is copied is a prefix within the budget; when it stops early, it is outside an escape and the next code point would overflow |
| Measure.TruncatedIsLongestFit | internal/display/display.go:170-209 | the result is a prefix of width at most `n`, and every longer prefix is wider than `n` |
| Measure.TruncateFitting | internal/display/display.go:170-209 | text that already fits comes back unchanged |
| Measure.TruncatedCutIsBalanced | internal/display/display.go:170-209 | when text had to be cut, the cut is strictly shorter and falls outside any escape |
| Color.SgrIsEscapeSequence | internal/display/color.go:8-18 | an SGR code (ESC `[` digits `m`) is a control sequence |
| Color.CodesAreSgr | internal/display/color.go:8-18 | reset, bold, dim and the six colour constants are all SGR codes |
| Color.Bold | internal/display/color.go:21-26 | the text itself with colour off; bold code, text and reset with colour on |
| Color.Colored | internal/display/color.go:29-34 | the text itself with colour off; the code, the text and reset with colour on |
| Color.Yellow | internal/display/color.go:37 | `Colored` with the yellow code |
| Color.Blue | internal/display/color.go:40 | `Colored` with the blue code |
| Color.Cyan | internal/display/color.go:43 | `Colored` with the cyan code |
| Color.Red | internal/display/color.go:46 | `Colored` with the red code |
| Color.Green | internal/display/color.go:49 | `Colored` with the green code |
| Color.Dim | internal/display/color.go:52 | `Colored` with the dim code |
| Color.ColoredKeepsWidth | internal/display/color.go:29-34 | colouring with any SGR code keeps the visual width of any text |
| Color.ColoredBalanced | internal/display/color.go:29-34 | with colour on, the result is balanced whatever the text; with colour off, when the text is |
| Color.WrappersKeepWidth | internal/display/color.go:21-52 | `Bold` and each of the six wrappers keep the visual width |
| Color.NoColorNoEscape | internal/display/color.go:22-24 | with colour off, ESC-free text stays ESC-free |
| Color.ExampleBold | internal/display/display_test.go:101-118 | `"\033[1mhello\033[0m"` is 5 columns wide |
| Color.ExampleRed | internal/display/display_test.go:101-118 | `"\033[31mred\033[0m text"` is 8 columns wide |
| Color.VisibleWidthExamples | internal/display/display_test.go:101-118 | the four `visLen` test vectors |
| Conditions.TableKeys | internal/display/conditions.go:11-40 | the table maps exactly the 28 WMO codes |
| Conditions.Table | internal/display/conditions.go:11-40 | the 28 records of the `conditions` map, transcribed; `Conditions.TableKeys` and `Conditions.TableWellFormed` state its keys and entries |
| Conditions.UnknownCondition | internal/display/conditions.go:48 | the fallback record: `Unknown`, the question-mark glyph and the category `unknown`, under the requested code; `Conditions.GetCondition` returns it exactly for unmapped codes |
| Conditions.TableWellFormed | internal/display/conditions.go:12-39 | every entry is stored under its own code and has a description, one of the table's glyphs and a known category |
| Conditions.EmojisEscapeFree | internal/display/conditions.go:12-39 | no glyph holds an ESC |
| Conditions.DescriptionsEscFree | internal/display/conditions.go:12-39 | no English description holds an ESC |
| Conditions.GetCondition | internal/display/conditions.go:44-49 | total; the code is the input; a mapped code gets exactly its table record; the description is non-empty and ESC-free; the category is one of the seven; the category is `unknown` exactly for an unmapped code, which gets the fallback record |
| Conditions.GetConditionExamples | internal/display/display_test.go:91-99 | code 0 is "Clear sky" with a sun glyph; code 999 is "Unknown" with a question mark |
| Ascii.ArtLinesOf | internal/display/ascii.go:42-47 | five lines; any category outside the six known ones gets the default art |
| Ascii.AsciiArt | internal/display/ascii.go:4-49 | splitting the art at line feeds gives that category's five lines |
| Ascii.ArtLinesFit | internal/display/ascii.go:6-47 | every art line is printable ASCII and shorter than 16 columns |
| Ascii.ArtLinesSingle | internal/display/ascii.go:6-47 | no art line holds a line feed |
| Ascii.ArtShape | internal/display/ascii.go:6-47 | every category's art splits into 5 lines, each balanced and exactly as wide as it is long, under 16 |
| Units.TempUnit | internal/units/units.go:6-11 | the degree sign then `F` exactly when imperial, `C` exactly when not |
| Units.WindUnit | internal/units/units.go:14-19 | `mph` exactly when imperial, otherwise `km/h` |
| Units.GoQuot | internal/units/units.go:30 | Go's division, truncating toward zero |
| Units.GoRem | internal/units/units.go:30 | Go's remainder, with the dividend's sign and less than the divisor in magnitude |
| Units.GoDivision | internal/units/units.go:30 | quotient and remainder recombine to the dividend, as the Go specification requires |
| Units.Directions | internal/units/units.go:28-29 | the sixteen compass points clockwise from north; `Languages.EnglishCardinalsAreDirections` ties them to the English record |
| Units.WindCardinal | internal/units/units.go:27-32 | a compass point from -32 degrees up; the Go index panics between -54 and -33 degrees |
| Units.WindCardinalPoint | internal/units/units.go:27-32 | an answer is always one of the 16 points; from -11 degrees up it is point `((degrees+11)/22) % 16`; between -32 and -12 degrees it is north |
| Units.WindCardinalPanics | internal/units/units.go:30 | no point exactly when the truncated sector number is negative and not a multiple of 16 |
| Units.WindCardinalSector | internal/units/units.go:27-32 | every 22-degree sector centred on `22k` gives point `k mod 16` |
| Units.WindCardinalCardinalExamples | internal/units/units_test.go:43-64 | 0, 90, 180 and 270 give N, E, S, W |
| Units.WindCardinalIntercardinalExamples | internal/units/units_test.go:43-64 | 45, 135, 225 and 315 give NE, SE, SW, NW; 340 gives NNW |
| Units.WindCardinalTopIsNorth | internal/units/units.go:30 | 341 to 362 degrees fold back to north |
| Units.WindCardinalPeriod | internal/units/units.go:30 | the mapping repeats every 352 degrees, not 360 |
| Card.Rule | internal/display/display.go:140-154 | corner, 52 copies of the filler, corner, line feed |
| Card.RulesFramed | internal/display/display.go:140-154 | the two borders, the divider and the empty line are framed lines |
| Card.TopBorder | internal/display/display.go:140-142 | `Rule` with the top corners and the horizontal line; framed by `Card.RulesFramed` |
| Card.BottomBorder | internal/display/display.go:144-146 | `Rule` with the bottom corners and the horizontal line; framed by `Card.RulesFramed` |
| Card.Divider | internal/display/display.go:148-150 | `Rule` with the two tees and the horizontal line; framed by `Card.RulesFramed` |
| Card.EmptyLine | internal/display/display.go:152-154 | `Rule` with vertical bars and spaces; framed by `Card.RulesFramed` |
| Card.PadLine | internal/display/display.go:156-167 | `padLine`: the content, cut by `truncateToWidth` when wider than 52, then `max(52 - width, 0)` spaces between two bars; `Card.PadLineShape`, `Card.PadLineFramed` and `Card.PadLineEscapeFree` state its properties |
| Card.Kept | internal/display/display.go:157-161 | what `padLine` keeps of its content: all of it when it is at most 52 columns wide, otherwise `truncateToWidth`'s cut to 52; `Card.PadLineShape` states it |
| Card.PadLineShape | internal/display/display.go:156-167 | vertical bar, then the content if it fits or its truncation if not, then only spaces, `max(52 - width of what is kept, 0)` of them, then vertical bar and line feed |
| Card.PadLineFramed | internal/display/display.go:156-167 | the interior is exactly 52 columns and balanced, when the content is balanced or had to be cut |
| Card.PadLineEscapeFree | internal/display/display.go:156-167 | padding adds no ESC |
| Card.AppendPadding | internal/display/display.go:109-111 | the countdown loop appends `max(pad, 0)` spaces |
| Card.AppendTempCell | internal/display/display.go:114-126 | left padding to six columns, then the text |
| Card.DayCell | internal/display/display.go:108-112 | the day name followed by `10 - width` spaces when positive; `Card.CellWidths` gives its width |
| Card.TempCell | internal/display/display.go:114-126 | `6 - width` spaces when positive, then the temperature text; `Card.CellWidths` gives its width |
| Card.CondCell | internal/display/display.go:128-134 | two spaces and the emoji, then a space and the description only when it is non-empty; `Card.CondCellWidth` gives its width |
| Card.Row | internal/display/display.go:105-138 | what `forecastRow` returns: two spaces and the four cells; `Card.ForecastRow` returns it and `Card.RowWidth` gives its width |
| Card.ForecastRow | internal/display/display.go:105-138 | the builder returns `Row`: two spaces, day cell, two temperature cells, two spaces, emoji and, only when the description is not empty, a space and the description |
| Card.CellWidths | internal/display/display.go:108-126 | the day cell is `max(10, width)` columns, each temperature cell `max(6, width)`: padding never cuts |
| Card.CondCellWidth | internal/display/display.go:128-134 | the condition cell is 2 + emoji width, plus 1 + description width when there is a description |
| Card.RowWidth | internal/display/display.go:105-138 | the width of a row is the sum of its column widths, and the row is balanced |
| Card.InfoLines | internal/display/display.go:33-43 | four info lines |
| Card.Header | internal/display/display.go:27 | two spaces, the bold location, two spaces and the condition emoji; `Card.HeaderBalanced` states it leaves no escape open |
| Card.PadArt | internal/display/display.go:61-63 | the art part after the loop that appends spaces while it is narrower than 16; `Card.PadArtPart` computes it and `Card.PadArtWidth` gives its width |
| Card.PartAt | internal/display/display.go:52-59 | entry `i` of the art or info lines, or `""` past their end |
| Card.MergedLine | internal/display/display.go:60-64 | two spaces, the padded art part, then the info part; `Card.MergeLine` builds it |
| Card.Merged | internal/display/display.go:46-66 | `max(len(art), len(info))` lines, line `i` being the padded art part `i` (or nothing) and then info part `i` (or nothing) |
| Card.RowLimit | internal/display/display.go:78-81 | `days` capped by the data, and none when `days <= 0` |
| Card.PadAll | internal/display/display.go:65 | one padded line per content, in order |
| Card.DayRows | internal/display/display.go:83-96 | one row per day up to the limit, in order |
| Card.DayRow | internal/display/display.go:84-96 | one day's `forecastRow` with the emoji and English description of its weather code; `Card.RowWidth` gives its width |
| Card.TableHeader | internal/display/display.go:75 | the column titles as a `forecastRow` of the four dimmed labels, the last in the emoji slot, with no description; `Card.TableHeaderBalanced` states it is balanced |
| Card.PadArtPart | internal/display/display.go:61-63 | the `visLen` loop pads the art part to `PadArt` |
| Card.MergeLine | internal/display/display.go:52-64 | one pass of the merge loop builds merged line `i` |
| Card.EmitMerged | internal/display/display.go:51-66 | the merge loop appends the padded merged lines in order |
| Card.DayLine | internal/display/display.go:84-95 | one pass of the row loop builds the padded row of that day |
| Card.EmitRows | internal/display/display.go:78-96 | the capped loop appends the padded rows of the first `min(days, len(daily))` days |
| Card.EmitDays | internal/display/display.go:83-96 | the loop over the first `limit` days appends exactly the given padded rows |
| Card.EmitHead | internal/display/display.go:24-66 | border, padded header, empty line and the padded merged block, in order |
| Card.EmitTail | internal/display/display.go:68-99 | empty line, divider, padded column titles, the padded rows and the bottom border, in order |
| Card.Emit | internal/display/display.go:24 | one `b.WriteString`: the builder's text grows by the line and stays the concatenation of the lines written |
| Card.RenderWeatherCard | internal/display/display.go:16-102 | no card exactly when the wind direction has no compass point; otherwise the builder's text is the concatenation of the card's lines |
| Card.CardLines | internal/display/display.go:16-102 | the lines `RenderWeatherCard` writes, or none when the wind direction has no compass point; `Card.CardShape` states its layout and `Card.CardFramed` its frame |
| Card.Assemble | internal/display/display.go:24-99 | the card's layout from its padded parts; `Card.AssembleShape` states where each line sits |
| Card.CardShape | internal/display/display.go:16-102 | the card exists exactly when the wind direction has a point; then it has 12 + `min(days, len(daily))` lines, each fixed line in its place and row `i` the padded row of day `i` |
| Card.AssembleShape | internal/display/display.go:24-99 | where each line of the layout sits |
| Card.LayoutShape | internal/display/display.go:24-99 | the same positions, for a layout of any lines |
| Card.AsciiArtLines | internal/display/display.go:20-21 | the art splits into the category's five lines |
| Card.MergedBlock | internal/display/display.go:46-66 | with five art lines and four info lines: five merged lines; in each, the art is padded to exactly 16 columns, so all info texts start in one column; the fifth has art only |
| Card.PadArtWidth | internal/display/display.go:61-63 | a padded art part is `max(16, width)` columns and balanced |
| Card.InfoLinesBalanced | internal/display/display.go:33-43 | the info lines leave no escape open when their inputs do not |
| Card.MergedBalanced | internal/display/display.go:46-66 | merged lines of balanced parts are balanced |
| Card.DayRowsBalanced | internal/display/display.go:83-96 | rows of balanced day texts are balanced |
| Card.TableHeaderBalanced | internal/display/display.go:75 | the dimmed column titles are balanced |
| Card.HeaderBalanced | internal/display/display.go:27-28 | the header is balanced when the location is |
| Card.AllFramedConcat | internal/display/display.go:16-102 | concatenating framed blocks keeps every line framed |
| Card.PadAllFramed | internal/display/display.go:156-167 | padding balanced contents gives framed lines only |
| Card.AllFramed3 | internal/display/display.go:16-102 | three framed lines make a framed block |
| Card.AssembleFramed | internal/display/display.go:16-102 | the layout of balanced parts is framed line by line |
| Card.CardFramed | internal/display/display.go:16-102 | when the caller's texts are balanced and the direction has a point: every card line is a plain character, an interior of exactly 52 columns that closes its escapes, a plain character and a line feed |
| Card.RowEscapeFree | internal/display/display.go:105-138 | rows of ESC-free texts are ESC-free |
| Card.InfoLinesEscapeFree | internal/display/display.go:33-43 | with colour off, info lines of ESC-free texts are ESC-free |
| Card.MergedEscapeFree | internal/display/display.go:46-66 | merging ESC-free parts adds no ESC |
| Card.AssembleEscapeFree | internal/display/display.go:16-102 | the layout of ESC-free parts holds no ESC |
| Card.CardEscapeFree | internal/display/display_test.go:59-89 | with colour off and ESC-free texts, the card holds no ESC at all |
| Lang.Registry.constructor | internal/i18n/lang.go:19 | the registry starts empty |
| Lang.Registry.Register | internal/i18n/lang.go:21-23 | the record is stored under its code; every other code keeps its entry or its absence; each record stays under its own code |
| Lang.Registry.Lookup | internal/i18n/i18n.go:19 | the comma-ok lookup: a record exactly when the code is registered, and then that code's record |
| Lang.RegisterThenLookup | internal/i18n/lang.go:21-23 | after `register(l)`, looking up `l`'s code finds `l` |
| Lang.RegisterLeavesOthers | internal/i18n/lang.go:21-23 | registering a second code leaves the first record in place |
| Lang.RegisterTwiceKeepsLater | internal/i18n/lang.go:21-23 | registering the same code twice keeps the later record |
| Languages.RegisterBuiltins | internal/i18n/lang_en.go:3-34 | the `init` functions register the German and then the English record under their codes |
| Languages.En | internal/i18n/lang_en.go:4-32 | the English record, transcribed; `Languages.EnglishMatchesTable` and `Languages.EnglishCardinalsAreDirections` tie it to the display tables |
| Languages.De | internal/i18n/lang_de.go:4-32 | the German record, transcribed; `Languages.ConditionKeys` states it translates every WMO code |
| Languages.ConditionKeys | internal/i18n/i18n_test.go:193-203 | both languages translate exactly the 28 WMO codes of the condition table |
| Languages.EnglishMatchesTable | internal/i18n/lang_en.go:4-32 | the English translations are the condition table's descriptions |
| Languages.EnglishCardinalsAreDirections | internal/i18n/lang_en.go:4-32 | the English compass points are the ones `WindCardinal` names |
| Languages.EnglishConditionExamples | internal/i18n/i18n_test.go:72-84 | 0 and 65 are "Clear sky" and "Heavy rain"; 9999 is absent |
| Languages.GermanConditionExample | internal/i18n/i18n_test.go:86-91 | 0 is "Klarer Himmel" |
| I18n.SelectedCode | internal/i18n/i18n.go:13-25 | the selection has the lower-cased requested code when that is registered, else English; there is none exactly when neither is registered |
| I18n.SelectIgnoresCase | internal/i18n/i18n.go:18 | lower-casing the request first selects the same language |
| I18n.Select | internal/i18n/i18n.go:14-24 | the record `Init` activates: the lower-cased request or detected code when registered, else English; `I18n.SelectedCode` states which code it has |
| I18n.Translator.constructor | internal/i18n/i18n.go:9 | no active language before `Init` |
| I18n.Translator.Init | internal/i18n/i18n.go:13-25 | `active` becomes the selection for the request, or for the detected locale when the request is empty; the registry is unchanged |
| I18n.Translator.Label | internal/i18n/i18n.go:28-50 | each of the seven keys gives its field of the active language; any other key, or no language, gives the key itself |
| I18n.Translator.Condition | internal/i18n/i18n.go:54-62 | the active translation, or `""` without a language or a translation |
| I18n.Translator.DayAbbr | internal/i18n/i18n.go:65-70 | the active abbreviation for the weekday, or the first three letters of the English day name |
| I18n.WeekdayNames | internal/i18n/i18n.go:67 | the names `time.Weekday.String` gives, Sunday first; `I18n.FallbackDaysAreEnglish` states their first three letters are the English abbreviations |
| I18n.Translator.Cardinal | internal/i18n/i18n.go:73-78 | `"?"` without a language or outside 0..15, otherwise the active point |
| I18n.Translator.TipManualLocation | internal/i18n/i18n.go:90-95 | the active tip, or the English text without a language |
| I18n.DefaultTip | internal/i18n/i18n.go:92 | the tip shown before any language is active; `I18n.FallbackTipIsEnglish` states it is the English record's tip |
| I18n.FallbackDaysAreEnglish | internal/i18n/i18n.go:67 | without a language, the abbreviations are exactly the English ones |
| I18n.FallbackTipIsEnglish | internal/i18n/i18n.go:92 | without a language, the tip is the English one |
| I18n.NewTranslator | internal/i18n/lang.go:19 | a fresh translator over a registry holding exactly the German and English records, with no language active |
| I18n.InitEnglish | internal/i18n/i18n_test.go:9-17 | `Init("en")` activates English |
| I18n.InitGerman | internal/i18n/i18n_test.go:19-24 | `Init("de")` activates German |
| I18n.InitFallback | internal/i18n/i18n_test.go:26-31 | an unknown code activates English |
| I18n.InitCaseInsensitive | internal/i18n/i18n_test.go:33-38 | `"DE"` activates German |
| I18n.InitFromDetectedLocale | internal/i18n/i18n_test.go:153-162 | an empty request uses the detected locale |
| I18n.EnglishLabels | internal/i18n/i18n_test.go:40-60 | the seven English labels |
| I18n.GermanLabels | internal/i18n/i18n_test.go:62-70 | German `feels` and `humidity` |
| I18n.EnglishConditions | internal/i18n/i18n_test.go:72-84 | English conditions 0 and 65, and `""` for 9999 |
| I18n.GermanCondition | internal/i18n/i18n_test.go:86-91 | German condition 0 |
| I18n.DayAbbrExamples | internal/i18n/i18n_test.go:93-108 | Monday and Sunday in English, Monday in German |
| I18n.CardinalExamples | internal/i18n/i18n_test.go:110-125 | points 0 and 4 in English, 4 in German, and `"?"` for 16 |
| I18n.TipExample | internal/i18n/i18n_test.go:144-151 | the English tip |
| I18n.UninitialisedExamples | internal/i18n/i18n.go:28-78 | before `Init`, every lookup takes its fallback |
| Strings.IndexSpec | internal/i18n/locale.go:29-35 | `strings.Index` is -1 exactly when the separator is absent; otherwise its first position |
| Strings.Index | internal/i18n/locale.go:29-35 | `strings.Index` for a one-character separator; `Strings.IndexSpec` states it |
| Strings.ToLower | internal/i18n/i18n.go:18 | same length; each ASCII upper-case letter becomes the lower-case letter 32 code points above it, and every other code point is left as it is |
| Strings.TrimSpace | internal/i18n/locale.go:24 | `strings.TrimSpace`; `Strings.TrimSpaceShape` and `Strings.TrimSpaceIgnoresSurrounding` state it |
| Strings.Split | internal/display/display.go:21 | `strings.Split` at a one-character separator: the separator-free pieces, `Strings.JoinSplit` and `Strings.SplitJoin` tying it to `Strings.Join` both ways |
| Strings.Join | internal/display/ascii.go:4-49 | the pieces with the separator between them, as the multi-line art strings are written |
| Strings.TrimSpaceShape | internal/i18n/locale.go:24 | the trimmed text is no longer than the input and has no white space at either end |
| Strings.TrimSpaceIgnoresSurrounding | internal/i18n/locale.go:24 | white space around the text does not change what is trimmed |
| Locale.CutAtFirstSpec | internal/i18n/locale.go:29-35 | the cut is a prefix; it is the whole text unless the separator comes after some text, and then it ends right before the first one |
| Locale.CutAtFirst | internal/i18n/locale.go:29-35 | one `if idx := strings.Index(..); idx > 0` cut; `Locale.CutAtFirstSpec` states it |
| Locale.Base | internal/i18n/locale.go:29-35 | the encoding cut, then the region cut; `Locale.BasePrefix` states it is a prefix |
| Locale.ExtractLangCode | internal/i18n/locale.go:23-40 | `extractLangCode`; `Locale.LangCodeShape`, `Locale.NoLangCode` and `Locale.SurroundingSpaceIgnored` state its properties |
| Locale.BasePrefix | internal/i18n/locale.go:29-35 | what is left after both cuts is a prefix of the trimmed locale |
| Locale.LangCodeShape | internal/i18n/locale.go:23-40 | the code is empty or two characters with no upper-case letter; when there is one, it is the trimmed locale's first two characters, lower-cased |
| Locale.NoLangCode | internal/i18n/locale.go:24-39 | no code exactly for an empty, `C` or `POSIX` locale, or when fewer than two characters are left |
| Locale.SurroundingSpaceIgnored | internal/i18n/locale.go:24 | leading and trailing white space is ignored |
| Locale.CutAtSeparator | internal/i18n/locale.go:29-35 | a separator after some text cuts everything from it |
| Locale.CutAbsent | internal/i18n/locale.go:29-35 | without the separator nothing is cut |
| Locale.LanguageRegionEncoding | internal/i18n/locale.go:23-40 | `ll_RR`, with or without `.ENC`, gives `ll` for a lower-case `ll` |
| Locale.GermanUtf8Locale | internal/i18n/i18n_test.go:164-183 | `de_DE.UTF-8` gives `de` |
| Locale.EnglishUtf8Locale | internal/i18n/i18n_test.go:164-183 | `en_US.UTF-8` gives `en` |
| Locale.ChineseLocale | internal/i18n/i18n_test.go:164-183 | `zh_CN` gives `zh` |
| Locale.BareLanguage | internal/i18n/i18n_test.go:164-183 | `fr` gives `fr` |
| Locale.NeutralLocales | internal/i18n/i18n_test.go:164-183 | `C`, `POSIX` and `""` give no code |
| Locale.LeadingSeparatorKept | internal/i18n/locale.go:29-35 | a separator at index 0 does not cut: `_DE` gives `_d` |

## Left out

- `units.FormatTemp` and the `%d` and `%.0f` formatting in `RenderWeatherCard`: these are float rounding. The card takes the formatted texts as opaque strings in `CurrentView` and `DayView`.
- `i18n.FormatDay`: it relies on `time.Parse` and the Go calendar. The day name is an opaque string, and `Weekday` is an integer 0..6.
- `detectLocale` and `detectMacOSLocale`: they read environment variables and run `defaults`. The detected code is the parameter `detected` of `Init`.
- UTF-8 decoding: strings are modelled as code-point sequences.
- The `unicode` tables: Mn, Me and Han lookups are the uninterpreted parameter `u`.
- Go's `strings.ToLower`: it is modelled for ASCII letters only. Go also lowers non-ASCII letters (U+0130 to `i`, U+212A to `k`), and a `--lang` request or `$LANG` can be any text. No non-ASCII letter lowers to `e`, `n` or `d`, so `I18n.Select` agrees with Go for the two records modelled. With the Italian record registered, Go would also accept U+0130 `T` as `it`.
- `extractLangCode`'s `locale[:2]`: Go slices bytes; the model slices code points. The two agree on ASCII locales.
- The Spanish, French and Italian records (lang_es.go, lang_fr.go, lang_it.go): they are pure data, and only the English and German records are transcribed. The Chinese record is not part of this model. `TestAllLanguagesRegistered` therefore holds only for `en` and `de`, and `TestAllLanguagesHaveConditions` is `Languages.ConditionKeys` for those two.
- The registry holds `*Lang` pointers: the model stores `Lang` values, and nothing writes through those pointers.
- Fetching, geocoding, location resolution and `main.go`: these are HTTP, cgo and flag parsing, and outside the renderer.
- Card.PadArtPart: requires the art part to be balanced. With an escape left open, the Go padding loop would never end; the art is balanced by `Ascii.ArtShape`.
- Units.WindCardinal: works on unbounded integers, not Go's 64-bit `int`. Within 11 of the largest `int64`, Go's `degrees + 11` wraps to a negative number, the remainder is -4 or -3 and the index panics; the model gives a compass point there. Directions come from the weather service as 0..360.
- Card.RenderWeatherCard: returns `None` where the Go program panics in `WindCardinal` on a negative index, as `Units.WindCardinalPanics` states it over unbounded integers. The 64-bit wrap-around panic of `Units.WindCardinal` is not modelled.
- Card.EmitRows: clamps a negative `days` to 0 before looping. The Go loop runs zero times in that case, so the lines written are the same.
- Card.CardFramed: requires the caller's texts to leave no escape open. A location or label with an unterminated escape that still fits would swallow the padding.
