/**
 * The card composer of internal/display/display.go: the frame lines
 * (`padLine` and the four rules), the fixed-column `forecastRow`, and the
 * art/info merge and row cap of `RenderWeatherCard`.
 */
module Card {
  import opened Options
  import opened Strings
  import opened Measure
  import opened Color
  import opened Conditions
  import opened Ascii
  import opened Units

  /** `cardWidth` (display.go:13): the columns between the two frame characters. */
  const CardWidth: nat := 52
  /** The columns the art part of a merged line is padded to (display.go:61). */
  const ArtWidth: nat := 16
  /** The forecast columns (display.go:74): day 10, high 6, low 6. */
  const DayColumn: nat := 10
  const TempColumn: nat := 6

  const Vertical: char := '\U{2502}'
  const Horizontal: char := '\U{2500}'

  function Clamp0(n: int): nat { if n < 0 then 0 else n }

  // ------------------------------------------------------------ frame lines

  /** What lies between the opening frame character and the closing one and its line feed. */
  function Interior(line: string): string
    requires |line| >= 3
  {
    line[1..|line| - 2]
  }

  /** A card line whose interior spans exactly `cardWidth` columns and closes every escape it opens. */
  predicate Framed(u: UnicodeTables, line: string)
  {
    && |line| >= 3 && line[|line| - 1] == '\n'
    && IsPlain(line[0]) && IsPlain(line[|line| - 2])
    && VisibleWidth(u, Interior(line)) == CardWidth
    && Balanced(Interior(line))
  }

  /** A corner, `cardWidth` copies of a filler, a corner and a line feed. */
  function Rule(left: char, fill: char, right: char): (line: string)
    ensures |line| == CardWidth + 3
    ensures line[0] == left && line[CardWidth + 1] == right && line[CardWidth + 2] == '\n'
    ensures Interior(line) == Repeat(fill, CardWidth)
  {
    [left] + Repeat(fill, CardWidth) + [right, '\n']
  }

  /** `topBorder`, `bottomBorder`, `divider` and `emptyLine` (display.go:140-154). */
  function TopBorder(): string { Rule('\U{250C}', Horizontal, '\U{2510}') }
  function BottomBorder(): string { Rule('\U{2514}', Horizontal, '\U{2518}') }
  function Divider(): string { Rule('\U{251C}', Horizontal, '\U{2524}') }
  function EmptyLine(): string { Rule(Vertical, ' ', Vertical) }

  lemma RulesFramed(u: UnicodeTables)
    requires Sane(u)
    ensures Framed(u, TopBorder()) && Framed(u, BottomBorder())
    ensures Framed(u, Divider()) && Framed(u, EmptyLine())
  {
    PlainTextWidth(u, Repeat(Horizontal, CardWidth));
    PlainTextWidth(u, Repeat(' ', CardWidth));
  }

  /** `inner` is `kept` followed by nothing but spaces. */
  predicate KeptThenPadding(inner: string, kept: string)
  {
    && |kept| <= |inner| && inner[..|kept|] == kept
    && forall i | |kept| <= i < |inner| :: inner[i] == ' '
  }

  /** What `padLine` keeps of its content: all of it when it fits, otherwise what `truncateToWidth` keeps. */
  function Kept(u: UnicodeTables, content: string): string
  {
    if VisibleWidth(u, content) > CardWidth then Truncated(u, content, CardWidth) else content
  }

  /** `padLine` (display.go:156-167). */
  function PadLine(u: UnicodeTables, content: string): string
  {
    var kept := Kept(u, content);
    [Vertical] + kept + Spaces(Clamp0(CardWidth - VisibleWidth(u, kept))) + [Vertical, '\n']
  }

  /** A padded line keeps the content when it fits, else its longest fitting prefix, then pads with spaces. */
  lemma PadLineShape(u: UnicodeTables, content: string)
    ensures var line := PadLine(u, content);
      |line| >= 3 && line[0] == Vertical && line[|line| - 2] == Vertical && line[|line| - 1] == '\n'
    ensures VisibleWidth(u, content) <= CardWidth ==> KeptThenPadding(Interior(PadLine(u, content)), content)
    ensures VisibleWidth(u, content) > CardWidth ==>
      KeptThenPadding(Interior(PadLine(u, content)), Truncated(u, content, CardWidth))
    ensures |Interior(PadLine(u, content))|
      == |Kept(u, content)| + Clamp0(CardWidth - VisibleWidth(u, Kept(u, content)))
  {
    var kept := Kept(u, content);
    var padding := Spaces(Clamp0(CardWidth - VisibleWidth(u, kept)));
    var line := PadLine(u, content);
    assert Interior(line) == kept + padding;
  }

  /**
   * A padded line spans exactly `cardWidth` columns when its content is
   * balanced or had to be cut; an unterminated escape that fits would
   * swallow the padding.
   */
  lemma PadLineFramed(u: UnicodeTables, content: string)
    requires Sane(u)
    requires Balanced(content) || VisibleWidth(u, content) > CardWidth
    ensures Framed(u, PadLine(u, content))
  {
    var kept := Kept(u, content);
    if VisibleWidth(u, content) > CardWidth {
      TruncatedIsLongestFit(u, content, CardWidth);
      TruncatedCutIsBalanced(u, content, CardWidth);
    }
    var n := Clamp0(CardWidth - VisibleWidth(u, kept));
    SpacesWidth(u, n);
    BalancedAppend(u, kept, Spaces(n));
    var line := PadLine(u, content);
    assert Interior(line) == kept + Spaces(n);
  }

  /** Padding adds no ESC: what is kept is a prefix of the content. */
  lemma PadLineEscapeFree(u: UnicodeTables, content: string)
    requires Esc !in content
    ensures Esc !in PadLine(u, content)
  {
    var kept := Kept(u, content);
    if VisibleWidth(u, content) > CardWidth {
      TruncatedIsLongestFit(u, content, CardWidth);
      assert kept == content[..|kept|];
      assert forall i | 0 <= i < |kept| :: kept[i] == content[i];
    }
    assert Esc !in kept;
  }

  // ------------------------------------------------------------ forecastRow

  /** The day column: the day name padded on the right to `DayColumn` columns. */
  function DayCell(u: UnicodeTables, day: string): string
  {
    day + Spaces(Clamp0(DayColumn - VisibleWidth(u, day)))
  }

  /** A temperature column: the text padded on the left to `TempColumn` columns. */
  function TempCell(u: UnicodeTables, t: string): string
  {
    Spaces(Clamp0(TempColumn - VisibleWidth(u, t))) + t
  }

  /** The condition column: two spaces, the emoji and, when there is one, a space and the text. */
  function CondCell(emoji: string, desc: string): string
  {
    "  " + emoji + (if desc != "" then " " + desc else "")
  }

  /** The row `forecastRow` builds (display.go:105-138). */
  function Row(u: UnicodeTables, day: string, hi: string, lo: string, emoji: string, desc: string): string
  {
    "  " + DayCell(u, day) + TempCell(u, hi) + TempCell(u, lo) + CondCell(emoji, desc)
  }

  /** One of `forecastRow`'s countdown loops: a space for each step while `pad > 0`. */
  method AppendPadding(b: string, pad: int) returns (r: string)
    ensures r == b + Spaces(Clamp0(pad))
  {
    r := b;
    var p := pad;
    while p > 0
      invariant p <= pad || p <= 0
      invariant r == b + Spaces(Clamp0(pad) - Clamp0(p))
      decreases p
    {
      SpacesSplit(Clamp0(pad) - Clamp0(p));
      r := r + " ";
      p := p - 1;
    }
  }

  /** The high or low column of `forecastRow` (display.go:115-127): left padding, then the text. */
  method AppendTempCell(u: UnicodeTables, b: string, t: string) returns (r: string)
    ensures r == b + TempCell(u, t)
  {
    var w := VisLen(u, t);
    r := AppendPadding(b, TempColumn - w);
    r := r + t;
  }

  /** `forecastRow` (display.go:105-138). */
  method ForecastRow(u: UnicodeTables, day: string, hi: string, lo: string, emoji: string, desc: string)
    returns (row: string)
    ensures row == Row(u, day, hi, lo, emoji, desc)
  {
    row := "  " + day;
    var w := VisLen(u, day);
    row := AppendPadding(row, DayColumn - w);
    assert row == "  " + DayCell(u, day);
    row := AppendTempCell(u, row, hi);
    row := AppendTempCell(u, row, lo);
    ghost var done := row;
    row := row + "  " + emoji;
    if desc != "" {
      row := row + " " + desc;
    }
    assert row == done + CondCell(emoji, desc);
  }

  /** Padding never cuts: a column is as wide as its text when that is wider than the column. */
  lemma CellWidths(u: UnicodeTables, day: string, t: string)
    requires Sane(u) && Balanced(day) && Balanced(t)
    ensures VisibleWidth(u, DayCell(u, day)) == Max(DayColumn, VisibleWidth(u, day)) && Balanced(DayCell(u, day))
    ensures VisibleWidth(u, TempCell(u, t)) == Max(TempColumn, VisibleWidth(u, t)) && Balanced(TempCell(u, t))
  {
    var a := Spaces(Clamp0(DayColumn - VisibleWidth(u, day)));
    var b := Spaces(Clamp0(TempColumn - VisibleWidth(u, t)));
    SpacesWidth(u, |a|);
    SpacesWidth(u, |b|);
    BalancedAppend(u, day, a);
    BalancedAppend(u, b, t);
  }

  lemma CondCellWidth(u: UnicodeTables, emoji: string, desc: string)
    requires Sane(u) && Balanced(emoji) && Balanced(desc)
    ensures VisibleWidth(u, CondCell(emoji, desc))
      == 2 + VisibleWidth(u, emoji) + (if desc != "" then 1 + VisibleWidth(u, desc) else 0)
    ensures Balanced(CondCell(emoji, desc))
  {
    var tail := if desc != "" then " " + desc else "";
    PlainTextWidth(u, "  ");
    PlainTextWidth(u, " ");
    PlainTextWidth(u, "");
    BalancedAppend(u, " ", desc);
    BalancedAppend(u, "  ", emoji);
    BalancedAppend(u, "  " + emoji, tail);
  }

  /**
   * The columns of a row: the day padded on the right to at least 10, each
   * temperature padded on the left to at least 6 and never cut, then two
   * spaces, the emoji and, only when there is one, a space and the text.
   */
  lemma RowWidth(u: UnicodeTables, day: string, hi: string, lo: string, emoji: string, desc: string)
    requires Sane(u)
    requires Balanced(day) && Balanced(hi) && Balanced(lo) && Balanced(emoji) && Balanced(desc)
    ensures VisibleWidth(u, Row(u, day, hi, lo, emoji, desc))
      == 2 + Max(DayColumn, VisibleWidth(u, day))
         + Max(TempColumn, VisibleWidth(u, hi)) + Max(TempColumn, VisibleWidth(u, lo))
         + 2 + VisibleWidth(u, emoji) + (if desc != "" then 1 + VisibleWidth(u, desc) else 0)
    ensures Balanced(Row(u, day, hi, lo, emoji, desc))
  {
    CellWidths(u, day, hi);
    CellWidths(u, day, lo);
    CondCellWidth(u, emoji, desc);
    PlainTextWidth(u, "  ");
    var p1 := "  " + DayCell(u, day);
    BalancedAppend(u, "  ", DayCell(u, day));
    var p2 := p1 + TempCell(u, hi);
    BalancedAppend(u, p1, TempCell(u, hi));
    var p3 := p2 + TempCell(u, lo);
    BalancedAppend(u, p2, TempCell(u, lo));
    BalancedAppend(u, p3, CondCell(emoji, desc));
  }

  // ------------------------------------------------------------ RenderWeatherCard

  /**
   * The current conditions as the card shows them. The temperatures are
   * the text `units.FormatTemp` produced, the humidity the `%d` text and the
   * wind speed the `%.0f` text; float formatting is not part of this model.
   */
  datatype CurrentView = CurrentView(
    weatherCode: int,
    temperature: string,
    apparentTemperature: string,
    humidity: string,
    windSpeed: string,
    windDirection: int)

  /** One forecast day: the `i18n.FormatDay` text, the two formatted temperatures, the WMO code. */
  datatype DayView = DayView(dayName: string, tempMax: string, tempMin: string, weatherCode: int)

  /** The seven labels `i18n.Label` supplies to the card. */
  datatype Labels = Labels(day: string, hi: string, lo: string, cond: string,
                           humidity: string, wind: string, feels: string)

  /** The header (display.go:27): location in bold, then the condition's emoji. */
  function Header(color: bool, loc: string, cond: WeatherCondition): string
  {
    "  " + Bold(color, loc) + "  " + cond.emoji
  }

  /** The four info lines shown beside the art (display.go:33-43). */
  function InfoLines(color: bool, cur: CurrentView, imperial: bool, labels: Labels,
                     cond: WeatherCondition, cardinal: string): (info: seq<string>)
    ensures |info| == 4
  {
    [ cond.emoji + " " + Bold(color, cond.description),
      Yellow(color, cur.temperature) + " (" + labels.feels + " " + cur.apparentTemperature + ")",
      labels.humidity + " " + Cyan(color, cur.humidity + "%"),
      labels.wind + " " + Green(color, cur.windSpeed + " " + WindUnit(imperial)) + " " + cardinal ]
  }

  /** The art part after the padding loop of display.go:61-63. */
  function PadArt(u: UnicodeTables, art: string): string
  {
    art + Spaces(Clamp0(ArtWidth - VisibleWidth(u, art)))
  }

  /** Entry `i`, or `""` past the end (display.go:52-59). */
  function PartAt(parts: seq<string>, i: int): string
  {
    if 0 <= i < |parts| then parts[i] else ""
  }

  function MergedLine(u: UnicodeTables, art: string, info: string): string
  {
    "  " + PadArt(u, art) + info
  }

  /** The merge of display.go:46-66: as many lines as the longer block. */
  function Merged(u: UnicodeTables, artLines: seq<string>, infoLines: seq<string>): (merged: seq<string>)
    ensures |merged| == Max(|artLines|, |infoLines|)
    ensures forall i | 0 <= i < |merged| :: merged[i] == MergedLine(u, PartAt(artLines, i), PartAt(infoLines, i))
  {
    seq(Max(|artLines|, |infoLines|), i => MergedLine(u, PartAt(artLines, i), PartAt(infoLines, i)))
  }

  /** The number of forecast rows (display.go:78-81): `days`, capped by the data, none when not positive. */
  function RowLimit(days: int, available: nat): (limit: nat)
    ensures limit <= available
    ensures days <= 0 ==> limit == 0
    ensures 0 <= days <= available ==> limit == days
    ensures days >= available ==> limit == available
  {
    if days > available then available else Clamp0(days)
  }

  /** A forecast row for one day (display.go:84-96); descriptions stay English. */
  function DayRow(u: UnicodeTables, d: DayView): string
  {
    var fc := GetCondition(d.weatherCode);
    Row(u, d.dayName, d.tempMax, d.tempMin, fc.emoji, fc.description)
  }

  /** The column titles (display.go:75), dimmed, with no description. */
  function TableHeader(u: UnicodeTables, color: bool, labels: Labels): string
  {
    Row(u, Dim(color, labels.day), Dim(color, labels.hi), Dim(color, labels.lo), Dim(color, labels.cond), "")
  }

  function PadAll(u: UnicodeTables, contents: seq<string>): (lines: seq<string>)
    ensures |lines| == |contents|
    ensures forall i | 0 <= i < |lines| :: lines[i] == PadLine(u, contents[i])
  {
    seq(|contents|, i requires 0 <= i < |contents| => PadLine(u, contents[i]))
  }

  function DayRows(u: UnicodeTables, daily: seq<DayView>, limit: nat): (rows: seq<string>)
    requires limit <= |daily|
    ensures |rows| == limit
    ensures forall i | 0 <= i < limit :: rows[i] == DayRow(u, daily[i])
  {
    seq(limit, i requires 0 <= i < limit => DayRow(u, daily[i]))
  }

  /**
   * The lines of the card, in order. `None` when `units.WindCardinal`
   * would index outside its table, where the Go program panics.
   */
  function CardLines(u: UnicodeTables, color: bool, loc: string, cur: CurrentView, daily: seq<DayView>,
                     imperial: bool, days: int, labels: Labels): Option<seq<string>>
  {
    var cond := GetCondition(cur.weatherCode);
    var cardinal := WindCardinal(cur.windDirection);
    if cardinal.None? then None
    else
      var artLines := Split(AsciiArt(cond.category), '\n');
      var info := InfoLines(color, cur, imperial, labels, cond, cardinal.value);
      Some(Assemble(u, Header(color, loc, cond), Merged(u, artLines, info), TableHeader(u, color, labels),
                    DayRows(u, daily, RowLimit(days, |daily|))))
  }

  /** The card's layout: border, header, blank, merged block, blank, divider, column titles, rows, border. */
  function Assemble(u: UnicodeTables, header: string, merged: seq<string>, tableHeader: string,
                    rows: seq<string>): seq<string>
  {
    [TopBorder(), PadLine(u, header), EmptyLine()]
    + PadAll(u, merged)
    + [EmptyLine(), Divider(), PadLine(u, tableHeader)]
    + PadAll(u, rows)
    + [BottomBorder()]
  }

  /** The art padding loop of display.go:61-63, which asks `visLen` before each step. */
  method PadArtPart(u: UnicodeTables, art: string) returns (artPart: string)
    requires Sane(u) && Balanced(art)
    ensures artPart == PadArt(u, art)
  {
    artPart := art;
    var w := VisLen(u, artPart);
    while w < ArtWidth
      invariant VisibleWidth(u, art) <= w <= Max(ArtWidth, VisibleWidth(u, art))
      invariant artPart == art + Spaces(w - VisibleWidth(u, art))
      invariant w == VisibleWidth(u, artPart) && Balanced(artPart)
      decreases ArtWidth - w
    {
      SpacesWidth(u, 1);
      BalancedAppend(u, artPart, " ");
      SpacesSplit(w - VisibleWidth(u, art));
      artPart := artPart + " ";
      w := VisLen(u, artPart);
    }
  }

  /** One pass of the merge loop (display.go:52-65): the art part, padded, then the info part. */
  method MergeLine(u: UnicodeTables, artLines: seq<string>, infoLines: seq<string>, i: int) returns (line: string)
    requires Sane(u)
    requires forall i | 0 <= i < |artLines| :: Balanced(artLines[i])
    ensures line == MergedLine(u, PartAt(artLines, i), PartAt(infoLines, i))
  {
    var artPart := "";
    if 0 <= i < |artLines| {
      artPart := artLines[i];
    }
    var infoPart := "";
    if 0 <= i < |infoLines| {
      infoPart := infoLines[i];
    }
    artPart := PadArtPart(u, artPart);
    line := "  " + artPart + infoPart;
  }

  /** The merge loop of display.go:51-66. */
  method EmitMerged(u: UnicodeTables, b: string, ghost lines: seq<string>, artLines: seq<string>,
                    infoLines: seq<string>) returns (b': string, ghost lines': seq<string>)
    requires Sane(u) && b == Concat(lines)
    requires forall i | 0 <= i < |artLines| :: Balanced(artLines[i])
    ensures b' == Concat(lines') && lines' == lines + PadAll(u, Merged(u, artLines, infoLines))
  {
    var maxLines := |artLines|;
    if |infoLines| > maxLines {
      maxLines := |infoLines|;
    }
    ghost var merged := Merged(u, artLines, infoLines);
    ghost var padded := PadAll(u, merged);
    b', lines' := b, lines;
    for i := 0 to maxLines
      invariant b' == Concat(lines')
      invariant lines' == lines + padded[..i]
    {
      var line := MergeLine(u, artLines, infoLines, i);
      assert padded[i] == PadLine(u, line);
      b', lines' := Emit(b', lines', PadLine(u, line));
      PrefixSnoc(lines, padded, i);
    }
    assert padded[..maxLines] == padded;
  }

  /** One pass of the row loop (display.go:84-95): the day's row, framed. */
  method DayLine(u: UnicodeTables, d: DayView) returns (line: string)
    ensures line == PadLine(u, DayRow(u, d))
  {
    var fc := GetCondition(d.weatherCode);
    var row := ForecastRow(u, d.dayName, d.tempMax, d.tempMin, fc.emoji, fc.description);
    line := PadLine(u, row);
  }

  /** The capped row loop of display.go:78-96. */
  method EmitRows(u: UnicodeTables, b: string, ghost lines: seq<string>, daily: seq<DayView>, days: int)
    returns (b': string, ghost lines': seq<string>)
    requires b == Concat(lines)
    ensures b' == Concat(lines') && lines' == lines + PadAll(u, DayRows(u, daily, RowLimit(days, |daily|)))
  {
    var limit := days;
    if limit > |daily| {
      limit := |daily|;
    }
    if limit < 0 {
      limit := 0;
    }
    b', lines' := EmitDays(u, b, lines, daily, limit, PadAll(u, DayRows(u, daily, RowLimit(days, |daily|))));
  }

  /** The body of the row loop, run over the first `limit` days. */
  method EmitDays(u: UnicodeTables, b: string, ghost lines: seq<string>, daily: seq<DayView>, limit: nat,
                  ghost padded: seq<string>) returns (b': string, ghost lines': seq<string>)
    requires b == Concat(lines) && limit <= |daily| && |padded| == limit
    requires forall i | 0 <= i < limit :: padded[i] == PadLine(u, DayRow(u, daily[i]))
    ensures b' == Concat(lines') && lines' == lines + padded
  {
    b', lines' := b, lines;
    for i := 0 to limit
      invariant b' == Concat(lines')
      invariant lines' == lines + padded[..i]
    {
      var line := DayLine(u, daily[i]);
      b', lines' := Emit(b', lines', line);
      PrefixSnoc(lines, padded, i);
    }
    assert padded[..limit] == padded;
  }

  /** `RenderWeatherCard` (display.go:16-102): the lines of `CardLines`, written one after another. */
  method RenderWeatherCard(u: UnicodeTables, color: bool, loc: string, cur: CurrentView, daily: seq<DayView>,
                           imperial: bool, days: int, labels: Labels) returns (card: Option<string>)
    requires Sane(u)
    ensures card.None? <==> CardLines(u, color, loc, cur, daily, imperial, days, labels).None?
    ensures card.Some? ==> card.value == Concat(CardLines(u, color, loc, cur, daily, imperial, days, labels).value)
  {
    var cond := GetCondition(cur.weatherCode);
    var art := AsciiArt(cond.category);
    var artLines := Split(art, '\n');
    var cardinal := WindCardinal(cur.windDirection);
    if cardinal.None? {
      return None;
    }
    ArtShape(u, cond.category);
    var infoLines := InfoLines(color, cur, imperial, labels, cond, cardinal.value);

    var b;
    ghost var lines;
    b, lines := EmitHead(u, color, loc, cond, artLines, infoLines);
    b, lines := EmitTail(u, b, lines, color, labels, daily, days);
    card := Some(b);
  }

  /** The top border, the header, a blank line and the merged block (display.go:24-66). */
  method EmitHead(u: UnicodeTables, color: bool, loc: string, cond: WeatherCondition, artLines: seq<string>,
                  infoLines: seq<string>) returns (b: string, ghost lines: seq<string>)
    requires Sane(u)
    requires forall i | 0 <= i < |artLines| :: Balanced(artLines[i])
    ensures b == Concat(lines)
    ensures lines == [TopBorder(), PadLine(u, Header(color, loc, cond)), EmptyLine()] + PadAll(u, Merged(u, artLines, infoLines))
  {
    b := TopBorder();
    lines := [TopBorder()];
    assert [TopBorder()][..0] == [];
    b, lines := Emit(b, lines, PadLine(u, Header(color, loc, cond)));
    b, lines := Emit(b, lines, EmptyLine());
    b, lines := EmitMerged(u, b, lines, artLines, infoLines);
    HeadOrder(TopBorder(), PadLine(u, Header(color, loc, cond)), EmptyLine(), PadAll(u, Merged(u, artLines, infoLines)));
  }

  /** The lines appended one by one are the head of `Assemble`, in its order. */
  lemma HeadOrder<T>(top: T, header: T, empty: T, merged: seq<T>)
    ensures [top] + [header] + [empty] + merged == [top, header, empty] + merged
  {
  }

  /** A blank line, the divider, the column titles, the forecast rows and the bottom border (display.go:68-99). */
  method EmitTail(u: UnicodeTables, b: string, ghost lines: seq<string>, color: bool, labels: Labels,
                  daily: seq<DayView>, days: int) returns (b': string, ghost lines': seq<string>)
    requires b == Concat(lines)
    ensures b' == Concat(lines')
    ensures lines' == lines + [EmptyLine(), Divider(), PadLine(u, TableHeader(u, color, labels))]
                     + PadAll(u, DayRows(u, daily, RowLimit(days, |daily|))) + [BottomBorder()]
  {
    b', lines' := Emit(b, lines, EmptyLine());
    b', lines' := Emit(b', lines', Divider());
    var header := ForecastRow(u, Dim(color, labels.day), Dim(color, labels.hi), Dim(color, labels.lo),
                              Dim(color, labels.cond), "");
    b', lines' := Emit(b', lines', PadLine(u, header));
    b', lines' := EmitRows(u, b', lines', daily, days);
    b', lines' := Emit(b', lines', BottomBorder());
    TailOrder(lines, EmptyLine(), Divider(), PadLine(u, header), PadAll(u, DayRows(u, daily, RowLimit(days, |daily|))),
              BottomBorder());
  }

  /** The lines appended one by one are the tail of `Assemble`, in its order. */
  lemma TailOrder<T>(lines: seq<T>, empty: T, divider: T, tableHeader: T, rows: seq<T>, bottom: T)
    ensures lines + [empty] + [divider] + [tableHeader] + rows + [bottom]
         == lines + [empty, divider, tableHeader] + rows + [bottom]
  {
  }

  /** A `b.WriteString` of one line, with the lines written so far tracked beside the builder. */
  method Emit(b: string, ghost lines: seq<string>, line: string) returns (b': string, ghost lines': seq<string>)
    requires b == Concat(lines)
    ensures b' == Concat(lines') && lines' == lines + [line]
  {
    ConcatAppend(lines, line);
    b' := b + line;
    lines' := lines + [line];
  }

  // ------------------------------------------------------------ properties of the whole card

  /**
   * The card's layout: it exists exactly when the wind direction has a
   * compass point; then it has twelve fixed lines around one line per
   * forecast day, `days` of them capped by the data.
   */
  lemma CardShape(u: UnicodeTables, color: bool, loc: string, cur: CurrentView, daily: seq<DayView>,
                  imperial: bool, days: int, labels: Labels)
    ensures CardLines(u, color, loc, cur, daily, imperial, days, labels).Some?
        <==> WindCardinal(cur.windDirection).Some?
    ensures CardLines(u, color, loc, cur, daily, imperial, days, labels).Some? ==>
      var lines := CardLines(u, color, loc, cur, daily, imperial, days, labels).value;
      var n := RowLimit(days, |daily|);
      && |lines| == 12 + n
      && lines[0] == TopBorder() && lines[2] == EmptyLine()
      && lines[1] == PadLine(u, Header(color, loc, GetCondition(cur.weatherCode)))
      && lines[8] == EmptyLine() && lines[9] == Divider()
      && lines[10] == PadLine(u, TableHeader(u, color, labels))
      && (forall i | 0 <= i < n :: lines[11 + i] == PadLine(u, DayRow(u, daily[i])))
      && lines[11 + n] == BottomBorder()
  {
    var cond := GetCondition(cur.weatherCode);
    var cardinal := WindCardinal(cur.windDirection);
    if cardinal.Some? {
      var artLines := Split(AsciiArt(cond.category), '\n');
      var info := InfoLines(color, cur, imperial, labels, cond, cardinal.value);
      AsciiArtLines(cond.category);
      var merged := Merged(u, artLines, info);
      assert |merged| == 5;
      var rows := DayRows(u, daily, RowLimit(days, |daily|));
      AssembleShape(u, Header(color, loc, cond), merged, TableHeader(u, color, labels), rows);
    }
  }

  lemma AsciiArtLines(category: string)
    ensures Split(AsciiArt(category), '\n') == ArtLinesOf(category)
    ensures |Split(AsciiArt(category), '\n')| == 5
  {
  }

  lemma AssembleShape(u: UnicodeTables, header: string, merged: seq<string>, tableHeader: string, rows: seq<string>)
    requires |merged| == 5
    ensures var lines := Assemble(u, header, merged, tableHeader, rows);
      && |lines| == 12 + |rows|
      && lines[0] == TopBorder() && lines[1] == PadLine(u, header) && lines[2] == EmptyLine()
      && (forall i | 0 <= i < 5 :: lines[3 + i] == PadLine(u, merged[i]))
      && lines[8] == EmptyLine() && lines[9] == Divider() && lines[10] == PadLine(u, tableHeader)
      && (forall i | 0 <= i < |rows| :: lines[11 + i] == PadLine(u, rows[i]))
      && lines[11 + |rows|] == BottomBorder()
  {
    LayoutShape(TopBorder(), PadLine(u, header), EmptyLine(), PadAll(u, merged), Divider(),
                PadLine(u, tableHeader), PadAll(u, rows), BottomBorder());
  }

  /** Where each line of the layout sits, whatever the lines are. */
  lemma LayoutShape<T>(top: T, header: T, empty: T, merged: seq<T>, divider: T, tableHeader: T,
                       rows: seq<T>, bottom: T)
    requires |merged| == 5
    ensures var s := [top, header, empty] + merged + [empty, divider, tableHeader] + rows + [bottom];
      && |s| == 12 + |rows|
      && s[0] == top && s[1] == header && s[2] == empty
      && (forall i | 0 <= i < 5 :: s[3 + i] == merged[i])
      && s[8] == empty && s[9] == divider && s[10] == tableHeader
      && (forall i | 0 <= i < |rows| :: s[11 + i] == rows[i])
      && s[11 + |rows|] == bottom
  {
  }

  /**
   * The five lines beside the art: each art line, which is narrower than
   * the slot, is padded to exactly `ArtWidth` columns, so every info text
   * starts in the same column; the fifth line has art only. `ArtShape`
   * shows that every category's art meets the requirements.
   */
  lemma MergedBlock(u: UnicodeTables, artLines: seq<string>, info: seq<string>)
    requires Sane(u) && |artLines| == 5 && |info| == 4
    requires forall i | 0 <= i < 5 :: Balanced(artLines[i]) && VisibleWidth(u, artLines[i]) <= ArtWidth
    ensures var merged := Merged(u, artLines, info);
      && |merged| == 5
      && (forall i | 0 <= i < 4 :: merged[i] == "  " + PadArt(u, artLines[i]) + info[i])
      && merged[4] == "  " + PadArt(u, artLines[4])
    ensures forall i | 0 <= i < 5 ::
      VisibleWidth(u, PadArt(u, artLines[i])) == ArtWidth && Balanced(PadArt(u, artLines[i]))
  {
    var merged := Merged(u, artLines, info);
    assert merged[4] == "  " + PadArt(u, artLines[4]) + "";
    forall i | 0 <= i < 5
      ensures VisibleWidth(u, PadArt(u, artLines[i])) == ArtWidth
      ensures Balanced(PadArt(u, artLines[i]))
    {
      PadArtWidth(u, artLines[i]);
    }
  }

  /** Padding an art line narrower than the slot brings it to exactly the slot's width. */
  lemma PadArtWidth(u: UnicodeTables, art: string)
    requires Sane(u) && Balanced(art)
    ensures VisibleWidth(u, PadArt(u, art)) == Max(ArtWidth, VisibleWidth(u, art))
    ensures Balanced(PadArt(u, art))
  {
    var n := Clamp0(ArtWidth - VisibleWidth(u, art));
    SpacesWidth(u, n);
    BalancedAppend(u, art, Spaces(n));
  }

  // ---------------- every line is framed

  /** None of the texts handed to the card leaves an escape sequence open. */
  predicate BalancedTexts(loc: string, cur: CurrentView, daily: seq<DayView>, labels: Labels)
  {
    && Balanced(loc)
    && Balanced(cur.temperature) && Balanced(cur.apparentTemperature)
    && Balanced(cur.humidity) && Balanced(cur.windSpeed)
    && Balanced(labels.day) && Balanced(labels.hi) && Balanced(labels.lo) && Balanced(labels.cond)
    && Balanced(labels.humidity) && Balanced(labels.wind) && Balanced(labels.feels)
    && forall i | 0 <= i < |daily| ::
         Balanced(daily[i].dayName) && Balanced(daily[i].tempMax) && Balanced(daily[i].tempMin)
  }

  lemma DirectionsPlain()
    ensures forall i | 0 <= i < |Directions| :: IsPlainText(Directions[i])
  {
  }

  lemma ConditionBalanced(cond: WeatherCondition)
    requires Esc !in cond.emoji && Esc !in cond.description
    ensures Balanced(cond.emoji) && Balanced(cond.description)
  {
    var u := UnicodeTables(_ => false, _ => false, _ => false);
    EscapeFreeWidth(u, cond.emoji);
    EscapeFreeWidth(u, cond.description);
  }

  lemma Balanced3(a: string, b: string, c: string)
    requires Balanced(a) && Balanced(b) && Balanced(c)
    ensures Balanced(a + b + c)
  {
    BalancedConcat(a, b);
    BalancedConcat(a + b, c);
  }

  lemma InfoLinesBalanced(u: UnicodeTables, color: bool, cur: CurrentView, imperial: bool, labels: Labels,
                          cond: WeatherCondition, cardinal: string)
    requires Sane(u) && BalancedTexts("", cur, [], labels)
    requires Esc !in cond.emoji && Esc !in cond.description && IsPlainText(cardinal)
    ensures forall i | 0 <= i < 4 :: Balanced(InfoLines(color, cur, imperial, labels, cond, cardinal)[i])
  {
    var info := InfoLines(color, cur, imperial, labels, cond, cardinal);
    PlainTextWidth(u, " ");
    CodesAreSgr();
    assert Balanced(info[0]) by {
      ConditionBalanced(cond);
      assert Bold(color, cond.description) == Colored(color, cond.description, BoldCode);
      ColoredBalanced(color, cond.description, BoldCode);
      Balanced3(cond.emoji, " ", Bold(color, cond.description));
    }
    assert Balanced(info[1]) by {
      PlainTextWidth(u, " (");
      PlainTextWidth(u, ")");
      ColoredBalanced(color, cur.temperature, YellowCode);
      var head := Yellow(color, cur.temperature) + " (" + labels.feels;
      Balanced3(Yellow(color, cur.temperature), " (", labels.feels);
      Balanced3(head, " ", cur.apparentTemperature);
      BalancedConcat(head + " " + cur.apparentTemperature, ")");
    }
    assert Balanced(info[2]) by {
      PlainTextWidth(u, "%");
      BalancedConcat(cur.humidity, "%");
      ColoredBalanced(color, cur.humidity + "%", CyanCode);
      Balanced3(labels.humidity, " ", Cyan(color, cur.humidity + "%"));
    }
    assert Balanced(info[3]) by {
      PlainTextWidth(u, WindUnit(imperial));
      PlainTextWidth(u, cardinal);
      Balanced3(cur.windSpeed, " ", WindUnit(imperial));
      ColoredBalanced(color, cur.windSpeed + " " + WindUnit(imperial), GreenCode);
      var green := Green(color, cur.windSpeed + " " + WindUnit(imperial));
      Balanced3(labels.wind, " ", green);
      Balanced3(labels.wind + " " + green, " ", cardinal);
    }
  }

  lemma MergedBalanced(u: UnicodeTables, artLines: seq<string>, info: seq<string>)
    requires Sane(u)
    requires forall i | 0 <= i < |artLines| :: Balanced(artLines[i])
    requires forall i | 0 <= i < |info| :: Balanced(info[i])
    ensures forall i | 0 <= i < |Merged(u, artLines, info)| :: Balanced(Merged(u, artLines, info)[i])
  {
    PlainTextWidth(u, "  ");
    PlainTextWidth(u, "");
    forall i | 0 <= i < |Merged(u, artLines, info)|
      ensures Balanced(Merged(u, artLines, info)[i])
    {
      var art := PartAt(artLines, i);
      PadArtWidth(u, art);
      Balanced3("  ", PadArt(u, art), PartAt(info, i));
    }
  }

  lemma DayRowsBalanced(u: UnicodeTables, daily: seq<DayView>, n: nat)
    requires Sane(u) && n <= |daily|
    requires forall i | 0 <= i < |daily| ::
      Balanced(daily[i].dayName) && Balanced(daily[i].tempMax) && Balanced(daily[i].tempMin)
    ensures forall i | 0 <= i < n :: Balanced(DayRows(u, daily, n)[i])
  {
    forall i | 0 <= i < n
      ensures Balanced(DayRows(u, daily, n)[i])
    {
      var d := daily[i];
      var fc := GetCondition(d.weatherCode);
      ConditionBalanced(fc);
      RowWidth(u, d.dayName, d.tempMax, d.tempMin, fc.emoji, fc.description);
    }
  }

  lemma TableHeaderBalanced(u: UnicodeTables, color: bool, labels: Labels)
    requires Sane(u) && BalancedTexts("", CurrentView(0, "", "", "", "", 0), [], labels)
    ensures Balanced(TableHeader(u, color, labels))
  {
    ColoredBalanced(color, labels.day, DimCode);
    ColoredBalanced(color, labels.hi, DimCode);
    ColoredBalanced(color, labels.lo, DimCode);
    ColoredBalanced(color, labels.cond, DimCode);
    PlainTextWidth(u, "");
    RowWidth(u, Dim(color, labels.day), Dim(color, labels.hi), Dim(color, labels.lo), Dim(color, labels.cond), "");
  }

  lemma HeaderBalanced(u: UnicodeTables, color: bool, loc: string, cond: WeatherCondition)
    requires Sane(u) && Balanced(loc) && Esc !in cond.emoji && Esc !in cond.description
    ensures Balanced(Header(color, loc, cond))
  {
    ConditionBalanced(cond);
    CodesAreSgr();
    PlainTextWidth(u, "  ");
    assert Bold(color, loc) == Colored(color, loc, BoldCode);
    ColoredBalanced(color, loc, BoldCode);
    Balanced3("  ", Bold(color, loc), "  ");
    BalancedConcat("  " + Bold(color, loc) + "  ", cond.emoji);
  }

  /** Every line of `lines` is framed. */
  predicate AllFramed(u: UnicodeTables, lines: seq<string>)
  {
    forall i | 0 <= i < |lines| :: Framed(u, lines[i])
  }

  lemma AllFramedConcat(u: UnicodeTables, a: seq<string>, b: seq<string>)
    requires AllFramed(u, a) && AllFramed(u, b)
    ensures AllFramed(u, a + b)
  {
    forall i | 0 <= i < |a + b|
      ensures Framed(u, (a + b)[i])
    {
      if i < |a| {
        assert (a + b)[i] == a[i];
      } else {
        assert (a + b)[i] == b[i - |a|];
      }
    }
  }

  lemma PadAllFramed(u: UnicodeTables, contents: seq<string>)
    requires Sane(u) && forall i | 0 <= i < |contents| :: Balanced(contents[i])
    ensures AllFramed(u, PadAll(u, contents))
  {
    forall i | 0 <= i < |contents|
      ensures Framed(u, PadAll(u, contents)[i])
    {
      PadLineFramed(u, contents[i]);
    }
  }

  lemma AllFramed3(u: UnicodeTables, a: string, b: string, c: string)
    requires Framed(u, a) && Framed(u, b) && Framed(u, c)
    ensures AllFramed(u, [a, b, c])
  {
  }

  lemma AssembleFramed(u: UnicodeTables, header: string, merged: seq<string>, tableHeader: string, rows: seq<string>)
    requires Sane(u) && Balanced(header) && Balanced(tableHeader)
    requires forall i | 0 <= i < |merged| :: Balanced(merged[i])
    requires forall i | 0 <= i < |rows| :: Balanced(rows[i])
    ensures AllFramed(u, Assemble(u, header, merged, tableHeader, rows))
  {
    var top := [TopBorder(), PadLine(u, header), EmptyLine()];
    var middle := [EmptyLine(), Divider(), PadLine(u, tableHeader)];
    var bottom := [BottomBorder()];
    RulesFramed(u);
    assert AllFramed(u, top) by {
      PadLineFramed(u, header);
      AllFramed3(u, TopBorder(), PadLine(u, header), EmptyLine());
    }
    assert AllFramed(u, middle) by {
      PadLineFramed(u, tableHeader);
      AllFramed3(u, EmptyLine(), Divider(), PadLine(u, tableHeader));
    }
    assert AllFramed(u, bottom);
    PadAllFramed(u, merged);
    PadAllFramed(u, rows);
    AllFramedConcat(u, top, PadAll(u, merged));
    AllFramedConcat(u, top + PadAll(u, merged), middle);
    AllFramedConcat(u, top + PadAll(u, merged) + middle, PadAll(u, rows));
    AllFramedConcat(u, top + PadAll(u, merged) + middle + PadAll(u, rows), bottom);
  }

  /**
   * Every line of the card is framed: it starts and ends with a frame
   * character and spans exactly `CardWidth` columns in between, provided
   * the texts handed in leave no escape sequence open.
   */
  lemma CardFramed(u: UnicodeTables, color: bool, loc: string, cur: CurrentView, daily: seq<DayView>,
                   imperial: bool, days: int, labels: Labels)
    requires Sane(u) && BalancedTexts(loc, cur, daily, labels)
    requires WindCardinal(cur.windDirection).Some?
    ensures CardLines(u, color, loc, cur, daily, imperial, days, labels).Some?
    ensures AllFramed(u, CardLines(u, color, loc, cur, daily, imperial, days, labels).value)
  {
    var cond := GetCondition(cur.weatherCode);
    var cardinal := WindCardinal(cur.windDirection).value;
    assert IsPlainText(cardinal) by {
      WindCardinalPoint(cur.windDirection);
      DirectionsPlain();
    }
    var info := InfoLines(color, cur, imperial, labels, cond, cardinal);
    InfoLinesBalanced(u, color, cur, imperial, labels, cond, cardinal);
    var artLines := Split(AsciiArt(cond.category), '\n');
    ArtShape(u, cond.category);
    MergedBalanced(u, artLines, info);
    var n := RowLimit(days, |daily|);
    DayRowsBalanced(u, daily, n);
    TableHeaderBalanced(u, color, labels);
    HeaderBalanced(u, color, loc, cond);
    AssembleFramed(u, Header(color, loc, cond), Merged(u, artLines, info), TableHeader(u, color, labels),
                   DayRows(u, daily, n));
  }

  // ---------------- no escape sequences without colour

  /** None of the texts handed to the card holds an ESC. */
  predicate EscapeFreeTexts(loc: string, cur: CurrentView, daily: seq<DayView>, labels: Labels)
  {
    && Esc !in loc
    && Esc !in cur.temperature && Esc !in cur.apparentTemperature
    && Esc !in cur.humidity && Esc !in cur.windSpeed
    && Esc !in labels.day && Esc !in labels.hi && Esc !in labels.lo && Esc !in labels.cond
    && Esc !in labels.humidity && Esc !in labels.wind && Esc !in labels.feels
    && forall i | 0 <= i < |daily| ::
         Esc !in daily[i].dayName && Esc !in daily[i].tempMax && Esc !in daily[i].tempMin
  }

  /** No line of `lines` holds an ESC. */
  predicate AllEscapeFree(lines: seq<string>)
  {
    forall i | 0 <= i < |lines| :: Esc !in lines[i]
  }

  lemma PlainHasNoEscape(s: string)
    requires IsPlainText(s)
    ensures Esc !in s
  {
  }

  lemma RowEscapeFree(u: UnicodeTables, day: string, hi: string, lo: string, emoji: string, desc: string)
    requires Esc !in day && Esc !in hi && Esc !in lo && Esc !in emoji && Esc !in desc
    ensures Esc !in Row(u, day, hi, lo, emoji, desc)
  {
  }

  lemma InfoLinesEscapeFree(cur: CurrentView, imperial: bool, labels: Labels, cond: WeatherCondition, cardinal: string)
    requires EscapeFreeTexts("", cur, [], labels)
    requires Esc !in cond.emoji && Esc !in cond.description && Esc !in cardinal
    ensures AllEscapeFree(InfoLines(false, cur, imperial, labels, cond, cardinal))
  {
  }

  lemma MergedEscapeFree(u: UnicodeTables, artLines: seq<string>, info: seq<string>)
    requires AllEscapeFree(artLines) && AllEscapeFree(info)
    ensures AllEscapeFree(Merged(u, artLines, info))
  {
    forall i | 0 <= i < |Merged(u, artLines, info)|
      ensures Esc !in Merged(u, artLines, info)[i]
    {
      assert Esc !in PartAt(artLines, i) && Esc !in PartAt(info, i);
    }
  }

  lemma AssembleEscapeFree(u: UnicodeTables, header: string, merged: seq<string>, tableHeader: string, rows: seq<string>)
    requires Esc !in header && Esc !in tableHeader && AllEscapeFree(merged) && AllEscapeFree(rows)
    ensures Esc !in Concat(Assemble(u, header, merged, tableHeader, rows))
  {
    var lines := Assemble(u, header, merged, tableHeader, rows);
    PadLineEscapeFree(u, header);
    PadLineEscapeFree(u, tableHeader);
    forall i | 0 <= i < |merged|
      ensures Esc !in PadAll(u, merged)[i]
    {
      PadLineEscapeFree(u, merged[i]);
    }
    forall i | 0 <= i < |rows|
      ensures Esc !in PadAll(u, rows)[i]
    {
      PadLineEscapeFree(u, rows[i]);
    }
    assert Esc !in TopBorder() && Esc !in BottomBorder() && Esc !in Divider() && Esc !in EmptyLine();
    assert AllEscapeFree(lines);
    ConcatNoChar(lines, Esc);
  }

  /**
   * With colour off, and texts free of ESC, the card holds no escape
   * sequence at all: every ESC in a card comes from the colour wrappers.
   */
  lemma CardEscapeFree(u: UnicodeTables, loc: string, cur: CurrentView, daily: seq<DayView>,
                       imperial: bool, days: int, labels: Labels)
    requires EscapeFreeTexts(loc, cur, daily, labels)
    requires WindCardinal(cur.windDirection).Some?
    ensures CardLines(u, false, loc, cur, daily, imperial, days, labels).Some?
    ensures Esc !in Concat(CardLines(u, false, loc, cur, daily, imperial, days, labels).value)
  {
    var cond := GetCondition(cur.weatherCode);
    var cardinal := WindCardinal(cur.windDirection).value;
    assert Esc !in cardinal by {
      WindCardinalPoint(cur.windDirection);
      DirectionsPlain();
      PlainHasNoEscape(cardinal);
    }
    var info := InfoLines(false, cur, imperial, labels, cond, cardinal);
    InfoLinesEscapeFree(cur, imperial, labels, cond, cardinal);
    var artLines := Split(AsciiArt(cond.category), '\n');
    assert AllEscapeFree(artLines) by {
      var v := UnicodeTables(_ => false, _ => false, _ => false);
      ArtShape(v, cond.category);
      forall i | 0 <= i < |artLines|
        ensures Esc !in artLines[i]
      {
        assert IsPrintableAscii(artLines[i]);
      }
    }
    MergedEscapeFree(u, artLines, info);
    var n := RowLimit(days, |daily|);
    var rows := DayRows(u, daily, n);
    forall i | 0 <= i < n
      ensures Esc !in rows[i]
    {
      var fc := GetCondition(daily[i].weatherCode);
      RowEscapeFree(u, daily[i].dayName, daily[i].tempMax, daily[i].tempMin, fc.emoji, fc.description);
    }
    RowEscapeFree(u, labels.day, labels.hi, labels.lo, labels.cond, "");
    AssembleEscapeFree(u, Header(false, loc, cond), Merged(u, artLines, info), TableHeader(u, false, labels), rows);
  }
}
