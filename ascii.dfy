/** The ASCII art of internal/display/ascii.go: five lines per weather category. */
module Ascii {
  import opened Strings
  import opened Measure

  /** Each Go raw string literal (ascii.go:7-47) is its lines joined by line feeds. */
  const ClearLines: seq<string> := ["    \\   /", "     .-.", "  - (   ) -", "     `-'", "    /   \\"]
  const CloudyLines: seq<string> := ["", "     .--.", "  .-(    ).", " (___.__)__)", "            "]
  const RainLines: seq<string> := ["     .-.", "    (   ).", "   (___(__)", "    ' ' ' '", "   ' ' ' ' "]
  const SnowLines: seq<string> := ["     .-.", "    (   ).", "   (___(__)", "    *  *  *", "   *  *  * "]
  const StormLines: seq<string> := ["     .-.", "    (   ).", "   (___(__)", "   /_/ /_/", "    /  /   "]
  const FogLines: seq<string> := ["", "  _ - _ - _", "   _ - _ -", "  _ - _ - _", "            "]
  const DefaultLines: seq<string> := ["", "     .-.", "    (   )", "     '-'", "    ?   ? "]

  /** The lines drawn for a category: a category outside the six known ones gets the default art. */
  function ArtLinesOf(category: string): (lines: seq<string>)
    ensures |lines| == 5
    ensures category !in {"clear", "cloudy", "rain", "snow", "storm", "fog"} ==> lines == DefaultLines
  {
    match category
    case "clear" => ClearLines
    case "cloudy" => CloudyLines
    case "rain" => RainLines
    case "snow" => SnowLines
    case "storm" => StormLines
    case "fog" => FogLines
    case _ => DefaultLines
  }

  /** `AsciiArt` (ascii.go:4-49). */
  function AsciiArt(category: string): (art: string)
    ensures Split(art, '\n') == ArtLinesOf(category)
  {
    ArtLinesSingle(category);
    SplitJoin(ArtLinesOf(category), '\n');
    Join(ArtLinesOf(category), '\n')
  }

  /** A piece of art that fits the 16-column art slot of a card line. */
  predicate FitsArtSlot(line: string)
  {
    IsPrintableAscii(line) && |line| < 16
  }

  lemma ArtLinesFit(category: string)
    ensures forall i | 0 <= i < |ArtLinesOf(category)| :: FitsArtSlot(ArtLinesOf(category)[i])
  {
    ClearAndCloudyFit();
    PrecipitationFits();
    FogAndDefaultFit();
  }

  lemma ClearAndCloudyFit()
    ensures forall i | 0 <= i < 5 :: FitsArtSlot(ClearLines[i]) && FitsArtSlot(CloudyLines[i])
  {
  }

  lemma PrecipitationFits()
    ensures forall i | 0 <= i < 5 :: FitsArtSlot(RainLines[i]) && FitsArtSlot(SnowLines[i]) && FitsArtSlot(StormLines[i])
  {
  }

  lemma FogAndDefaultFit()
    ensures forall i | 0 <= i < 5 :: FitsArtSlot(FogLines[i]) && FitsArtSlot(DefaultLines[i])
  {
  }

  lemma ArtLinesSingle(category: string)
    ensures forall i | 0 <= i < |ArtLinesOf(category)| :: '\n' !in ArtLinesOf(category)[i]
  {
  }

  /** Every art line is printable ASCII and narrower than the slot, so it occupies exactly its length in columns. */
  lemma ArtShape(u: UnicodeTables, category: string)
    requires Sane(u)
    ensures |Split(AsciiArt(category), '\n')| == 5
    ensures forall i | 0 <= i < 5 ::
      var line := Split(AsciiArt(category), '\n')[i];
      FitsArtSlot(line) && VisibleWidth(u, line) == |line| < 16 && Balanced(line)
  {
    ArtLinesFit(category);
    forall i | 0 <= i < 5
      ensures var line := Split(AsciiArt(category), '\n')[i];
        FitsArtSlot(line) && VisibleWidth(u, line) == |line| < 16 && Balanced(line)
    {
      assert IsPlainText(ArtLinesOf(category)[i]);
      PlainTextWidth(u, ArtLinesOf(category)[i]);
    }
  }
}
