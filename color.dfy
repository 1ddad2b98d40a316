/**
 * The colour wrappers of internal/display/color.go. The package-level
 * `ColorEnabled` flag becomes the parameter `enabled`.
 */
module Color {
  import opened Measure

  const Reset := "\U{1B}[0m"
  const BoldCode := "\U{1B}[1m"
  const RedCode := "\U{1B}[31m"
  const GreenCode := "\U{1B}[32m"
  const YellowCode := "\U{1B}[33m"
  const BlueCode := "\U{1B}[34m"
  const CyanCode := "\U{1B}[36m"
  const WhiteCode := "\U{1B}[37m"
  const DimCode := "\U{1B}[2m"

  /** The shape of a Select Graphic Rendition sequence (ECMA-48 section 8.3.117): ESC, '[', digits, 'm'. */
  predicate IsSgr(c: string)
  {
    && |c| >= 3 && c[0] == Esc && c[1] == '[' && c[|c| - 1] == 'm'
    && forall i | 2 <= i < |c| - 1 :: '0' <= c[i] <= '9'
  }

  lemma SgrIsEscapeSequence(c: string)
    requires IsSgr(c)
    ensures IsEscapeSequence(c)
  {
  }

  lemma CodesAreSgr()
    ensures IsSgr(Reset) && IsSgr(BoldCode) && IsSgr(DimCode)
    ensures IsSgr(RedCode) && IsSgr(GreenCode) && IsSgr(YellowCode)
    ensures IsSgr(BlueCode) && IsSgr(CyanCode) && IsSgr(WhiteCode)
  {
  }

  /** `Bold` (color.go:21-26). */
  function Bold(enabled: bool, s: string): (r: string)
    ensures !enabled ==> r == s
    ensures enabled ==> r == BoldCode + s + Reset
  {
    if !enabled then s else BoldCode + s + Reset
  }

  /** `Colored` (color.go:29-34). */
  function Colored(enabled: bool, s: string, color: string): (r: string)
    ensures !enabled ==> r == s
    ensures enabled ==> r == color + s + Reset
  {
    if !enabled then s else color + s + Reset
  }

  function Yellow(enabled: bool, s: string): (r: string)
    ensures !enabled ==> r == s
    ensures enabled ==> r == YellowCode + s + Reset
  {
    Colored(enabled, s, YellowCode)
  }

  function Blue(enabled: bool, s: string): (r: string)
    ensures !enabled ==> r == s
    ensures enabled ==> r == BlueCode + s + Reset
  {
    Colored(enabled, s, BlueCode)
  }

  function Cyan(enabled: bool, s: string): (r: string)
    ensures !enabled ==> r == s
    ensures enabled ==> r == CyanCode + s + Reset
  {
    Colored(enabled, s, CyanCode)
  }

  function Red(enabled: bool, s: string): (r: string)
    ensures !enabled ==> r == s
    ensures enabled ==> r == RedCode + s + Reset
  {
    Colored(enabled, s, RedCode)
  }

  function Green(enabled: bool, s: string): (r: string)
    ensures !enabled ==> r == s
    ensures enabled ==> r == GreenCode + s + Reset
  {
    Colored(enabled, s, GreenCode)
  }

  function Dim(enabled: bool, s: string): (r: string)
    ensures !enabled ==> r == s
    ensures enabled ==> r == DimCode + s + Reset
  {
    Colored(enabled, s, DimCode)
  }

  /** Colouring with any SGR code never changes the visual width, whatever `s` holds. */
  lemma ColoredKeepsWidth(u: UnicodeTables, enabled: bool, s: string, color: string)
    requires IsSgr(color)
    ensures VisibleWidth(u, Colored(enabled, s, color)) == VisibleWidth(u, s)
  {
    if enabled {
      CodesAreSgr();
      WrappedWidth(u, color, s, Reset);
    }
  }

  /** With colour on, the closing reset leaves the scanner outside any escape, whatever `s` held. */
  lemma ColoredBalanced(enabled: bool, s: string, color: string)
    requires enabled || Balanced(s)
    ensures Balanced(Colored(enabled, s, color))
  {
    if enabled {
      var u := UnicodeTables(_ => false, _ => false, _ => false);
      CodesAreSgr();
      EscapeSequenceInvisible(u, Reset, EndState(color + s, false));
      WidthConcat(u, color + s, Reset, false);
    }
  }

  /** `Bold` and the six wrappers keep the visual width and, given balanced input, balance. */
  lemma WrappersKeepWidth(u: UnicodeTables, enabled: bool, s: string)
    ensures VisibleWidth(u, Bold(enabled, s)) == VisibleWidth(u, s)
    ensures VisibleWidth(u, Yellow(enabled, s)) == VisibleWidth(u, s)
    ensures VisibleWidth(u, Blue(enabled, s)) == VisibleWidth(u, s)
    ensures VisibleWidth(u, Cyan(enabled, s)) == VisibleWidth(u, s)
    ensures VisibleWidth(u, Red(enabled, s)) == VisibleWidth(u, s)
    ensures VisibleWidth(u, Green(enabled, s)) == VisibleWidth(u, s)
    ensures VisibleWidth(u, Dim(enabled, s)) == VisibleWidth(u, s)
  {
    CodesAreSgr();
    ColoredKeepsWidth(u, enabled, s, BoldCode);
    assert Bold(enabled, s) == Colored(enabled, s, BoldCode);
    ColoredKeepsWidth(u, enabled, s, YellowCode);
    ColoredKeepsWidth(u, enabled, s, BlueCode);
    ColoredKeepsWidth(u, enabled, s, CyanCode);
    ColoredKeepsWidth(u, enabled, s, RedCode);
    ColoredKeepsWidth(u, enabled, s, GreenCode);
    ColoredKeepsWidth(u, enabled, s, DimCode);
  }

  /** With colour off nothing is added, so ESC-free text stays ESC-free. */
  lemma NoColorNoEscape(s: string, color: string)
    requires Esc !in s
    ensures Esc !in Colored(false, s, color) && Esc !in Bold(false, s)
  {
  }

  /** The examples of internal/display/display_test.go:101-118. */
  lemma ExampleBold(u: UnicodeTables)
    requires Sane(u)
    ensures VisibleWidth(u, "\U{1B}[1mhello\U{1B}[0m") == 5
  {
    CodesAreSgr();
    PlainTextWidth(u, "hello");
    ColoredKeepsWidth(u, true, "hello", BoldCode);
    assert "\U{1B}[1mhello\U{1B}[0m" == Colored(true, "hello", BoldCode);
  }

  lemma ExampleRed(u: UnicodeTables)
    requires Sane(u)
    ensures VisibleWidth(u, "\U{1B}[31mred\U{1B}[0m text") == 8
  {
    var red := Colored(true, "red", RedCode);
    assert "\U{1B}[31mred\U{1B}[0m text" == red + " text";
    CodesAreSgr();
    PlainTextWidth(u, "red");
    PlainTextWidth(u, " text");
    ColoredKeepsWidth(u, true, "red", RedCode);
    ColoredBalanced(true, "red", RedCode);
    VisibleWidthConcat(u, red, " text");
  }

  lemma VisibleWidthExamples(u: UnicodeTables)
    requires Sane(u)
    ensures VisibleWidth(u, "hello") == 5
    ensures VisibleWidth(u, "\U{1B}[1mhello\U{1B}[0m") == 5
    ensures VisibleWidth(u, "\U{1B}[31mred\U{1B}[0m text") == 8
    ensures VisibleWidth(u, "") == 0
  {
    PlainTextWidth(u, "hello");
    ExampleBold(u);
    ExampleRed(u);
  }
}
