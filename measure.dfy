/**
 * Visual measurement of terminal text (internal/display/display.go:169-276):
 * the per-code-point width classifier `runeWidth`, the two-state escape
 * scanner shared by `visLen` and `truncateToWidth`, and those two loops.
 *
 * Control sequences have the shape ESC ... letter (ECMA-48 section 5.4);
 * the scanner does not look at what lies between ESC and the letter.
 */
module Measure {
  import opened Strings

  /**
   * The Unicode property tables that Go's `unicode.Is` consults: general
   * categories Mn and Me, and the script Han. They are library data, so the
   * model leaves them uninterpreted and every result holds for any tables.
   */
  datatype UnicodeTables = UnicodeTables(
    isNonspacingMark: char -> bool,
    isEnclosingMark: char -> bool,
    isHan: char -> bool)

  /** Code points the renderer itself emits (ASCII, box drawing) are in none of the tables, as in Unicode. */
  predicate Sane(u: UnicodeTables)
  {
    && (forall c: char | c as int < 0x80 || 0x2500 <= c as int <= 0x257F :: !u.isNonspacingMark(c))
    && (forall c: char | c as int < 0x80 || 0x2500 <= c as int <= 0x257F :: !u.isEnclosingMark(c))
    && (forall c: char | c as int < 0x80 || 0x2500 <= c as int <= 0x257F :: !u.isHan(c))
  }

  const Esc: char := '\U{1B}'

  predicate IsAsciiLetter(r: char) { ('a' <= r <= 'z') || ('A' <= r <= 'Z') }

  predicate IsPrintableAscii(s: string) { forall i | 0 <= i < |s| :: ' ' <= s[i] <= '~' }

  // ---------------------------------------------------------------- runeWidth

  /** The code points `runeWidth` gives no column: selectors, marks, joiners and marks of direction, skin tones. */
  predicate ZeroWidthClass(u: UnicodeTables, r: char)
  {
    || (0xFE00 <= r as int <= 0xFE0F)
    || u.isNonspacingMark(r) || u.isEnclosingMark(r)
    || (0x200B <= r as int <= 0x200F)
    || (0x1F3FB <= r as int <= 0x1F3FF)
  }

  /** The code points `runeWidth` gives two columns, unless they are also in the zero-width class. */
  predicate WideClass(u: UnicodeTables, r: char)
  {
    || (0x1F1E6 <= r as int <= 0x1F1FF)
    || (0x1F300 <= r as int <= 0x1F9FF)
    || (0x2600 <= r as int <= 0x27BF)
    || u.isHan(r)
    || (0xFF01 <= r as int <= 0xFF60)
    || (0xFFE0 <= r as int <= 0xFFE6)
  }

  /** The terminal column width of one code point. */
  function RuneWidth(u: UnicodeTables, r: char): (w: nat)
    ensures w <= 2
    ensures w == 0 <==> ZeroWidthClass(u, r)
    ensures w == 2 <==> !ZeroWidthClass(u, r) && WideClass(u, r)
  {
    var c := r as int;
    // Variation selectors
    if 0xFE00 <= c <= 0xFE0F then 0
    // Combining marks
    else if u.isNonspacingMark(r) || u.isEnclosingMark(r) then 0
    // Zero-width joiner, non-joiner, space and the two marks of direction
    else if c == 0x200D || c == 0x200B || c == 0x200C || c == 0x200E || c == 0x200F then 0
    // Skin tone modifiers
    else if 0x1F3FB <= c <= 0x1F3FF then 0
    // Regional indicator symbols
    else if 0x1F1E6 <= c <= 0x1F1FF then 2
    // Common emoji ranges
    else if 0x1F300 <= c <= 0x1F9FF then 2
    else if 0x2600 <= c <= 0x27BF then 2
    // Miscellaneous symbols that render wide (all inside the range above)
    else if c == 0x26A1 || c == 0x26C5 || c == 0x26C8 || c == 0x2753 then 2
    // CJK ideographs and the fullwidth forms
    else if u.isHan(r) then 2
    else if 0xFF01 <= c <= 0xFF60 then 2
    else if 0xFFE0 <= c <= 0xFFE6 then 2
    else 1
  }

  lemma NarrowAscii(u: UnicodeTables, r: char)
    requires Sane(u) && (r as int < 0x80 || 0x2500 <= r as int <= 0x257F)
    ensures RuneWidth(u, r) == 1
  {
  }

  // ---------------------------------------------------------- escape scanner

  /** The scanner's next state: ESC always (re)starts an escape, a letter ends one. */
  function Step(inEscape: bool, r: char): bool
  {
    if r == Esc then true
    else if inEscape then !IsAsciiLetter(r)
    else false
  }

  /** What one code point adds to the measured width in the given state. */
  function CharWidth(u: UnicodeTables, inEscape: bool, r: char): nat
  {
    if r == Esc || inEscape then 0 else RuneWidth(u, r)
  }

  /** The width `visLen` accumulates over `s` when it starts scanning in state `inEscape`. */
  function WidthFrom(u: UnicodeTables, s: string, inEscape: bool): nat
    decreases |s|
  {
    if s == [] then 0
    else CharWidth(u, inEscape, s[0]) + WidthFrom(u, s[1..], Step(inEscape, s[0]))
  }

  /** The scanner state after `s`, started in state `inEscape`. */
  function EndState(s: string, inEscape: bool): bool
    decreases |s|
  {
    if s == [] then inEscape else EndState(s[1..], Step(inEscape, s[0]))
  }

  /** The visual width of a whole string: what `visLen` returns. */
  function VisibleWidth(u: UnicodeTables, s: string): nat
  {
    WidthFrom(u, s, false)
  }

  /** A string that leaves the scanner outside any escape sequence. */
  predicate Balanced(s: string)
  {
    !EndState(s, false)
  }

  /** Measuring is compositional once the state between the two parts is carried over. */
  lemma {:induction false} WidthConcat(u: UnicodeTables, a: string, b: string, inEscape: bool)
    ensures WidthFrom(u, a + b, inEscape) == WidthFrom(u, a, inEscape) + WidthFrom(u, b, EndState(a, inEscape))
    ensures EndState(a + b, inEscape) == EndState(b, EndState(a, inEscape))
    decreases |a|
  {
    if a == [] {
      assert a + b == b;
    } else {
      assert (a + b)[1..] == a[1..] + b;
      WidthConcat(u, a[1..], b, Step(inEscape, a[0]));
    }
  }

  lemma BalancedConcat(a: string, b: string)
    requires Balanced(a) && Balanced(b)
    ensures Balanced(a + b)
  {
    WidthConcat(UnicodeTables(_ => false, _ => false, _ => false), a, b, false);
  }

  /** For balanced text the width of a concatenation is the sum of the widths. */
  lemma VisibleWidthConcat(u: UnicodeTables, a: string, b: string)
    requires Balanced(a)
    ensures VisibleWidth(u, a + b) == VisibleWidth(u, a) + VisibleWidth(u, b)
  {
    WidthConcat(u, a, b, false);
  }

  /** Balanced pieces add their widths and stay balanced when put together. */
  lemma BalancedAppend(u: UnicodeTables, a: string, b: string)
    requires Balanced(a) && Balanced(b)
    ensures VisibleWidth(u, a + b) == VisibleWidth(u, a) + VisibleWidth(u, b)
    ensures Balanced(a + b)
  {
    WidthConcat(u, a, b, false);
  }

  /** Reference definition: the plain sum of `runeWidth` over the code points. */
  function SumOfWidths(u: UnicodeTables, s: string): nat
    decreases |s|
  {
    if s == [] then 0 else RuneWidth(u, s[0]) + SumOfWidths(u, s[1..])
  }

  /** Without ESC the scanner never leaves its normal state and `visLen` is the sum of `runeWidth`. */
  lemma {:induction false} EscapeFreeWidth(u: UnicodeTables, s: string)
    requires Esc !in s
    ensures VisibleWidth(u, s) == SumOfWidths(u, s)
    ensures Balanced(s)
    decreases |s|
  {
    if s != [] {
      assert Esc !in s[1..] by { assert forall c | c in s[1..] :: c in s; }
      EscapeFreeWidth(u, s[1..]);
    }
  }

  /** The code points the renderer itself draws with: printable ASCII and box drawing. */
  predicate IsPlain(c: char)
  {
    (' ' <= c <= '~') || ('\U{2500}' <= c <= '\U{257F}')
  }

  predicate IsPlainText(s: string) { forall i | 0 <= i < |s| :: IsPlain(s[i]) }

  /** With tables that treat ASCII and box drawing as such, plain text is as wide as it is long. */
  lemma {:induction false} PlainTextWidth(u: UnicodeTables, s: string)
    requires Sane(u) && IsPlainText(s)
    ensures VisibleWidth(u, s) == |s|
    ensures Balanced(s)
    decreases |s|
  {
    if s != [] {
      NarrowAscii(u, s[0]);
      PlainTextWidth(u, s[1..]);
    }
  }

  lemma SpacesWidth(u: UnicodeTables, n: nat)
    requires Sane(u)
    ensures VisibleWidth(u, Spaces(n)) == n && Balanced(Spaces(n))
  {
    PlainTextWidth(u, Spaces(n));
  }

  /** A control sequence: ESC, then code points other than ASCII letters, then one ASCII letter. */
  predicate IsEscapeSequence(c: string)
  {
    && |c| >= 2 && c[0] == Esc && IsAsciiLetter(c[|c| - 1])
    && forall i | 1 <= i < |c| - 1 :: !IsAsciiLetter(c[i])
  }

  lemma {:induction false} EscapeBodyInvisible(u: UnicodeTables, s: string)
    requires |s| >= 1 && IsAsciiLetter(s[|s| - 1])
    requires forall i | 0 <= i < |s| - 1 :: !IsAsciiLetter(s[i])
    ensures WidthFrom(u, s, true) == 0 && !EndState(s, true)
    decreases |s|
  {
    if |s| > 1 {
      EscapeBodyInvisible(u, s[1..]);
    }
  }

  /**
   * ESC, and everything after it up to and including the next ASCII letter,
   * count nothing and leave the scanner outside an escape, from either
   * state: an ESC met inside a sequence restarts it.
   */
  lemma EscapeSequenceInvisible(u: UnicodeTables, c: string, inEscape: bool)
    requires IsEscapeSequence(c)
    ensures WidthFrom(u, c, inEscape) == 0 && !EndState(c, inEscape)
  {
    EscapeBodyInvisible(u, c[1..]);
  }

  /** Text wrapped between two control sequences keeps its visual width and ends balanced. */
  lemma WrappedWidth(u: UnicodeTables, pre: string, s: string, post: string)
    requires IsEscapeSequence(pre) && IsEscapeSequence(post)
    ensures VisibleWidth(u, pre + s + post) == VisibleWidth(u, s)
    ensures Balanced(pre + s + post)
  {
    EscapeSequenceInvisible(u, pre, false);
    EscapeSequenceInvisible(u, post, EndState(pre + s, false));
    WidthConcat(u, pre, s, false);
    WidthConcat(u, pre + s, post, false);
  }

  /** `visLen` (display.go:212-229): one pass over the code points with the escape flag. */
  method VisLen(u: UnicodeTables, s: string) returns (width: nat)
    ensures width == VisibleWidth(u, s)
  {
    var inEscape := false;
    width := 0;
    for i := 0 to |s|
      invariant width + WidthFrom(u, s[i..], inEscape) == VisibleWidth(u, s)
    {
      var r := s[i];
      assert s[i..][1..] == s[i + 1..];
      if r == Esc {
        inEscape := true;
        continue;
      }
      if inEscape {
        if IsAsciiLetter(r) {
          inEscape := false;
        }
        continue;
      }
      width := width + RuneWidth(u, r);
    }
  }

  // ------------------------------------------------------------- truncation

  /**
   * Whether `truncateToWidth` stops in front of code point `r`: outside an
   * escape, a visible code point that would take the width past the budget.
   */
  predicate Stops(u: UnicodeTables, r: char, inEscape: bool, width: int, maxWidth: int)
  {
    r != Esc && !inEscape && RuneWidth(u, r) > 0 && width + RuneWidth(u, r) > maxWidth
  }

  /**
   * What `truncateToWidth` appends from `s` on, in scanner state `inEscape`
   * with `width` columns already used: every code point is copied, escapes
   * and zero-width ones regardless of the budget, until the first one in
   * front of which it stops.
   */
  function TruncFrom(u: UnicodeTables, s: string, inEscape: bool, width: int, maxWidth: int): string
    decreases |s|
  {
    if s == [] || Stops(u, s[0], inEscape, width, maxWidth) then []
    else [s[0]] + TruncFrom(u, s[1..], Step(inEscape, s[0]), width + CharWidth(u, inEscape, s[0]), maxWidth)
  }

  /** The result of `truncateToWidth(s, maxWidth)`. */
  function Truncated(u: UnicodeTables, s: string, maxWidth: int): string
  {
    TruncFrom(u, s, false, 0, maxWidth)
  }

  function Max(a: int, b: int): int { if a < b then b else a }

  lemma {:induction false} TruncFromFacts(u: UnicodeTables, s: string, inEscape: bool, width: int, maxWidth: int)
    returns (r: string)
    ensures r == TruncFrom(u, s, inEscape, width, maxWidth)
    ensures |r| <= |s| && r == s[..|r|]
    ensures width + WidthFrom(u, r, inEscape) <= Max(width, maxWidth)
    ensures |r| < |s| ==> !EndState(r, inEscape) && Stops(u, s[|r|], EndState(r, inEscape), width + WidthFrom(u, r, inEscape), maxWidth)
    decreases |s|
  {
    r := TruncFrom(u, s, inEscape, width, maxWidth);
    if s != [] && !Stops(u, s[0], inEscape, width, maxWidth) {
      var next := Step(inEscape, s[0]);
      var width' := width + CharWidth(u, inEscape, s[0]);
      var rest := TruncFromFacts(u, s[1..], next, width', maxWidth);
      assert r == [s[0]] + rest;
      assert r[1..] == rest;
      assert WidthFrom(u, r, inEscape) == CharWidth(u, inEscape, s[0]) + WidthFrom(u, rest, next);
      assert EndState(r, inEscape) == EndState(rest, next);
      if |r| < |s| {
        assert s[|r|] == s[1..][|rest|];
      }
    }
  }

  /**
   * `truncateToWidth(s, n)` returns the longest prefix of `s` whose visual
   * width is at most `n`.
   */
  lemma TruncatedIsLongestFit(u: UnicodeTables, s: string, n: int)
    requires n >= 0
    ensures var r := Truncated(u, s, n);
      && |r| <= |s| && r == s[..|r|]
      && VisibleWidth(u, r) <= n
      && forall k | |r| < k <= |s| :: VisibleWidth(u, s[..k]) > n
  {
    var r := TruncFromFacts(u, s, false, 0, n);
    forall k | |r| < k <= |s|
      ensures VisibleWidth(u, s[..k]) > n
    {
      assert s[..k] == r + s[|r|..k];
      WidthConcat(u, r, s[|r|..k], false);
    }
  }

  /** Text that already fits comes back unchanged. */
  lemma TruncateFitting(u: UnicodeTables, s: string, n: int)
    requires VisibleWidth(u, s) <= n
    ensures Truncated(u, s, n) == s
  {
    var r := TruncFromFacts(u, s, false, 0, n);
    if |r| < |s| {
      assert r + s[|r|..] == s;
      WidthConcat(u, r, s[|r|..], false);
    }
  }

  /** When text had to be cut, the cut falls outside any escape sequence. */
  lemma TruncatedCutIsBalanced(u: UnicodeTables, s: string, n: int)
    requires 0 <= n < VisibleWidth(u, s)
    ensures Balanced(Truncated(u, s, n))
    ensures |Truncated(u, s, n)| < |s|
  {
    var r := TruncFromFacts(u, s, false, 0, n);
    assert s[..|s|] == s;
  }

  /** One step of `TruncFrom` at position `i`: stop, or copy `s[i]` and go on from `i + 1`. */
  lemma TruncFromStep(u: UnicodeTables, s: string, i: nat, inEscape: bool, width: int, maxWidth: int)
    requires i < |s|
    ensures Stops(u, s[i], inEscape, width, maxWidth) ==> TruncFrom(u, s[i..], inEscape, width, maxWidth) == []
    ensures !Stops(u, s[i], inEscape, width, maxWidth) ==>
      forall pre: string ::
        pre + TruncFrom(u, s[i..], inEscape, width, maxWidth)
        == (pre + [s[i]]) + TruncFrom(u, s[i + 1..], Step(inEscape, s[i]), width + CharWidth(u, inEscape, s[i]), maxWidth)
  {
    assert s[i..][1..] == s[i + 1..];
  }

  /** `truncateToWidth` (display.go:170-209): copies code points until the budget is spent. */
  method TruncateToWidth(u: UnicodeTables, s: string, maxWidth: int) returns (result: string)
    ensures result == Truncated(u, s, maxWidth)
  {
    result := "";
    var inEscape := false;
    var width := 0;
    var i := 0;
    while i < |s|
      invariant 0 <= i <= |s|
      invariant result + TruncFrom(u, s[i..], inEscape, width, maxWidth) == Truncated(u, s, maxWidth)
    {
      var r := s[i];
      TruncFromStep(u, s, i, inEscape, width, maxWidth);
      if r == Esc {
        inEscape := true;
        result := result + [r];
        i := i + 1;
        continue;
      }
      if inEscape {
        result := result + [r];
        if IsAsciiLetter(r) {
          inEscape := false;
        }
        i := i + 1;
        continue;
      }
      var w := RuneWidth(u, r);
      if w == 0 {
        result := result + [r];
        i := i + 1;
        continue;
      }
      if width + w > maxWidth {
        break;
      }
      width := width + w;
      result := result + [r];
      i := i + 1;
    }
    if i == |s| {
      assert result == Truncated(u, s, maxWidth);
    }
  }
}
