/** The unit helpers of internal/units/units.go. */
module Units {
  import opened Options

  /** `TempUnit` (units.go:6-11). */
  function TempUnit(imperial: bool): (r: string)
    ensures |r| == 2 && r[0] == '\U{B0}'
    ensures r[1] == 'F' <==> imperial
    ensures r[1] == 'C' <==> !imperial
  {
    if imperial then "\U{B0}F" else "\U{B0}C"
  }

  /** `WindUnit` (units.go:14-19). */
  function WindUnit(imperial: bool): (r: string)
    ensures r in {"mph", "km/h"}
    ensures r == "mph" <==> imperial
  {
    if imperial then "mph" else "km/h"
  }

  /** The sixteen compass points, clockwise from north (units.go:28-29). */
  const Directions: seq<string> := ["N", "NNE", "NE", "ENE", "E", "ESE", "SE", "SSE",
                                    "S", "SSW", "SW", "WSW", "W", "WNW", "NW", "NNW"]

  /** Go's integer division, which truncates toward zero: `q * b` lies between 0 and `a`, less than `b` away from `a`. */
  function GoQuot(a: int, b: int): (q: int)
    requires b > 0
    ensures a >= 0 ==> 0 <= q * b <= a && a - q * b < b
    ensures a < 0 ==> a <= q * b <= 0 && q * b - a < b
  {
    if a >= 0 then NatQuotient(a, b); a / b
    else NegQuotient(a, b); -((-a) / b)
  }

  /** Euclidean division of a non-negative dividend leaves a remainder below the divisor. */
  lemma NatQuotient(a: nat, b: int)
    requires b > 0
    ensures var q := a / b; 0 <= q * b <= a && a - q * b < b
  {
    var q, r := a / b, a % b;
    assert a == q * b + r;
  }

  /** Truncating a negative dividend rounds its quotient up. */
  lemma NegQuotient(a: int, b: int)
    requires a < 0 && b > 0
    ensures var q := -((-a) / b); a <= q * b <= 0 && q * b - a < b
  {
    var p := (-a) / b;
    NatQuotient(-a, b);
    assert -p * b == -(p * b);
  }

  /** Go's remainder, which takes the sign of the dividend. */
  function GoRem(a: int, b: int): (r: int)
    requires b > 0
    ensures a >= 0 ==> r == a % b
    ensures a < 0 ==> r == -((-a) % b)
    ensures -b < r < b
  {
    if a >= 0 then a % b else -((-a) % b)
  }

  /** Truncated quotient and remainder recombine to the dividend, as the Go specification requires. */
  lemma GoDivision(a: int, b: int)
    requires b > 0
    ensures a == GoQuot(a, b) * b + GoRem(a, b)
    ensures a < 0 ==> GoRem(a, b) <= 0
  {
  }

  /**
   * `WindCardinal` (units.go:27-32). Go indexes `dirs` with a remainder that is
   * negative when the truncated sector number is negative and not a multiple of
   * 16, which panics; that case is `None`.
   */
  function WindCardinal(degrees: int): (r: Option<string>)
    ensures degrees >= -32 ==> r.Some?
    ensures -55 < degrees < -32 ==> r.None?
  {
    var idx := GoRem(GoQuot(degrees + 11, 22), 16);
    if 0 <= idx < |Directions| then Some(Directions[idx]) else None
  }

  /** Every answer is one of the sixteen points; from `-11` degrees up it is the rounded sector number modulo 16. */
  lemma WindCardinalPoint(degrees: int)
    ensures WindCardinal(degrees).Some? ==> WindCardinal(degrees).value in Directions
    ensures degrees + 11 >= 0 ==> WindCardinal(degrees) == Some(Directions[((degrees + 11) / 22) % 16])
    ensures -33 < degrees < -11 ==> WindCardinal(degrees) == Some("N")
  {
    if degrees + 11 >= 0 {
      var k := (degrees + 11) / 22;
      WindCardinalSector(degrees, k);
    } else if degrees > -33 {
      assert GoQuot(degrees + 11, 22) == 0;
    }
  }

  /** The exact panic condition: a negative truncated sector number that is not a multiple of 16. */
  lemma WindCardinalPanics(degrees: int)
    ensures WindCardinal(degrees).None? <==> GoQuot(degrees + 11, 22) < 0 && GoQuot(degrees + 11, 22) % 16 != 0
  {
    var q := GoQuot(degrees + 11, 22);
    if q < 0 {
      var m := -q;
      var a, r := m / 16, m % 16;
      assert m == 16 * a + r;
      if r == 0 {
        assert q == 16 * -a;
      } else {
        assert q == 16 * (-a - 1) + (16 - r);
      }
    }
  }

  /** Each point covers 22 degrees centred on a multiple of 22, starting at north. */
  lemma WindCardinalSector(degrees: int, k: nat)
    requires 22 * k - 11 <= degrees <= 22 * k + 10
    ensures WindCardinal(degrees) == Some(Directions[k % 16])
  {
    assert (degrees + 11) / 22 == k;
  }

  /** The points of internal/units/units_test.go:43-64, and the top of the compass folding back to north. */
  lemma WindCardinalCardinalExamples()
    ensures WindCardinal(0) == Some("N") && WindCardinal(90) == Some("E")
    ensures WindCardinal(180) == Some("S") && WindCardinal(270) == Some("W")
  {
    assert WindCardinal(0) == Some("N") by { WindCardinalSector(0, 0); }
    assert WindCardinal(90) == Some("E") by { WindCardinalSector(90, 4); }
    assert WindCardinal(180) == Some("S") by { WindCardinalSector(180, 8); }
    assert WindCardinal(270) == Some("W") by { WindCardinalSector(270, 12); }
  }

  lemma WindCardinalIntercardinalExamples()
    ensures WindCardinal(45) == Some("NE") && WindCardinal(135) == Some("SE")
    ensures WindCardinal(225) == Some("SW") && WindCardinal(315) == Some("NW")
    ensures WindCardinal(340) == Some("NNW")
  {
    assert WindCardinal(45) == Some("NE") by { WindCardinalSector(45, 2); }
    assert WindCardinal(135) == Some("SE") by { WindCardinalSector(135, 6); }
    assert WindCardinal(225) == Some("SW") by { WindCardinalSector(225, 10); }
    assert WindCardinal(315) == Some("NW") by { WindCardinalSector(315, 14); }
    assert WindCardinal(340) == Some("NNW") by { WindCardinalSector(340, 15); }
  }

  /** From 341 degrees the index reaches 16 and folds back to north. */
  lemma WindCardinalTopIsNorth()
    ensures forall d | 341 <= d < 363 :: WindCardinal(d) == Some("N")
  {
    forall d | 341 <= d < 363
      ensures WindCardinal(d) == Some("N")
    {
      WindCardinalSector(d, 16);
    }
  }

  /** Sixteen sectors of 22 degrees make a period of 352 degrees, not 360. */
  lemma WindCardinalPeriod(degrees: int)
    requires degrees + 11 >= 0
    ensures WindCardinal(degrees + 352) == WindCardinal(degrees)
  {
    var k := (degrees + 11) / 22;
    WindCardinalSector(degrees, k);
    WindCardinalSector(degrees + 352, k + 16);
  }
}
