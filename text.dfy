/** The text conversions the OpenSCAD output uses: Python's `str(int)`,
    `"{0:.3f}".format(x)` on an exact real, the `-0.000` normalisation, and
    `", ".join(...)`. */
module Text {
  import opened Geometry

  predicate IsDigit(c: char)
  {
    '0' <= c <= '9'
  }

  function DigitChar(d: nat): (c: char)
    requires d < 10
    ensures IsDigit(c)
    ensures DigitValue(c) == d
  {
    (48 + d) as char
  }

  function DigitValue(c: char): nat
    requires IsDigit(c)
  {
    c as nat - 48
  }

  predicate AllDigits(s: string)
  {
    forall i :: 0 <= i < |s| ==> IsDigit(s[i])
  }

  /** Decimal digits of a natural number, most significant first, no leading zeros. */
  function NatToString(n: nat): (s: string)
    ensures 1 <= |s| && AllDigits(s)
    ensures |s| == 1 <==> n < 10
    decreases n
  {
    if n < 10 then [DigitChar(n)] else NatToString(n / 10) + [DigitChar(n % 10)]
  }

  /** The value of a string of decimal digits: the inverse of `NatToString`. */
  function ParseNat(s: string): nat
    requires AllDigits(s)
  {
    if s == [] then 0 else ParseNat(s[..|s| - 1]) * 10 + DigitValue(s[|s| - 1])
  }

  lemma {:induction false} ParseNatToString(n: nat)
    ensures ParseNat(NatToString(n)) == n
    decreases n
  {
    var s := NatToString(n);
    if n < 10 {
      assert s[..0] == [];
    } else {
      ParseNatToString(n / 10);
      assert s[..|s| - 1] == NatToString(n / 10);
    }
  }

  /** Python's `str` of an int. */
  function IntToString(i: int): (s: string)
    ensures 1 <= |s|
  {
    if i < 0 then "-" + NatToString(-i) else NatToString(i)
  }

  /** The integer nearest to `y`, ties to the even one (how Python rounds a
      value that lies exactly half way between two printed values). */
  function RoundHalfEven(y: real): (n: int)
    ensures y >= 0.0 ==> n >= 0
  {
    var f := y.Floor;
    var frac := y - f as real;
    if frac > 0.5 then f + 1
    else if frac < 0.5 then f
    else if f % 2 == 0 then f
    else f + 1
  }

  /** The rounded value is a nearest integer, and an even one on a tie. */
  lemma RoundHalfEvenNearest(y: real)
    ensures y - 0.5 <= RoundHalfEven(y) as real <= y + 0.5
    ensures (RoundHalfEven(y) as real - y == 0.5 || y - RoundHalfEven(y) as real == 0.5)
            ==> RoundHalfEven(y) % 2 == 0
  {
  }

  /** The three decimals after the point, zero padded. */
  function ThreeDigits(r: nat): (s: string)
    requires r < 1000
    ensures |s| == 3 && AllDigits(s)
    ensures s == "000" <==> r == 0
  {
    [DigitChar(r / 100), DigitChar(r / 10 % 10), DigitChar(r % 10)]
  }

  /** The three decimals read back give the number they were made from. */
  lemma {:induction false} ThreeDigitsValue(r: nat)
    requires r < 1000
    ensures ParseNat(ThreeDigits(r)) == r
  {
    var s := ThreeDigits(r);
    assert s[..2][..1] == s[..1];
    assert s[..1][..0] == [];
    assert ParseNat(s[..1]) == r / 100;
    assert ParseNat(s[..2]) == r / 100 * 10 + r / 10 % 10;
  }

  /** `"{0:.3f}".format(x)` for an exact real `x`: a minus sign for every
      negative value (even one that rounds to zero), the integer part, a
      point and three decimals. */
  function Fixed3(x: real): (s: string)
    ensures |s| >= 5
  {
    var magnitude := if x < 0.0 then -x else x;
    var k: nat := RoundHalfEven(magnitude * 1000.0);
    (if x < 0.0 then "-" else "") + NatToString(k / 1000) + "." + ThreeDigits(k % 1000)
  }

  /** A formatted coordinate: `-0.000` becomes `0.000` (scad.py lines 80-82
      and 355-356). */
  function Coord(x: real): (s: string)
    ensures s != "-0.000"
    ensures s == Fixed3(x) || (Fixed3(x) == "-0.000" && s == "0.000")
  {
    var text := Fixed3(x);
    if text == "-0.000" then "0.000" else text
  }

  /** The text starts with a minus sign exactly for a negative value. */
  lemma Fixed3Sign(x: real)
    ensures Fixed3(x)[0] == '-' <==> x < 0.0
  {
    var magnitude := if x < 0.0 then -x else x;
    var k: nat := RoundHalfEven(magnitude * 1000.0);
    var digits := NatToString(k / 1000);
    assert IsDigit(digits[0]);
    if x >= 0.0 {
      assert Fixed3(x)[0] == digits[0];
    }
  }

  /** A negative value that rounds to zero prints as `-0.000`. */
  lemma Fixed3SmallNegative(x: real)
    requires -0.0005 <= x < 0.0
    ensures Fixed3(x) == "-0.000"
  {
    var y := -x * 1000.0;
    assert 0.0 < y <= 0.5;
    assert y.Floor == 0;
    assert RoundHalfEven(y) == 0;
    assert Fixed3(x) == "-" + "0" + "." + "000";
  }

  /** Only a negative value that rounds to zero prints as `-0.000`. */
  lemma Fixed3NegativeZeroOnly(x: real)
    requires Fixed3(x) == "-0.000"
    ensures -0.0005 <= x < 0.0
  {
    Fixed3Sign(x);
    var k: nat := RoundHalfEven(-x * 1000.0);
    RoundHalfEvenNearest(-x * 1000.0);
    var whole, decimals := NatToString(k / 1000), ThreeDigits(k % 1000);
    var rest := whole + "." + decimals;
    assert Fixed3(x) == "-" + rest;
    assert rest == Fixed3(x)[1..] == "0.000";
    assert |whole| == 1;
    assert whole == rest[..1] == "0";
    assert DigitValue(whole[0]) == k / 1000 == 0;
    assert decimals == rest[2..] == "000";
    assert k == 0;
  }

  /** Exactly the negative values that round to zero print as `-0.000`. */
  lemma {:induction false} Fixed3NegativeZero(x: real)
    ensures Fixed3(x) == "-0.000" <==> -0.0005 <= x < 0.0
  {
    if -0.0005 <= x < 0.0 {
      Fixed3SmallNegative(x);
    }
    if Fixed3(x) == "-0.000" {
      Fixed3NegativeZeroOnly(x);
    }
  }

  /** Coordinates print unchanged except the negative ones that round to zero. */
  lemma CoordNormalisesOnlyNegativeZero(x: real)
    ensures Coord(x) == (if -0.0005 <= x < 0.0 then "0.000" else Fixed3(x))
  {
    Fixed3NegativeZero(x);
  }

  /** A text with no comma in it. */
  predicate NoComma(s: string)
  {
    forall i :: 0 <= i < |s| ==> s[i] != ','
  }

  /** A formatted coordinate is a sign, digits and a point: it has no comma. */
  lemma CoordNoComma(x: real)
    ensures NoComma(Coord(x))
  {
    var magnitude := if x < 0.0 then -x else x;
    var k: nat := RoundHalfEven(magnitude * 1000.0);
    var sign := if x < 0.0 then "-" else "";
    NumberNoComma(sign, NatToString(k / 1000), ThreeDigits(k % 1000));
  }

  /** A sign, digits, a point and digits have no comma. */
  lemma NumberNoComma(sign: string, whole: string, decimals: string)
    requires sign == "" || sign == "-"
    requires AllDigits(whole) && AllDigits(decimals)
    ensures NoComma(sign + whole + "." + decimals)
  {
    var text := sign + whole + "." + decimals;
    forall i | 0 <= i < |text|
      ensures text[i] != ','
    {
      if i < |sign| {
      } else if i < |sign| + |whole| {
        assert text[i] == whole[i - |sign|];
      } else if i > |sign| + |whole| {
        assert text[i] == decimals[i - |sign| - |whole| - 1];
      }
    }
  }

  /** Two texts split at their first `", "` the same way when neither head
      has a comma: equal joins have equal heads and equal tails. */
  lemma {:induction false} SplitAtComma(a: string, rest: string, b: string, tail: string)
    requires NoComma(a) && NoComma(b)
    requires a + ", " + rest == b + ", " + tail
    ensures a == b && rest == tail
  {
    var s := a + ", " + rest;
    assert forall i :: 0 <= i < |a| ==> s[i] == a[i];
    assert forall i :: 0 <= i < |b| ==> s[i] == b[i];
    assert s[|a|] == ',' && s[|b|] == ',';
    assert |a| == |b|;
    assert a == s[..|a|];
    assert b == s[..|b|];
    assert rest == s[|a| + 2..];
    assert tail == s[|b| + 2..];
  }

  /** `P.__str__`. */
  function PointToString(p: P): (s: string)
    ensures |s| >= 2 && s[..2] == "P(" && s[|s| - 1] == ')'
  {
    "P(" + Coord(p.x) + ", " + Coord(p.y) + ", " + Coord(p.z) + ")"
  }

  /** Three comma-free texts are read back from `P(x, y, z)` uniquely. */
  lemma {:induction false} SplitThree(x: string, y: string, z: string, x': string, y': string, z': string)
    requires NoComma(x) && NoComma(y) && NoComma(x') && NoComma(y')
    requires "P(" + x + ", " + y + ", " + z + ")" == "P(" + x' + ", " + y' + ", " + z' + ")"
    ensures x == x' && y == y' && z == z'
  {
    var s, s' := "P(" + x + ", " + y + ", " + z + ")", "P(" + x' + ", " + y' + ", " + z' + ")";
    assert s[2..] == x + ", " + (y + ", " + (z + ")"));
    assert s'[2..] == x' + ", " + (y' + ", " + (z' + ")"));
    SplitAtComma(x, y + ", " + (z + ")"), x', y' + ", " + (z' + ")"));
    SplitAtComma(y, z + ")", y', z' + ")");
    assert z == (z + ")")[..|z|];
    assert z' == (z' + ")")[..|z'|];
  }

  /** Two points print the same exactly when their three cleaned
      coordinates do. */
  lemma {:induction false} PointToStringCoords(p: P, q: P)
    ensures PointToString(p) == PointToString(q)
        <==> Coord(p.x) == Coord(q.x) && Coord(p.y) == Coord(q.y) && Coord(p.z) == Coord(q.z)
  {
    if PointToString(p) == PointToString(q) {
      CoordNoComma(p.x);
      CoordNoComma(q.x);
      CoordNoComma(p.y);
      CoordNoComma(q.y);
      SplitThree(Coord(p.x), Coord(p.y), Coord(p.z), Coord(q.x), Coord(q.y), Coord(q.z));
    }
  }

  /** The total length of a list of texts. */
  function SumLengths(parts: seq<string>): nat
  {
    if parts == [] then 0 else SumLengths(parts[..|parts| - 1]) + |parts[|parts| - 1]|
  }

  /** `sep.join(parts)`. */
  function Join(sep: string, parts: seq<string>): (s: string)
    ensures |parts| == 1 ==> s == parts[0]
    ensures parts == [] ==> s == ""
  {
    if |parts| == 0 then ""
    else if |parts| == 1 then parts[0]
    else Join(sep, parts[..|parts| - 1]) + sep + parts[|parts| - 1]
  }

  /** A join holds every part and one separator between each two. */
  lemma {:induction false} JoinLength(sep: string, parts: seq<string>)
    requires parts != []
    ensures |Join(sep, parts)| == SumLengths(parts) + (|parts| - 1) * |sep|
  {
    if |parts| > 1 {
      var front := parts[..|parts| - 1];
      JoinLength(sep, front);
    }
  }
}
