/**
 * Decimal rendering and parsing of numbers: integer digits, fixed-point formatting
 * (Python's `format(x, ".Nf")` rounds ties to even, JavaScript's `toFixed` rounds them up),
 * and the plain decimal literals Python's `float()` accepts.  Values are exact reals.
 */
module Numbers {
  import opened Wrappers
  import Text

  function Pow10(n: nat): (r: nat)
    ensures r >= 1
  {
    if n == 0 then 1 else 10 * Pow10(n - 1)
  }

  function DigitChar(d: nat): (c: char)
    requires d < 10
    ensures Text.IsDigit(c)
  {
    ('0' as int + d) as char
  }

  function DigitValue(c: char): (d: nat)
    requires Text.IsDigit(c)
    ensures d < 10
  {
    c as int - '0' as int
  }

  /** Decimal digits of `n`, most significant first, without leading zeros ("0" for zero). */
  function DigitsOf(n: nat): (r: string)
    ensures |r| > 0
    ensures forall i :: 0 <= i < |r| ==> Text.IsDigit(r[i])
  {
    if n < 10 then [DigitChar(n)] else DigitsOf(n / 10) + [DigitChar(n % 10)]
  }

  /** Value of a string of decimal digits. */
  function ParseDigits(s: string): (n: nat)
    requires forall i :: 0 <= i < |s| ==> Text.IsDigit(s[i])
  {
    if s == [] then 0 else 10 * ParseDigits(s[..|s| - 1]) + DigitValue(s[|s| - 1])
  }

  /** Reading back the digits of a number gives the number. */
  lemma {:induction false} ParseDigitsOf(n: nat)
    ensures ParseDigits(DigitsOf(n)) == n
  {
    if n >= 10 {
      var d := DigitsOf(n);
      assert d[..|d| - 1] == DigitsOf(n / 10);
      ParseDigitsOf(n / 10);
    }
  }

  /** Left-pad `s` with zeros to `width` characters. */
  function PadZeros(s: string, width: nat): (r: string)
    ensures |r| == if |s| >= width then |s| else width
    decreases width - |s|
  {
    if |s| >= width then s else PadZeros("0" + s, width)
  }

  datatype Rounding = HalfEven | HalfUp

  /** The integer nearest to `x >= 0`; ties resolved by `mode`. */
  function RoundNat(x: real, mode: Rounding): (n: nat)
    requires x >= 0.0
    ensures (n as real) - 0.5 <= x <= (n as real) + 0.5
  {
    var f := x.Floor;
    var frac := x - f as real;
    if frac < 0.5 then f
    else if frac > 0.5 then f + 1
    else if mode == HalfUp || f % 2 == 1 then f + 1
    else f
  }

  function Abs(x: real): (r: real)
    ensures r >= 0.0 && (r == x || r == -x)
  {
    if x < 0.0 then -x else x
  }

  /**
   * `|x|` scaled by `10^places` and rounded: the digits FormatFixed prints, the nearest
   * whole number of units of `10^-places`.
   */
  function ScaledDigits(x: real, places: nat, mode: Rounding): (n: nat)
    ensures n as real - 0.5 <= Abs(x) * Pow10(places) as real <= n as real + 0.5
  {
    RoundNat(Abs(x) * Pow10(places) as real, mode)
  }

  /**
   * `x` with exactly `places` digits after the point.  The sign is kept whenever `x` is
   * negative, even when the rounded digits are all zero, as both languages do.
   */
  function FormatFixed(x: real, places: nat, mode: Rounding): (r: string)
    ensures |r| > 0
  {
    (if x < 0.0 then "-" else "") + FixedDigits(ScaledDigits(x, places, mode), places)
  }

  /** The unsigned rendering of `m / 10^places` with exactly `places` fraction digits. */
  function FixedDigits(m: nat, places: nat): (r: string)
    ensures |r| > 0 && Text.IsDigit(r[0])
  {
    var p := Pow10(places);
    QuotientNat(m, p);
    var ip := DigitsOf(m / p);
    if places == 0 then ip
    else ip + "." + PadZeros(DigitsOf(m % p), places)
  }

  /** Dividing a natural number by a positive one leaves a natural quotient. */
  lemma QuotientNat(m: nat, p: nat)
    requires p >= 1
    ensures m / p >= 0
  {
  }

  predicate AllDigits(s: string)
  {
    forall i :: 0 <= i < |s| ==> Text.IsDigit(s[i])
  }

  /** An unsigned reading under the sign `c`. */
  function Signed(c: char, u: Option<real>): Option<real>
  {
    match u
    case None => None
    case Some(v) => Some(if c == '-' then -v else v)
  }

  /**
   * A plain decimal literal: optional sign, digits, optional point and digits, at least
   * one digit in all ("12", "12.", ".5", "-3.25").
   */
  function ParseDecimal(s: string): Option<real>
  {
    if |s| > 0 && (s[0] == '-' || s[0] == '+') then Signed(s[0], ParseUnsigned(s[1..]))
    else ParseUnsigned(s)
  }

  function ParseUnsigned(s: string): Option<real>
  {
    var k := Text.IndexOfChar(s, '.');
    if k < 0 then ParseParts(s, "") else ParseParts(s[..k], s[k + 1..])
  }

  /** The value of integer digits `ip` and fraction digits `fp`, if both are digit strings. */
  function ParseParts(ip: string, fp: string): Option<real>
  {
    if |ip| + |fp| == 0 || !AllDigits(ip) || !AllDigits(fp) then None
    else Some(ParseDigits(ip) as real + ParseDigits(fp) as real / Pow10(|fp|) as real)
  }

  /**
   * Python's `float(s)` on a finite literal: an optional sign, a mantissa as for
   * `ParseDecimal`, an optional exponent ("e5", "E-3"), and underscores only singly between
   * two digits ("9_5").  The spellings of infinity and NaN are not finite and give None.
   */
  function PyFloat(s: string): Option<real>
  {
    if |s| > 0 && (s[0] == '-' || s[0] == '+') then Signed(s[0], PyUnsigned(s[1..]))
    else PyUnsigned(s)
  }


  /** Every underscore sits between two digits. */
  predicate UnderscoresBetweenDigits(s: string)
  {
    forall i :: 0 <= i < |s| && s[i] == '_' ==> 0 < i < |s| - 1 && Text.IsDigit(s[i - 1]) && Text.IsDigit(s[i + 1])
  }

  /** The position of the first exponent mark, 'e' or 'E', or -1. */
  function ExponentMark(t: string): int
  {
    var a := Text.IndexOfChar(t, 'e');
    var b := Text.IndexOfChar(t, 'E');
    if a < 0 then b else if b < 0 || a < b then a else b
  }

  function PyUnsigned(s: string): Option<real>
  {
    if !UnderscoresBetweenDigits(s) then None
    else
      var t := Text.RemoveChar(s, '_');
      var k := ExponentMark(t);
      if k < 0 then ParseUnsigned(t) else WithExponent(t, k)
  }

  /** The mantissa before position `k` scaled by the exponent after it. */
  function WithExponent(t: string, k: nat): Option<real>
    requires k < |t|
  {
    match (ParseUnsigned(t[..k]), ParseExponent(t[k + 1..]))
    case (Some(m), Some(e)) => Some(Scale10(m, e))
    case _ => None
  }

  /** An exponent: an optional sign and at least one digit. */
  function ParseExponent(e: string): Option<int>
  {
    if |e| > 0 && (e[0] == '-' || e[0] == '+') then
      if |e| > 1 && AllDigits(e[1..]) then
        Some(if e[0] == '-' then -(ParseDigits(e[1..]) as int) else ParseDigits(e[1..]))
      else None
    else if |e| > 0 && AllDigits(e) then Some(ParseDigits(e))
    else None
  }

  /** `m * 10^e`. */
  function Scale10(m: real, e: int): real
  {
    if e >= 0 then m * Pow10(e) as real else m / Pow10(-e) as real
  }

  /** Without underscores and exponent marks, `float()` reads exactly the plain decimals. */
  lemma PyFloatOfDecimal(s: string)
    requires '_' !in s && 'e' !in s && 'E' !in s
    ensures PyFloat(s) == ParseDecimal(s)
  {
    if |s| > 0 && (s[0] == '-' || s[0] == '+') {
      PlainUnsigned(s[1..]);
    } else {
      PlainUnsigned(s);
    }
  }

  lemma NoUnderscores(t: string)
    requires '_' !in t
    ensures UnderscoresBetweenDigits(t) && Text.RemoveChar(t, '_') == t
  {
    Text.RemoveAbsent(t, '_');
  }

  lemma PlainUnsigned(s: string)
    requires '_' !in s && 'e' !in s && 'E' !in s
    ensures PyUnsigned(s) == ParseUnsigned(s)
  {
    NoUnderscores(s);
  }

  /** A sign is no digit, so an underscore cannot follow it. */
  lemma UnderscoresAfterSign(s: string)
    requires |s| > 0 && (s[0] == '-' || s[0] == '+') && UnderscoresBetweenDigits(s)
    ensures UnderscoresBetweenDigits(s[1..])
  {
    forall i | 0 <= i < |s[1..]| && s[1..][i] == '_'
      ensures 0 < i < |s[1..]| - 1 && Text.IsDigit(s[1..][i - 1]) && Text.IsDigit(s[1..][i + 1])
    {
      assert s[i + 1] == '_';
    }
  }

  /** `float("1e2")` is 100. */
  lemma OneEtwo()
    ensures PyFloat("1e2") == Some(100.0)
  {
    assert ParseDigits("1") == 1 && ParseDigits("2") == 2;
    UnsignedOfDigits("1");
    PartsOfInteger("1");
    assert "1e2" == "1" + "e" + "2";
    PyFloatExponent("1", "2", 1.0);
  }

  /** Digits and points hold no underscore and no exponent mark. */
  lemma DecimalCharsPlain(g: string)
    requires forall i :: 0 <= i < |g| ==> Text.IsDigit(g[i]) || g[i] == '.'
    ensures '_' !in g && 'e' !in g && 'E' !in g
  {
  }

  /** A text that opens with no sign is read as unsigned. */
  lemma PyFloatNoSign(s: string)
    requires |s| > 0 && s[0] != '-' && s[0] != '+'
    ensures PyFloat(s) == PyUnsigned(s)
  {
  }

  /** Without underscores, the text is split at its first exponent mark. */
  lemma PyUnsignedPlain(s: string)
    requires '_' !in s
    ensures PyUnsigned(s) == if ExponentMark(s) < 0 then ParseUnsigned(s) else WithExponent(s, ExponentMark(s))
  {
    NoUnderscores(s);
  }

  /** Underscores between digits do not change the value `float()` reads. */
  lemma PyFloatIgnoresUnderscores(s: string)
    requires UnderscoresBetweenDigits(s)
    ensures PyFloat(s) == PyFloat(Text.RemoveChar(s, '_'))
  {
    if |s| > 0 {
      assert s[0] != '_';
      if s[0] == '-' || s[0] == '+' {
        SignedUnderscores(s);
      } else {
        UnsignedUnderscores(s);
      }
    }
  }

  lemma RemoveUnderscoreHead(s: string)
    requires |s| > 0 && s[0] != '_'
    ensures var t := Text.RemoveChar(s, '_');
      |t| > 0 && t[0] == s[0] && t[1..] == Text.RemoveChar(s[1..], '_')
  {
    assert Text.RemoveChar(s, '_') == [s[0]] + Text.RemoveChar(s[1..], '_');
  }

  /** Removing the underscores first does not change what the unsigned reading gives. */
  lemma UnsignedOfCleaned(u: string)
    requires UnderscoresBetweenDigits(u)
    ensures PyUnsigned(Text.RemoveChar(u, '_')) == PyUnsigned(u)
  {
    NoUnderscores(Text.RemoveChar(u, '_'));
  }

  lemma SignedUnderscores(s: string)
    requires |s| > 0 && (s[0] == '-' || s[0] == '+') && UnderscoresBetweenDigits(s)
    ensures PyFloat(s) == PyFloat(Text.RemoveChar(s, '_'))
  {
    var t := Text.RemoveChar(s, '_');
    RemoveUnderscoreHead(s);
    UnderscoresAfterSign(s);
    UnsignedOfCleaned(s[1..]);
    SameSignSameValue(s, t);
  }

  /** Two signed texts with the same sign and the same unsigned reading read the same. */
  lemma SameSignSameValue(a: string, b: string)
    requires |a| > 0 && (a[0] == '-' || a[0] == '+') && |b| > 0 && b[0] == a[0]
    requires PyUnsigned(a[1..]) == PyUnsigned(b[1..])
    ensures PyFloat(a) == PyFloat(b)
  {
  }

  lemma UnsignedUnderscores(s: string)
    requires |s| > 0 && s[0] != '-' && s[0] != '+' && s[0] != '_' && UnderscoresBetweenDigits(s)
    ensures PyFloat(s) == PyFloat(Text.RemoveChar(s, '_'))
  {
    var t := Text.RemoveChar(s, '_');
    RemoveUnderscoreHead(s);
    UnsignedOfCleaned(s);
    PyFloatNoSign(s);
    PyFloatNoSign(t);
  }

  /** The text of `m + "e" + d` has its only exponent mark right after `m`. */
  lemma ExponentAfterMantissa(m: string, d: string)
    requires forall i :: 0 <= i < |m| ==> Text.IsDigit(m[i]) || m[i] == '.'
    requires AllDigits(d)
    ensures var s := m + "e" + d;
      '_' !in s && ExponentMark(s) == |m| && s[..|m|] == m && s[|m| + 1..] == d
  {
    var s := m + "e" + d;
    forall i | 0 <= i < |s|
      ensures s[i] != '_' && s[i] != 'E' && (i != |m| ==> s[i] != 'e')
    {
      if i < |m| {
        assert s[i] == m[i];
      } else if i > |m| {
        assert s[i] == d[i - |m| - 1];
      }
    }
    assert s[..|m|] == m && s[|m|] == 'e';
    Text.IndexOfCharAt(s, 'e', |m|);
    assert s[|m| + 1..] == d;
  }

  /** A mantissa that parses holds a digit. */
  lemma MantissaNonEmpty(m: string)
    requires ParseUnsigned(m).Some?
    ensures |m| > 0
  {
  }

  /** A plain mantissa followed by `e` and digits is scaled by that power of ten. */
  lemma PyFloatExponent(m: string, d: string, v: real)
    requires forall i :: 0 <= i < |m| ==> Text.IsDigit(m[i]) || m[i] == '.'
    requires ParseUnsigned(m) == Some(v)
    requires |d| > 0 && AllDigits(d)
    ensures PyFloat(m + "e" + d) == Some(Scale10(v, ParseDigits(d)))
  {
    var s := m + "e" + d;
    ExponentAfterMantissa(m, d);
    PyUnsignedPlain(s);
    MantissaNonEmpty(m);
    assert s[0] == m[0];
    PyFloatNoSign(s);
    assert ParseExponent(d) == Some(ParseDigits(d) as int);
  }

  lemma NoPointInDigits(s: string)
    requires AllDigits(s)
    ensures Text.IndexOfChar(s, '.') == -1
  {
  }

  /** A string of digits parses as the integer it spells. */
  lemma ParseDecimalOfDigits(s: string)
    requires AllDigits(s) && |s| > 0
    ensures ParseDecimal(s) == Some(ParseDigits(s) as real)
  {
    assert Text.IsDigit(s[0]);
    UnsignedOfDigits(s);
    PartsOfInteger(s);
  }

  lemma UnsignedOfDigits(s: string)
    requires AllDigits(s)
    ensures ParseUnsigned(s) == ParseParts(s, "")
  {
    NoPointInDigits(s);
  }

  lemma PartsOfInteger(s: string)
    requires AllDigits(s) && |s| > 0
    ensures ParseParts(s, "") == Some(ParseDigits(s) as real)
  {
    assert ParseDigits("") == 0 && Pow10(0) == 1;
  }

  lemma {:induction false} ParseDigitsLeadingZero(s: string)
    requires AllDigits(s)
    ensures AllDigits("0" + s) && ParseDigits("0" + s) == ParseDigits(s)
  {
    if s != [] {
      var t := "0" + s;
      assert t[..|t| - 1] == "0" + s[..|s| - 1];
      ParseDigitsLeadingZero(s[..|s| - 1]);
    }
  }

  lemma {:induction false} ParseDigitsPadded(s: string, width: nat)
    requires AllDigits(s)
    decreases width - |s|
    ensures AllDigits(PadZeros(s, width)) && ParseDigits(PadZeros(s, width)) == ParseDigits(s)
  {
    if |s| < width {
      ParseDigitsLeadingZero(s);
      ParseDigitsPadded("0" + s, width);
    }
  }

  /** Ties go to the even neighbour in Python and upwards in JavaScript. */
  lemma RoundingTies()
    ensures RoundNat(12.5, HalfEven) == 12 && RoundNat(13.5, HalfEven) == 14
    ensures RoundNat(12.5, HalfUp) == 13
    ensures RoundNat(12.4, HalfUp) == 12 && RoundNat(12.6, HalfEven) == 13
  {
  }
}
