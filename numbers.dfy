/**
 * Python numeric primitives: min/max/clamp as Python evaluates them, floor
 * division and modulo on reals, round(x, n), fixed-point formatting
 * (f"{x:.nf}") and the int()/float() string constructors.
 */
module Numbers {
  import opened Wrappers
  import opened Strings

  function Pow10(n: nat): (p: nat)
    ensures p >= 1
  {
    if n == 0 then 1 else 10 * Pow10(n - 1)
  }

  lemma MulLe(a: real, b: real, c: real)
    requires a <= b && c >= 0.0
    ensures a * c <= b * c
  {}

  lemma MulLt(a: real, b: real, c: real)
    requires a < b && c > 0.0
    ensures a * c < b * c
  {}

  lemma DivLe(a: real, b: real, c: real)
    requires a <= b && c > 0.0
    ensures a / c <= b / c
  {}

  /** Python min(a, b): returns a unless b < a. */
  function Min(a: real, b: real): real { if b < a then b else a }

  /** Python max(a, b): returns a unless b > a. */
  function Max(a: real, b: real): real { if b > a then b else a }

  /** max(lo, min(hi, x)), the clamp idiom used throughout the repository. */
  function Clamp(x: real, lo: real, hi: real): (r: real)
    requires lo <= hi
    ensures lo <= r <= hi
    ensures lo <= x <= hi ==> r == x
  {
    Max(lo, Min(hi, x))
  }

  /** int(x) for a real: truncation toward zero. */
  function Trunc(x: real): (r: int)
    ensures x >= 0.0 ==> r == x.Floor
    ensures x < 0.0 ==> r == -((-x).Floor)
  {
    if x >= 0.0 then x.Floor else -((-x).Floor)
  }

  /** Python x % y for a positive real divisor: x - y*floor(x/y), in [0, y). */
  function PyMod(x: real, y: real): (r: real)
    requires y > 0.0
    ensures 0.0 <= r < y
  {
    PyModBounds(x, y);
    x - y * (x / y).Floor as real
  }

  lemma PyModBounds(x: real, y: real)
    requires y > 0.0
    ensures 0.0 <= x - y * (x / y).Floor as real < y
  {
    var z := x / y;
    var qr := z.Floor as real;
    assert z * y == x;
    MulLe(qr, z, y);
    var u := qr + 1.0;
    MulLt(z, u, y);
    assert z * y < u * y;
    assert x < u * y;
    assert u * y == qr * y + y;
    assert y * qr == qr * y;
    assert qr * y <= x;
    assert 0.0 <= x - y * qr < y;
  }

  /** Python round() on one number: nearest integer, ties to even. */
  function RoundToInt(x: real): (r: int)
    ensures -0.5 <= r as real - x <= 0.5
  {
    var f := x.Floor;
    var d := x - f as real;
    if d < 0.5 then f
    else if d > 0.5 then f + 1
    else if f % 2 == 0 then f else f + 1
  }

  lemma {:induction false} RoundToIntMonotone(x: real, y: real)
    requires x <= y
    ensures RoundToInt(x) <= RoundToInt(y)
  {
    var fx, fy := x.Floor, y.Floor;
    if fx == fy {
      assert x - fx as real <= y - fy as real;
    } else {
      assert fx < fy;
    }
  }

  lemma RoundToIntOfInt(k: int)
    ensures RoundToInt(k as real) == k
  {
    assert (k as real).Floor == k;
  }

  /**
   * round(x, n) with scale = 10^n: the nearest multiple of 1/scale, ties to even.
   * Callers pass the scale as a literal (100.0 for two places).
   */
  function RoundTo(x: real, scale: real): real
    requires scale > 0.0
  {
    RoundToInt(x * scale) as real / scale
  }

  /** RoundTo without the division: scaling the result back gives the rounded integer. */
  lemma RoundToScaled(x: real, scale: real)
    requires scale > 0.0
    ensures RoundTo(x, scale) * scale == RoundToInt(x * scale) as real
  {
  }

  lemma MulCancel(a: real, b: real, c: real)
    requires c > 0.0 && a * c == b * c
    ensures a == b
  {
    if a < b { MulLt(a, b, c); } else if b < a { MulLt(b, a, c); }
  }

  /** Rounding moves a value by at most half a unit in the last place. */
  lemma RoundClose(x: real, scale: real)
    requires scale > 0.0
    ensures -0.5 / scale <= RoundTo(x, scale) - x <= 0.5 / scale
  {
    var xp := x * scale;
    var kr := RoundToInt(xp) as real;
    assert RoundTo(x, scale) == kr / scale;
    var t := kr - xp;
    DivLe(-0.5, t, scale);
    DivLe(t, 0.5, scale);
    MulDiv(x, scale);
    DivSub(kr, xp, scale);
  }

  lemma MulDiv(a: real, c: real)
    requires c > 0.0
    ensures (a * c) / c == a
  {
    assert ((a * c) / c) * c == a * c;
    MulCancel((a * c) / c, a, c);
  }

  /** A sum of n values each in [lo, hi] has its mean in [lo, hi]. */
  lemma DivAtMost(sum: real, n: real, hi: real)
    requires n > 0.0 && sum <= hi * n
    ensures sum / n <= hi
  {
    DivLe(sum, hi * n, n);
    MulDiv(hi, n);
  }

  lemma DivAtLeast(sum: real, n: real, lo: real)
    requires n > 0.0 && lo * n <= sum
    ensures lo <= sum / n
  {
    DivLe(lo * n, sum, n);
    MulDiv(lo, n);
  }

  /** total / max(1, count). */
  function Average(total: nat, count: nat): real
  {
    total as real / (if count > 1 then count else 1) as real
  }

  /** The average over count items times the count is the total, and it lies in [0, m] when the total is at most m per item. */
  lemma AverageSpec(total: nat, count: nat, m: nat)
    requires total <= m * count
    ensures count == 0 ==> Average(total, count) == total as real
    ensures count > 0 ==> Average(total, count) * count as real == total as real
    ensures 0.0 <= Average(total, count) <= m as real
  {
    var n := if count > 1 then count else 1;
    var avg := total as real / n as real;
    assert total as real <= m as real * n as real;
    DivAtMost(total as real, n as real, m as real);
    DivAtLeast(total as real, n as real, 0.0);
    assert avg * n as real == total as real;
  }
  /** Over at least one item, the average times the count is the total. */
  lemma AverageTimesCount(total: nat, count: nat)
    requires count > 0
    ensures Average(total, count) * count as real == total as real
  {
    assert (if count > 1 then count else 1) == count;
  }


  lemma MeanWithin(sum: real, n: real, lo: real, hi: real)
    requires n > 0.0 && lo * n <= sum <= hi * n
    ensures lo <= sum / n <= hi
  {
    DivLe(lo * n, sum, n);
    DivLe(sum, hi * n, n);
    MulDiv(lo, n);
    MulDiv(hi, n);
  }

  lemma DivSub(a: real, b: real, c: real)
    requires c > 0.0
    ensures (a - b) / c == a / c - b / c
  {
    var q1, q2 := (a - b) / c, a / c - b / c;
    assert q1 * c == a - b;
    assert q2 * c == (a / c) * c - (b / c) * c;
    MulCancel(q1, q2, c);
  }

  /** Rounding never reverses the order of two numbers. */
  lemma {:induction false} RoundMonotone(x: real, y: real, scale: real)
    requires x <= y && scale > 0.0
    ensures RoundTo(x, scale) <= RoundTo(y, scale)
  {
    var xp, yp := x * scale, y * scale;
    MulLe(x, y, scale);
    RoundToIntMonotone(xp, yp);
    DivLe(RoundToInt(xp) as real, RoundToInt(yp) as real, scale);
  }

  /** Whole numbers are fixed points of rounding at any whole-number scale. */
  lemma {:induction false} RoundOfInt(x: real, scale: real)
    requires x == x.Floor as real
    requires scale > 0.0 && scale == scale.Floor as real
    ensures RoundTo(x, scale) == x
  {
    var n := scale.Floor;
    var k := x.Floor;
    assert x * scale == (k * n) as real;
    RoundToIntOfInt(k * n);
    RoundToScaled(x, scale);
    MulCancel(RoundTo(x, scale), x, scale);
  }

  /** Rounding keeps a value inside any range with whole-number ends. */
  lemma RoundWithin(x: real, lo: real, hi: real, scale: real)
    requires lo <= x <= hi
    requires lo == lo.Floor as real && hi == hi.Floor as real
    requires scale > 0.0 && scale == scale.Floor as real
    ensures lo <= RoundTo(x, scale) <= hi
  {
    RoundMonotone(lo, x, scale);
    RoundMonotone(x, hi, scale);
    RoundOfInt(lo, scale);
    RoundOfInt(hi, scale);
  }

  /** f"{x:.{places}f}": sign, integer digits, then exactly `places` fraction digits. */
  function FormatFixed(x: real, places: nat): (r: string)
    ensures places > 0 ==> |r| > places && r[|r| - places - 1] == '.'
  {
    var m := RoundToInt((if x < 0.0 then -x else x) * Pow10(places) as real);
    FixedText(x < 0.0, if m < 0 then 0 else m, places)
  }

  /** The text of m / 10^places: an optional sign, the digits of m zero-padded, a point before the last `places`. */
  function FixedText(negative: bool, m: nat, places: nat): (r: string)
    ensures places > 0 ==> |r| > places && r[|r| - places - 1] == '.'
  {
    var digits := NatToString(m);
    var padded := if |digits| <= places then Zeros(places + 1 - |digits|) + digits else digits;
    var sign := if negative then "-" else "";
    if places == 0 then sign + padded
    else sign + padded[..|padded| - places] + "." + padded[|padded| - places..]
  }

  /** f"{x:.{places}%}": the value times 100 in fixed notation, then '%'. */
  function FormatPercent(x: real, places: nat): string
  {
    FormatFixed(x * 100.0, places) + "%"
  }

  /*
   * int() and float() on strings.
   */

  /** A digit string with single underscores between digits (PEP 515), as int() and float() accept. */
  predicate IsDigitPart(s: string)
  {
    |s| > 0 && IsDigit(s[0]) && IsDigit(s[|s| - 1])
    && (forall i :: 0 <= i < |s| ==> IsDigit(s[i]) || s[i] == '_')
    && (forall i :: 0 <= i < |s| - 1 ==> s[i] == '_' ==> s[i + 1] != '_')
  }

  /** The digits of s without its underscores. */
  function DigitsOnly(s: string): (r: string)
    ensures |r| <= |s|
  {
    if |s| == 0 then ""
    else DigitsOnly(s[..|s| - 1]) + (if IsDigit(s[|s| - 1]) then [s[|s| - 1]] else "")
  }

  /** Value of a decimal digit string; underscores are skipped. */
  function DigitsValue(s: string): nat
  {
    if |s| == 0 then 0
    else if IsDigit(s[|s| - 1]) then 10 * DigitsValue(s[..|s| - 1]) + DigitValue(s[|s| - 1])
    else DigitsValue(s[..|s| - 1])
  }

  /** str(n) reads back as n. */
  lemma {:induction false} NatToStringRoundTrip(n: nat)
    ensures DigitsValue(NatToString(n)) == n
    ensures IsDigitPart(NatToString(n))
    decreases n
  {
    if n >= 10 {
      NatToStringRoundTrip(n / 10);
      var s := NatToString(n / 10) + [DigitChar(n % 10)];
      assert s[..|s| - 1] == NatToString(n / 10);
    }
  }

  /** Leading zeros do not change the value of a digit string. */
  lemma {:induction false} ZerosValue(k: nat, s: string)
    ensures DigitsValue(Zeros(k) + s) == DigitsValue(s)
    decreases |s|, k
  {
    if |s| > 0 {
      var t := Zeros(k) + s;
      assert t[..|t| - 1] == Zeros(k) + s[..|s| - 1];
      assert t[|t| - 1] == s[|s| - 1];
      ZerosValue(k, s[..|s| - 1]);
    } else if k > 0 {
      assert Zeros(k) + s == Zeros(k);
      assert Zeros(k)[..k - 1] == Zeros(k - 1) by {
        ZerosAllZero(k);
        ZerosAllZero(k - 1);
      }
      assert Zeros(k)[k - 1] == '0' by { ZerosAllZero(k); }
      ZerosValue(k - 1, s);
      assert Zeros(k - 1) + s == Zeros(k - 1);
    }
  }

  lemma {:induction false} ZerosAllZero(k: nat)
    ensures forall i :: 0 <= i < k ==> Zeros(k)[i] == '0'
  {
    if k > 0 {
      ZerosAllZero(k - 1);
      assert Zeros(k) == "0" + Zeros(k - 1);
    }
  }

  /** f"{n:0{width}d}" of a natural number reads back as n, whatever the width. */
  lemma PadIntRoundTrip(n: nat, width: nat)
    ensures DigitsValue(PadInt(n, width)) == n
  {
    var digits := NatToString(n);
    var fill := if |digits| < width then width - |digits| else 0;
    assert PadInt(n, width) == Zeros(fill) + digits;
    ZerosValue(fill, digits);
    NatToStringRoundTrip(n);
  }

  /** Splits an optional leading '+' or '-' off s. */
  function SignOf(s: string): (bool, string)
  {
    if |s| > 0 && (s[0] == '-' || s[0] == '+') then (s[0] == '-', s[1..]) else (false, s)
  }

  /** int(s) for a string: surrounding whitespace, optional sign, decimal digits. */
  function ParseInt(s: string): (r: Option<int>)
    ensures r.Some? ==> IsDigitPart(SignOf(Strip(s)).1)
  {
    var (neg, body) := SignOf(Strip(s));
    if IsDigitPart(body) then
      var v: int := DigitsValue(body);
      Some(if neg then -v else v)
    else None
  }

  /** A string without surrounding whitespace is its own strip. */
  lemma StripOfTrimmed(s: string)
    requires |s| > 0 && !IsSpace(s[0]) && !IsSpace(s[|s| - 1])
    ensures Strip(s) == s
  {
    assert LStrip(s) == s;
    assert RStrip(s) == s;
  }

  /** A run of digits, with or without a leading '-', reads back as its value. */
  lemma ParseSignedDigits(d: string, neg: bool)
    requires IsDigitPart(d)
    ensures ParseInt(if neg then "-" + d else d) == Some(if neg then -(DigitsValue(d) as int) else DigitsValue(d))
  {
    var s := if neg then "-" + d else d;
    StripOfTrimmed(s);
    if neg {
      assert s[1..] == d;
      assert SignOf(s) == (true, d);
    } else {
      assert SignOf(s) == (false, d);
    }
  }

  /** str(n) reads back through int(). */
  lemma IntToStringParses(n: int)
    ensures ParseInt(IntToString(n)) == Some(n)
  {
    var m := if n < 0 then -n else n;
    NatToStringRoundTrip(m);
    ParseSignedDigits(NatToString(m), n < 0);
  }

  /** A float value as Python can produce it from a string. */
  datatype PyFloat = Finite(value: real) | Infinity(negative: bool) | NaN

  function IndexOf(s: string, c: char): (k: nat)
    ensures k <= |s|
    ensures k < |s| ==> s[k] == c
    ensures forall i :: 0 <= i < k ==> s[i] != c
  {
    if |s| == 0 then 0 else if s[0] == c then 0 else 1 + IndexOf(s[1..], c)
  }

  function IndexOfExponent(s: string): (k: nat)
    ensures k <= |s|
    ensures k < |s| ==> s[k] == 'e' || s[k] == 'E'
    ensures forall i :: 0 <= i < k ==> s[i] != 'e' && s[i] != 'E'
  {
    if |s| == 0 then 0 else if s[0] == 'e' || s[0] == 'E' then 0 else 1 + IndexOfExponent(s[1..])
  }

  /** 10^e as a real, for any integer exponent. */
  function Scale(e: int): (r: real)
    ensures r > 0.0
  {
    if e >= 0 then Pow10(e) as real else 1.0 / Pow10(-e) as real
  }

  /** An unsigned decimal literal: digits, optional '.' and fraction, optional exponent. */
  function ParseDecimal(b: string): Option<real>
  {
    var e := IndexOfExponent(b);
    var mant := b[..e];
    var exponent :=
      if e == |b| then Some(0)
      else
        var (eneg, edigits) := SignOf(b[e + 1..]);
        if IsDigitPart(edigits) then
          var v: int := DigitsValue(edigits);
          Some(if eneg then -v else v)
        else None;
    var dot := IndexOf(mant, '.');
    var intPart := mant[..dot];
    var fracPart := if dot < |mant| then mant[dot + 1..] else "";
    var intOk := intPart == "" || IsDigitPart(intPart);
    var fracOk := fracPart == "" || IsDigitPart(fracPart);
    if exponent.None? || !intOk || !fracOk || (intPart == "" && fracPart == "") then None
    else
      var mantissa := DigitsValue(intPart) as real
        + DigitsValue(fracPart) as real / Pow10(|DigitsOnly(fracPart)|) as real;
      Some(mantissa * Scale(exponent.value))
  }

  /** float(s) for a string, including inf, infinity and nan in any case. */
  function ParseFloat(s: string): Option<PyFloat>
  {
    var (neg, body) := SignOf(Strip(s));
    var lb := Lower(body);
    if lb == "inf" || lb == "infinity" then Some(Infinity(neg))
    else if lb == "nan" then Some(NaN)
    else
      match ParseDecimal(body)
      case None => None
      case Some(v) => Some(Finite(if neg then -v else v))
  }

  /** float(text) when it gives a finite number. */
  function FiniteValue(text: string): Option<real>
  {
    match ParseFloat(text)
    case Some(Finite(v)) => Some(v)
    case _ => None
  }

  /** A plain run of digits is a decimal literal with no fraction and no exponent. */
  lemma DecimalDigits(d: string)
    requires IsDigitPart(d)
    ensures ParseDecimal(d) == Some(DigitsValue(d) as real)
  {
    assert forall i :: 0 <= i < |d| ==> d[i] != 'e' && d[i] != 'E' && d[i] != '.';
    var e := IndexOfExponent(d);
    assert e == |d|;
    assert d[..e] == d;
    var dot := IndexOf(d, '.');
    assert dot == |d|;
    assert d[..dot] == d;
  }

  /** A plain run of digits reads through float() as its value. */
  lemma DigitsFloat(d: string)
    requires IsDigitPart(d)
    ensures FiniteValue(d) == Some(DigitsValue(d) as real)
  {
    StripOfTrimmed(d);
    assert SignOf(d) == (false, d);
    var lb := Lower(d);
    assert lb[0] == d[0];
    assert lb != "inf" && lb != "infinity" && lb != "nan" by {
      assert lb[0] != 'i' && lb[0] != 'n';
    }
    DecimalDigits(d);
  }
}
