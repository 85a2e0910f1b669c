/**
 * Python floats read from decimal text. A value is kept exactly as
 * `mantissa / 10^scale`; `float(s)`, `int(x)` of a float and `str(x)` of a
 * float are modelled on that representation.
 */
module Decimals {
  import opened Wrappers
  import opened Text

  datatype Decimal = Decimal(mantissa: int, scale: nat)

  function Pow10(n: nat): (r: nat)
    ensures r >= 1
  {
    if n == 0 then 1 else 10 * Pow10(n - 1)
  }

  function Value(d: Decimal): real
  {
    d.mantissa as real / Pow10(d.scale) as real
  }

  function FromInt(i: int): (d: Decimal)
    ensures Value(d) == i as real
  {
    Decimal(i, 0)
  }

  function Abs(i: int): nat { if i < 0 then -i else i }

  /**
   * `int(x)` of a float: truncation toward zero. The result is the integer
   * part of the magnitude, with the sign of the value.
   */
  function Trunc(d: Decimal): (r: int)
    ensures Abs(r) * Pow10(d.scale) <= Abs(d.mantissa) < (Abs(r) + 1) * Pow10(d.scale)
    ensures r != 0 ==> (r < 0 <==> d.mantissa < 0)
  {
    var q: int := Quotient(Abs(d.mantissa), Pow10(d.scale));
    if d.mantissa >= 0 then q else -q
  }

  /** Integer division of naturals, with its defining bounds. */
  function Quotient(m: nat, p: nat): (q: nat)
    requires p >= 1
    ensures q * p <= m < (q + 1) * p
    decreases m
  {
    if m < p then 0 else 1 + Quotient(m - p, p)
  }

  /** The remainder that goes with `Quotient`. */
  function Remainder(m: nat, p: nat): (r: nat)
    requires p >= 1
    ensures r < p && m == Quotient(m, p) * p + r
    decreases m
  {
    if m < p then m else Remainder(m - p, p)
  }

  lemma QuotientByOne(m: nat)
    ensures Quotient(m, 1) == m
  {
  }

  // ---------------------------------------------------------------------

  // ---------------------------------------------------------------------
  // float(s)
  // ---------------------------------------------------------------------

  /** Digits with at most one '.', and at least one digit: `12`, `1.5`, `.5`, `3.` */
  function ParseUnsigned(b: string): (r: Option<Decimal>)
    ensures r.Some? ==> r.value.mantissa >= 0
  {
    var k := IndexWhere(b, c => c == '.');
    if k == |b| then
      (if |b| > 0 && AllDigits(b) then Some(Decimal(DigitsValue(b), 0)) else None)
    else
      var ip, fp := b[..k], b[k + 1..];
      if |ip| + |fp| > 0 && AllDigits(ip) && AllDigits(fp) then
        AllDigitsAppend(ip, fp);
        Some(Decimal(DigitsValue(ip + fp), |fp|))
      else None
  }

  /**
   * `float(s)` for plain decimal text: surrounding white space is ignored and
   * an optional sign precedes the digits. Anything else is a ValueError,
   * here None.
   */
  function ParseFloat(s: string): Option<Decimal>
  {
    var t := Strip(s);
    if |t| > 0 && (t[0] == '-' || t[0] == '+') then
      match ParseUnsigned(t[1..])
      case None => None
      case Some(d) => Some(if t[0] == '-' then Decimal(-d.mantissa, d.scale) else d)
    else ParseUnsigned(t)
  }

  // ---------------------------------------------------------------------
  // str(x)
  // ---------------------------------------------------------------------

  /** Drops trailing zeros of the fraction. */
  function Normalize(d: Decimal): (n: Decimal)
    ensures n.scale <= d.scale
    ensures n.scale > 0 ==> n.mantissa % 10 != 0
    decreases d.scale
  {
    if d.scale > 0 && d.mantissa % 10 == 0 then Normalize(Decimal(d.mantissa / 10, d.scale - 1))
    else d
  }

  /** Dropping trailing zeros does not change the number. */
  lemma {:induction false} NormalizeValue(d: Decimal)
    ensures Value(Normalize(d)) == Value(d)
    decreases d.scale
  {
    if d.scale > 0 && d.mantissa % 10 == 0 {
      var m := d.mantissa / 10;
      assert d.mantissa == m * 10;
      ScaleDown(m, d.scale - 1);
      NormalizeValue(Decimal(m, d.scale - 1));
    }
  }

  lemma ScaleDown(m: int, s: nat)
    ensures Value(Decimal(m * 10, s + 1)) == Value(Decimal(m, s))
  {
    var p := Pow10(s) as real;
    assert Pow10(s + 1) as real == 10.0 * p;
    assert (m * 10) as real == 10.0 * (m as real);
  }

  function PadLeft(s: string, width: nat): (r: string)
    ensures |r| == if |s| < width then width else |s|
    ensures r == Zeros(|r| - |s|) + s
  {
    Zeros(if |s| < width then width - |s| else 0) + s
  }

  function Zeros(n: nat): (r: string)
    ensures |r| == n && AllDigits(r)
  {
    seq(n, i => '0')
  }

  /**
   * `str(x)` of a float: the shortest decimal, with at least one digit after
   * the point (`2.0`, `0.5`, `-1.25`).
   */
  function Repr(d: Decimal): string
  {
    var n := Normalize(d);
    (if n.mantissa < 0 then "-" else "") + Unsigned(Abs(n.mantissa), Pow10(n.scale), n.scale)
  }

  /**
   * The floats `str` writes without an exponent: zero, and magnitudes from
   * 1e-4 up to but excluding 1e16.
   */
  predicate Positional(d: Decimal)
  {
    d.mantissa == 0 || (0.0001 <= (if d.mantissa < 0 then -Value(d) else Value(d)) < 10000000000000000.0)
  }

  /** `a / p` written with `scale` fraction digits, where `p` is `10^scale`. */
  function Unsigned(a: nat, p: nat, scale: nat): string
    requires p >= 1
  {
    NatToString(Quotient(a, p)) + "." + (if scale == 0 then "0" else PadLeft(NatToString(Remainder(a, p)), scale))
  }

  // ---------------------------------------------------------------------
  // lemmas
  // ---------------------------------------------------------------------

  lemma AllDigitsAppend(x: string, y: string)
    requires AllDigits(x) && AllDigits(y)
    ensures AllDigits(x + y)
  {
    assert forall i :: 0 <= i < |x + y| ==> (x + y)[i] == if i < |x| then x[i] else y[i - |x|];
  }

  /** Appending one digit to both sides of `x * p + y`. */
  lemma ShiftDigit(x: int, p: int, y: int, d: int)
    ensures (x * p + y) * 10 + d == x * (p * 10) + (y * 10 + d)
  {
  }

  /** The value of a digit string split in two. */
  lemma {:induction false} DigitsValueAppend(x: string, y: string)
    requires AllDigits(x) && AllDigits(y)
    ensures AllDigits(x + y)
    ensures DigitsValue(x + y) == DigitsValue(x) * Pow10(|y|) + DigitsValue(y)
    decreases |y|
  {
    AllDigitsAppend(x, y);
    if |y| == 0 {
      assert x + y == x;
    } else {
      var y' := y[..|y| - 1];
      var d := DigitValue(y[|y| - 1]);
      DigitsValueAppend(x, y');
      assert (x + y)[..|x + y| - 1] == x + y';
      assert (x + y)[|x + y| - 1] == y[|y| - 1];
      assert DigitsValue(x + y) == DigitsValue(x + y') * 10 + d;
      assert DigitsValue(y) == DigitsValue(y') * 10 + d;
      assert Pow10(|y|) == Pow10(|y'|) * 10;
      ShiftDigit(DigitsValue(x), Pow10(|y'|), DigitsValue(y'), d);
    }
  }

  lemma {:induction false} ZerosValue(n: nat)
    ensures DigitsValue(Zeros(n)) == 0
  {
    if n > 0 {
      assert Zeros(n)[..n - 1] == Zeros(n - 1);
      ZerosValue(n - 1);
    }
  }

  /** A number below 10^k has at most k digits. */
  lemma {:induction false} NatToStringLength(n: nat, k: nat)
    requires 1 <= k && n < Pow10(k)
    ensures |NatToString(n)| <= k
  {
    if n >= 10 {
      NatToStringLength(n / 10, k - 1);
    }
  }

  /** Digits, a point and digits are read as one digit string with that many fraction digits. */
  lemma ParseUnsignedDotted(ip: string, fp: string)
    requires AllDigits(ip) && AllDigits(fp) && |fp| > 0
    ensures AllDigits(ip + fp)
    ensures ParseUnsigned(ip + "." + fp) == Some(Decimal(DigitsValue(ip + fp), |fp|))
  {
    AllDigitsAppend(ip, fp);
    var body := ip + "." + fp;
    var isDot: char -> bool := c => c == '.';
    forall i | 0 <= i < |ip| ensures !isDot(body[i]) {
      assert body[i] == ip[i];
    }
    IndexWhereAt(body, isDot, |ip|);
    assert body[..|ip|] == ip && body[|ip| + 1..] == fp;
  }

  /** The fraction digits, zero-padded to `scale`, have the value of the remainder. */
  lemma FractionDigits(r: nat, scale: nat)
    requires scale > 0 && r < Pow10(scale)
    ensures |PadLeft(NatToString(r), scale)| == scale
    ensures AllDigits(PadLeft(NatToString(r), scale))
    ensures DigitsValue(PadLeft(NatToString(r), scale)) == r
  {
    var t := NatToString(r);
    NatToStringLength(r, scale);
    var z := Zeros(scale - |t|);
    assert PadLeft(t, scale) == z + t;
    DigitsValueAppend(z, t);
    ZerosValue(|z|);
    DigitsValueOfNatToString(r);
  }

  /** The unsigned rendering is read back as the same digits and scale. */
  lemma ParseUnsignedOfUnsigned(a: nat, p: nat, scale: nat)
    requires p == Pow10(scale)
    ensures var u := Unsigned(a, p, scale);
      |u| > 0 && IsDigit(u[0]) && IsDigit(u[|u| - 1])
      && ParseUnsigned(u) == Some(if scale == 0 then Decimal(a * 10, 1) else Decimal(a, scale))
  {
    if scale == 0 {
      ParseUnsignedWhole(a);
    } else {
      ParseUnsignedFraction(a, p, scale);
    }
  }

  lemma ParseUnsignedWhole(a: nat)
    ensures var u := Unsigned(a, 1, 0);
      |u| > 0 && IsDigit(u[0]) && IsDigit(u[|u| - 1]) && ParseUnsigned(u) == Some(Decimal(a * 10, 1))
  {
    var ip := NatToString(a);
    UnsignedWholeText(a);
    DigitsValueOfNatToString(a);
    ParseWholeDigits(ip);
  }

  /** Digits followed by `.0` read as ten times their value with one fraction digit. */
  lemma ParseWholeDigits(ip: string)
    requires |ip| > 0 && AllDigits(ip)
    ensures var u := ip + "." + "0";
      |u| > 0 && IsDigit(u[0]) && IsDigit(u[|u| - 1]) && ParseUnsigned(u) == Some(Decimal(DigitsValue(ip) * 10, 1))
  {
    ParseUnsignedDotted(ip, "0");
    DigitsValueAppend(ip, "0");
    assert DigitsValue("0") == 0 && Pow10(1) == 10;
  }

  lemma UnsignedWholeText(a: nat)
    ensures Unsigned(a, 1, 0) == NatToString(a) + "." + "0"
  {
    QuotientByOne(a);
  }

  lemma ParseUnsignedFraction(a: nat, p: nat, scale: nat)
    requires scale > 0 && p == Pow10(scale)
    ensures var u := Unsigned(a, p, scale);
      |u| > 0 && IsDigit(u[0]) && IsDigit(u[|u| - 1]) && ParseUnsigned(u) == Some(Decimal(a, scale))
  {
    var q, rem := Quotient(a, p), Remainder(a, p);
    var ip := NatToString(q);
    DigitsValueOfNatToString(q);
    FractionDigits(rem, scale);
    var fp := PadLeft(NatToString(rem), scale);
    ParseUnsignedDotted(ip, fp);
    DigitsValueAppend(ip, fp);
    assert DigitsValue(ip + fp) == a;
    assert Unsigned(a, p, scale) == ip + "." + fp;
  }

  /** Reading back `str(x)` with `float()` gives the same number. */
  lemma ParseFloatOfRepr(d: Decimal)
    ensures ParseFloat(Repr(d)).Some?
    ensures Value(ParseFloat(Repr(d)).value) == Value(d)
  {
    var n := Normalize(d);
    NormalizeValue(d);
    var a := Abs(n.mantissa);
    var u := if n.scale == 0 then Decimal(a * 10, 1) else Decimal(a, n.scale);
    var signed := if n.mantissa < 0 then Decimal(-u.mantissa, u.scale) else u;
    NormalizeTwice(d);
    ReprDigits(n, a, u, signed);
    SignedValue(n, a, u, signed);
  }

  lemma ReprDigits(n: Decimal, a: nat, u: Decimal, signed: Decimal)
    requires n.scale > 0 ==> n.mantissa % 10 != 0
    requires a == Abs(n.mantissa)
    requires u == if n.scale == 0 then Decimal(a * 10, 1) else Decimal(a, n.scale)
    requires signed == if n.mantissa < 0 then Decimal(-u.mantissa, u.scale) else u
    ensures ParseFloat(Repr(n)) == Some(signed)
  {
    NormalizeNoop(n);
    var p := Pow10(n.scale);
    var body := Unsigned(a, p, n.scale);
    ParseUnsignedOfUnsigned(a, p, n.scale);
    assert Repr(n) == (if n.mantissa < 0 then "-" else "") + body;
    ParseSigned(body, u, n.mantissa < 0);
  }

  /** An optional minus sign before unsigned digits negates what they read as. */
  lemma ParseSigned(body: string, u: Decimal, negative: bool)
    requires |body| > 0 && IsDigit(body[0]) && IsDigit(body[|body| - 1])
    requires ParseUnsigned(body) == Some(u)
    ensures ParseFloat((if negative then "-" else "") + body)
      == Some(if negative then Decimal(-u.mantissa, u.scale) else u)
  {
    if negative {
      ParseNegative(body, u);
    } else {
      assert "" + body == body;
      ParseNonNegative(body, u);
    }
  }

  lemma ParseNegative(body: string, u: Decimal)
    requires |body| > 0 && IsDigit(body[0]) && IsDigit(body[|body| - 1])
    requires ParseUnsigned(body) == Some(u)
    ensures ParseFloat("-" + body) == Some(Decimal(-u.mantissa, u.scale))
  {
    StripNegativeText(body);
    ParseStrippedNegative(body, u);
  }

  lemma ParseNonNegative(body: string, u: Decimal)
    requires |body| > 0 && IsDigit(body[0]) && IsDigit(body[|body| - 1])
    requires ParseUnsigned(body) == Some(u)
    ensures ParseFloat(body) == Some(u)
  {
    StripDigitText(body);
    ParseStripped(body, u);
  }

  lemma ParseStrippedNegative(body: string, u: Decimal)
    requires |body| > 0 && IsDigit(body[0]) && Strip("-" + body) == "-" + body
    requires ParseUnsigned(body) == Some(u)
    ensures ParseFloat("-" + body) == Some(Decimal(-u.mantissa, u.scale))
  {
    var r := "-" + body;
    assert r[1..] == body;
  }

  lemma ParseStripped(body: string, u: Decimal)
    requires |body| > 0 && IsDigit(body[0]) && Strip(body) == body
    requires ParseUnsigned(body) == Some(u)
    ensures ParseFloat(body) == Some(u)
  {
  }

  lemma NormalizeTwice(d: Decimal)
    ensures Repr(Normalize(d)) == Repr(d)
  {
    NormalizeNoop(Normalize(d));
  }

  lemma NormalizeNoop(n: Decimal)
    requires n.scale > 0 ==> n.mantissa % 10 != 0
    ensures Normalize(n) == n
  {
  }

  lemma SignedValue(n: Decimal, a: nat, u: Decimal, signed: Decimal)
    requires a == Abs(n.mantissa)
    requires u == if n.scale == 0 then Decimal(a * 10, 1) else Decimal(a, n.scale)
    requires signed == if n.mantissa < 0 then Decimal(-u.mantissa, u.scale) else u
    ensures Value(signed) == Value(n)
  {
    if n.scale == 0 {
      ScaleDown(n.mantissa, 0);
      assert signed == Decimal(n.mantissa * 10, 1);
    } else {
      assert signed == n;
    }
  }
  /** Dropping trailing zeros keeps the sign of the digits. */
  lemma {:induction false} NormalizeNonNegative(d: Decimal)
    requires d.mantissa >= 0
    ensures Normalize(d).mantissa >= 0
    decreases d.scale
  {
    if d.scale > 0 && d.mantissa % 10 == 0 {
      NormalizeNonNegative(Decimal(d.mantissa / 10, d.scale - 1));
    }
  }

  /** `str(x)` of a number that is not negative is digits, a point and digits. */
  lemma ReprParts(d: Decimal) returns (ip: string, fp: string)
    requires d.mantissa >= 0
    ensures Repr(d) == ip + "." + fp
    ensures |ip| > 0 && AllDigits(ip) && |fp| > 0 && AllDigits(fp)
  {
    var n := Normalize(d);
    NormalizeNonNegative(d);
    var p := Pow10(n.scale);
    ip := NatToString(Quotient(n.mantissa, p));
    if n.scale == 0 {
      fp := "0";
    } else {
      FractionDigits(Remainder(n.mantissa, p), n.scale);
      fp := PadLeft(NatToString(Remainder(n.mantissa, p)), n.scale);
    }
    assert Repr(d) == "" + Unsigned(n.mantissa, p, n.scale);
  }

  /** The digits of `str(x)`, for a number that is not negative, read back as the number. */
  lemma ParseUnsignedOfRepr(d: Decimal)
    requires d.mantissa >= 0
    ensures ParseUnsigned(Repr(d)).Some?
    ensures Value(ParseUnsigned(Repr(d)).value) == Value(d)
  {
    var ip, fp := ReprParts(d);
    ParseUnsignedDotted(ip, fp);
    var u := ParseUnsigned(Repr(d)).value;
    assert Repr(d)[0] == ip[0];
    ParseNonNegative(Repr(d), u);
    ParseFloatOfRepr(d);
  }
}
