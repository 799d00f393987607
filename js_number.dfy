/** JavaScript numbers as the front end uses them: amounts typed into forms, read with
    `parseFloat` or `Number`, compared with bounds and printed back with `String(n)`.
    A number is an exact decimal `units / 10^scale` in lowest terms; binary64 rounding,
    `Infinity`, `-0` and non-decimal literals are outside the model. */
module JsNumber {
  import opened Wrappers
  import opened JsText

  function Pow10(n: nat): (p: nat)
    ensures p >= 1
  {
    if n == 0 then 1 else 10 * Pow10(n - 1)
  }

  /** `units / 10^scale`. */
  datatype Decimal = Decimal(units: int, scale: nat)

  /** Lowest terms: no trailing zero digit after the decimal point. */
  predicate Normalized(d: Decimal)
  {
    d.scale == 0 || d.units % 10 != 0
  }

  /** A finite JavaScript number; equal numbers have equal representations. */
  type Number = d: Decimal | Normalized(d) witness Decimal(0, 0)

  /** The lowest-terms form of `d`: the same number with the trailing zero digits of
      its fraction dropped. */
  function Normalize(d: Decimal): (r: Number)
    ensures r.scale <= d.scale
    ensures d.units == r.units * Pow10(d.scale - r.scale)
    decreases d.scale
  {
    if d.scale > 0 && d.units % 10 == 0 then
      var r := Normalize(Decimal(d.units / 10, d.scale - 1));
      MultiplyByTen(r.units, Pow10(d.scale - 1 - r.scale));
      r
    else d
  }

  lemma MultiplyByTen(x: int, y: int)
    ensures x * (10 * y) == 10 * (x * y)
  {
  }

  lemma NormalizeOfNormalized(n: Number)
    ensures Normalize(n) == n
  {
  }

  function Negate(d: Decimal): (r: Decimal)
    ensures r.scale == d.scale && r.units == -d.units
  {
    Decimal(-d.units, d.scale)
  }

  /** `x * 10^e` for an exponent `e` read from an `e`/`E` suffix. */
  function ApplyExponent(d: Decimal, e: int): (r: Decimal)
    ensures e == 0 ==> r == d
  {
    if e < 0 then Decimal(d.units, d.scale + -e)
    else if e <= d.scale then Decimal(d.units, d.scale - e)
    else Decimal(d.units * Pow10(e - d.scale), 0)
  }

  /** The digits of a mantissa (integer and fraction digits run together), how many of
      them follow the decimal point and how many characters it occupies. */
  datatype Mantissa = Mantissa(digits: string, fractionDigits: nat, length: nat)

  /** Reads `digits [ '.' digits ]` from the front of `u`. */
  function ScanMantissa(u: string): (m: Mantissa)
    ensures AllDigits(m.digits) && m.fractionDigits <= |m.digits|
    ensures m.length <= |u|
  {
    var a := DigitRun(u);
    if a < |u| && u[a] == '.' then
      var f := DigitRun(u[a + 1..]);
      Mantissa(u[..a] + u[a + 1..][..f], f, a + 1 + f)
    else Mantissa(u[..a], 0, a)
  }

  /** Reads an exponent `('e' | 'E') [ '+' | '-' ] digits` from the front of `u`; when no
      well-formed exponent is there nothing is consumed and the exponent is 0. */
  function ScanExponent(u: string): (r: (int, nat))
    ensures r.1 <= |u|
    ensures r.1 == 0 ==> r.0 == 0
  {
    if |u| == 0 || (u[0] != 'e' && u[0] != 'E') then (0, 0)
    else
      var rest := u[1..];
      var signed := |rest| > 0 && (rest[0] == '+' || rest[0] == '-');
      var digits := if signed then rest[1..] else rest;
      var k := DigitRun(digits);
      if k == 0 then (0, 0)
      else
        var v: int := DigitsValue(digits[..k]);
        ((if signed && rest[0] == '-' then -v else v), 1 + (if signed then 1 else 0) + k)
  }

  /** An unsigned decimal literal at the front of `u` and its length; `None` when the
      mantissa has no digit at all. */
  function ScanUnsigned(u: string): (r: Option<(Decimal, nat)>)
    ensures r.Some? ==> 0 < r.value.1 <= |u|
  {
    var m := ScanMantissa(u);
    if |m.digits| == 0 then None
    else
      var (e, el) := ScanExponent(u[m.length..]);
      var d := ApplyExponent(Decimal(DigitsValue(m.digits), m.fractionDigits), e);
      Some((d, m.length + el))
  }

  /** A decimal literal with an optional sign at the front of `t` and its length. */
  function ScanSigned(t: string): (r: Option<(Decimal, nat)>)
    ensures r.Some? ==> 0 < r.value.1 <= |t|
  {
    if |t| > 0 && (t[0] == '+' || t[0] == '-') then
      match ScanUnsigned(t[1..])
      case None => None
      case Some((d, k)) => Some((if t[0] == '-' then Negate(d) else d, k + 1))
    else ScanUnsigned(t)
  }

  /** `parseFloat(s)`: the longest decimal literal after the leading white space;
      `None` stands for `NaN`. */
  function ParseFloat(s: string): Option<Number>
  {
    match ScanSigned(TrimStart(s))
    case None => None
    case Some((d, _)) => Some(Normalize(d))
  }

  /** `Number(s)` (and so `isNaN(s)` on a string): the trimmed string must be one decimal
      literal as a whole, and a blank string is 0; `None` stands for `NaN`. */
  function ToNumber(s: string): Option<Number>
  {
    var t := Trim(s);
    if t == [] then Some(Decimal(0, 0))
    else
      match ScanSigned(t)
      case Some((d, k)) => if k == |t| then Some(Normalize(d)) else None
      case None => None
  }

  /** `a / 10^k`, rounded down, one decimal digit at a time. */
  function Quot(a: nat, k: nat): nat
  {
    if k == 0 then a else Quot(a / 10, k - 1)
  }

  /** `a % 10^k`: the last `k` decimal digits of `a`. */
  function Rem(a: nat, k: nat): nat
  {
    if k == 0 then 0 else a % 10 + 10 * Rem(a / 10, k - 1)
  }

  /** `Quot` and `Rem` are the quotient and remainder of division by `10^k`. */
  lemma {:induction false} QuotRem(a: nat, k: nat)
    ensures a == Quot(a, k) * Pow10(k) + Rem(a, k)
    ensures Rem(a, k) < Pow10(k)
  {
    if k > 0 {
      var q', r', p' := Quot(a / 10, k - 1), Rem(a / 10, k - 1), Pow10(k - 1);
      QuotRem(a / 10, k - 1);
      assert Quot(a, k) == q' && Rem(a, k) == a % 10 + 10 * r' && Pow10(k) == 10 * p';
      MultiplyByTen(q', p');
    }
  }

  /** `n` written with `scale` digits, padded on the left with zeros. */
  function PadDigits(n: nat, width: nat): (r: string)
    ensures AllDigits(r)
    ensures |NatToString(n)| <= width ==> |r| == width
  {
    var s := NatToString(n);
    if |s| >= width then s else seq(width - |s|, _ => '0') + s
  }

  /** `|n|` as a natural number of units. */
  function Magnitude(d: Decimal): nat
  {
    if d.units < 0 then -d.units else d.units
  }

  /** `a / 10^scale` written out: the integer digits without leading zeros and, when
      `scale > 0`, a point and exactly `scale` fraction digits. */
  function UnsignedToString(a: nat, scale: nat): (r: string)
    ensures r != [] && IsDigit(r[0])
  {
    if scale == 0 then NatToString(a)
    else NatToString(Quot(a, scale)) + "." + PadDigits(Rem(a, scale), scale)
  }

  /** `String(n)` for a number: an optional minus sign, the integer digits without
      leading zeros and, when the number is not an integer, a point and its fraction
      digits without trailing zeros (those are gone because `n` is in lowest terms). */
  function NumberToString(n: Number): (r: string)
    ensures |r| >= 1
  {
    (if n.units < 0 then "-" else "") + UnsignedToString(Magnitude(n), n.scale)
  }

  /** `x <= 0` for a number `x`. */
  predicate AtMostZero(n: Number) { n.units <= 0 }

  /** `x > b` for a number `x` and an integer bound `b`. */
  predicate GreaterThanInt(n: Number, b: int) { n.units > b * Pow10(n.scale) }

  /** `x < b` for a number `x` and an integer bound `b`. */
  predicate LessThanInt(n: Number, b: int) { n.units < b * Pow10(n.scale) }

  /** The integer part of a number, rounded toward zero. */
  function Truncate(n: Number): int
  {
    if n.units < 0 then -(Quot(Magnitude(n), n.scale) as int) else Quot(Magnitude(n), n.scale)
  }

  function FromInt(i: int): (n: Number)
    ensures n.scale == 0 && n.units == i
  {
    Decimal(i, 0)
  }

  // ---------------------------------------------------------------------------------
  // Round trip: parseFloat(String(n)) === n.

  lemma {:induction false} DigitsValueAppend(a: string, b: string)
    requires AllDigits(a) && AllDigits(b)
    ensures AllDigits(a + b)
    ensures DigitsValue(a + b) == DigitsValue(a) * Pow10(|b|) + DigitsValue(b)
    decreases |b|
  {
    assert AllDigits(a + b) by {
      forall i | 0 <= i < |a + b| ensures IsDigit((a + b)[i]) {
        if i >= |a| { assert (a + b)[i] == b[i - |a|]; }
      }
    }
    if b == [] {
      assert a + b == a;
    } else {
      var b' := b[..|b| - 1];
      var c := b[|b| - 1];
      assert (a + b)[..|a + b| - 1] == a + b';
      assert AllDigits(b');
      DigitsValueAppend(a, b');
      var va, p' := DigitsValue(a), Pow10(|b'|);
      assert DigitsValue(a + b) == DigitsValue(a + b') * 10 + DigitValue(c);
      assert DigitsValue(b) == DigitsValue(b') * 10 + DigitValue(c);
      MultiplyByTen(va, p');
    }
  }

  lemma {:induction false} DigitsValueOfZeros(k: nat)
    ensures AllDigits(seq(k, _ => '0'))
    ensures DigitsValue(seq(k, _ => '0')) == 0
  {
    var z := seq(k, _ => '0');
    if k > 0 {
      assert z[..k - 1] == seq(k - 1, _ => '0');
      DigitsValueOfZeros(k - 1);
    }
  }

  lemma PadDigitsValue(n: nat, width: nat)
    ensures DigitsValue(PadDigits(n, width)) == n
  {
    var s := NatToString(n);
    DigitsValueOfNatToString(n);
    if |s| < width {
      var z := seq(width - |s|, _ => '0');
      assert PadDigits(n, width) == z + s;
      DigitsValueOfZeros(width - |s|);
      AppendValue(z, s, 0, n);
    }
  }

  lemma {:induction false} NatToStringLength(n: nat, k: nat)
    requires n < Pow10(k)
    ensures |NatToString(n)| <= k || (k == 0 && |NatToString(n)| == 1)
  {
    if n >= 10 {
      assert k >= 2;
      assert n / 10 < Pow10(k - 1);
      NatToStringLength(n / 10, k - 1);
    }
  }

  lemma UnsignedToStringShape(a: nat, scale: nat)
    requires scale > 0
    ensures |PadDigits(Rem(a, scale), scale)| == scale
  {
    QuotRem(a, scale);
    NatToStringLength(Rem(a, scale), scale);
  }

  lemma ScanExponentOfEmpty()
    ensures ScanExponent([]) == (0, 0)
  {
  }

  /** Reading `ip` with nothing after it. */
  lemma ScanUnsignedOfInteger(ip: string)
    requires ip != [] && AllDigits(ip)
    ensures ScanUnsigned(ip) == Some((Decimal(DigitsValue(ip), 0), |ip|))
  {
    DigitRunOfDigits(ip, []);
    assert ip + [] == ip;
    assert ip[..|ip|] == ip;
    assert ip[|ip|..] == [];
  }

  lemma ScanMantissaOfFraction(ip: string, fp: string)
    requires ip != [] && AllDigits(ip) && AllDigits(fp)
    ensures ScanMantissa(ip + "." + fp) == Mantissa(ip + fp, |fp|, |ip| + 1 + |fp|)
  {
    var u := ip + "." + fp;
    DigitRunOfDigits(ip, "." + fp);
    assert u == ip + ("." + fp);
    assert u[..|ip|] == ip;
    assert u[|ip|] == '.';
    assert u[|ip| + 1..] == fp;
    DigitRunOfDigits(fp, []);
    assert fp + [] == fp;
    assert fp[..|fp|] == fp;
  }

  /** Reading `ip.fp` with nothing after it. */
  lemma ScanUnsignedOfFraction(u: string, ip: string, fp: string)
    requires ip != [] && AllDigits(ip) && AllDigits(fp) && u == ip + "." + fp
    ensures AllDigits(ip + fp)
    ensures ScanUnsigned(u) == Some((Decimal(DigitsValue(ip + fp), |fp|), |u|))
  {
    ScanMantissaOfFraction(ip, fp);
    DigitsValueAppend(ip, fp);
    ScanUnsignedOfWholeMantissa(u);
  }

  /** A literal whose mantissa fills the whole string has no exponent. */
  lemma ScanUnsignedOfWholeMantissa(u: string)
    requires |ScanMantissa(u).digits| > 0 && ScanMantissa(u).length == |u|
    ensures var m := ScanMantissa(u);
            ScanUnsigned(u) == Some((Decimal(DigitsValue(m.digits), m.fractionDigits), |u|))
  {
    assert u[|u|..] == [];
    ScanExponentOfEmpty();
  }

  lemma ScanSignedOfMinus(u: string, d: Decimal, k: nat)
    requires ScanUnsigned(u) == Some((d, k))
    ensures ScanSigned("-" + u) == Some((Negate(d), k + 1))
  {
    assert ("-" + u)[1..] == u;
  }

  lemma ScanSignedOfDigit(u: string)
    requires u != [] && IsDigit(u[0])
    ensures ScanSigned(u) == ScanUnsigned(u)
  {
  }

  /** The unsigned part of `String(n)` reads back as `|n|` with the same scale. */
  lemma ScanUnsignedToString(a: nat, scale: nat)
    ensures ScanUnsigned(UnsignedToString(a, scale)) == Some((Decimal(a, scale), |UnsignedToString(a, scale)|))
  {
    if scale == 0 {
      DigitsValueOfNatToString(a);
      ScanUnsignedOfInteger(NatToString(a));
    } else {
      ScanUnsignedOfFractionString(a, scale);
    }
  }

  lemma ScanUnsignedOfFractionString(a: nat, scale: nat)
    requires scale > 0
    ensures ScanUnsigned(UnsignedToString(a, scale)) == Some((Decimal(a, scale), |UnsignedToString(a, scale)|))
  {
    var u := UnsignedToString(a, scale);
    var ip := NatToString(Quot(a, scale));
    var fp := PadDigits(Rem(a, scale), scale);
    assert u == ip + "." + fp;
    UnsignedToStringShape(a, scale);
    ScanUnsignedOfFraction(u, ip, fp);
    FractionDigitsValue(a, scale);
  }

  lemma FractionDigitsValue(a: nat, scale: nat)
    requires scale > 0
    ensures DigitsValue(NatToString(Quot(a, scale)) + PadDigits(Rem(a, scale), scale)) == a
  {
    var p := Pow10(scale);
    var q, r := Quot(a, scale), Rem(a, scale);
    var ip := NatToString(q);
    var fp := PadDigits(r, scale);
    UnsignedToStringShape(a, scale);
    DigitsValueOfNatToString(q);
    PadDigitsValue(r, scale);
    AppendValue(ip, fp, q, r);
    QuotRem(a, scale);
  }

  lemma AppendValue(ip: string, fp: string, q: nat, r: nat)
    requires AllDigits(ip) && AllDigits(fp) && DigitsValue(ip) == q && DigitsValue(fp) == r
    ensures DigitsValue(ip + fp) == q * Pow10(|fp|) + r
  {
    DigitsValueAppend(ip, fp);
  }

  /** `parseFloat(String(n)) === n` for every number in the model. */
  lemma ParseFloatOfNumberToString(n: Number)
    ensures ParseFloat(NumberToString(n)) == Some(n)
  {
    var s := NumberToString(n);
    var body := UnsignedToString(Magnitude(n), n.scale);
    ScanUnsignedToString(Magnitude(n), n.scale);
    TrimStartOfNonBlank(s);
    if n.units < 0 {
      assert s == "-" + body;
      ScanSignedOfMinus(body, Decimal(Magnitude(n), n.scale), |body|);
      assert Negate(Decimal(Magnitude(n), n.scale)) == n;
    } else {
      assert s == body;
      ScanSignedOfDigit(body);
    }
    NormalizeOfNormalized(n);
  }

  // ---------------------------------------------------------------------------------
  // parseInt(String(n), 10) is the integer part of n.

  /** Digits followed by something that is not a digit parse to the digits' value. */
  lemma ParseDigitsOfPrefix(ds: string, rest: string)
    requires ds != [] && AllDigits(ds)
    requires rest == [] || !IsDigit(rest[0])
    ensures ParseDigits(ds + rest) == Some(DigitsValue(ds))
  {
    DigitRunOfDigits(ds, rest);
    assert (ds + rest)[..|ds|] == ds;
  }

  /** The unsigned form of a number starts with the digits of its integer part and then
      has nothing or a point. */
  lemma ParseDigitsOfUnsigned(a: nat, scale: nat)
    ensures ParseDigits(UnsignedToString(a, scale)) == Some(Quot(a, scale))
  {
    var q := Quot(a, scale);
    var ds := NatToString(q);
    DigitsValueOfNatToString(q);
    if scale == 0 {
      ParseDigitsOfPrefix(ds, []);
      assert ds + [] == ds;
    } else {
      var rest := "." + PadDigits(Rem(a, scale), scale);
      assert UnsignedToString(a, scale) == ds + rest;
      ParseDigitsOfPrefix(ds, rest);
    }
  }

  /** A string starting with its digit run parses, with or without a minus sign in
      front, to that run's value. */
  lemma ParseIntOfDigitLed(u: string, q: nat)
    requires u != [] && IsDigit(u[0]) && ParseDigits(u) == Some(q)
    ensures ParseInt(u) == Some(q)
    ensures ParseInt("-" + u) == Some(-(q as int))
  {
    TrimStartOfNonBlank(u);
    ParseSignedOfDigits(u);
    var s := "-" + u;
    assert s[0] == '-' && s[1..] == u;
    TrimStartOfNonBlank(s);
    ParseSignedOfMinus(s, q);
  }

  /** `parseInt(String(n), 10)` is `n` rounded toward zero. */
  lemma ParseIntOfNumberToString(n: Number)
    ensures ParseInt(NumberToString(n)) == Some(Truncate(n))
  {
    var u := UnsignedToString(Magnitude(n), n.scale);
    ParseDigitsOfUnsigned(Magnitude(n), n.scale);
    ParseIntOfDigitLed(u, Quot(Magnitude(n), n.scale));
    if n.units < 0 {
      assert NumberToString(n) == "-" + u;
    } else {
      assert NumberToString(n) == u;
    }
  }
}
