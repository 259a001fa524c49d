/**
 * Exact decimal numbers, their digit strings and the decimal-literal scanner shared
 * by the JavaScript and the Python parts of the model. A number is `mant / 10^exp`;
 * the canonical form has no trailing zero in `mant` unless `exp` is 0, so two
 * canonical numbers with the same value are the same datatype value.
 */
module Decimals {
  import opened Wrappers

  function Pow10(n: nat): (r: nat)
    ensures r >= 1
  {
    if n == 0 then 1 else 10 * Pow10(n - 1)
  }

  lemma {:induction false} Pow10Add(a: nat, b: nat)
    ensures Pow10(a + b) == Pow10(a) * Pow10(b)
  {
    if a > 0 {
      Pow10Add(a - 1, b);
      calc {
        Pow10(a + b);
        10 * Pow10(a - 1 + b);
        10 * (Pow10(a - 1) * Pow10(b));
        (10 * Pow10(a - 1)) * Pow10(b);
      }
    }
  }

  function Abs(i: int): nat
  {
    if i < 0 then -i else i
  }

  datatype Decimal = Decimal(mant: int, exp: nat)

  predicate Canonical(d: Decimal)
  {
    d.exp == 0 || d.mant % 10 != 0
  }

  type Dec = d: Decimal | Canonical(d) witness Decimal(0, 0)

  function ToReal(d: Decimal): real
  {
    d.mant as real / Pow10(d.exp) as real
  }

  /** Comparing a decimal with an integer c is comparing its mantissa with c scaled alike. */
  lemma CompareScaled(d: Decimal, c: int)
    ensures ToReal(d) < c as real <==> d.mant < c * Pow10(d.exp)
    ensures ToReal(d) > c as real <==> d.mant > c * Pow10(d.exp)
    ensures ToReal(d) <= c as real <==> d.mant <= c * Pow10(d.exp)
  {
    var p := Pow10(d.exp) as real;
    assert (c * Pow10(d.exp)) as real == c as real * p;
    ScaleCompare(d.mant as real, c as real, p);
  }

  /** Dividing by a positive p keeps the order against c. */
  lemma ScaleCompare(m: real, c: real, p: real)
    requires p > 0.0
    ensures m / p < c <==> m < c * p
    ensures m / p > c <==> m > c * p
    ensures m / p <= c <==> m <= c * p
  {
    assert m / p * p == m;
    if m / p < c { assert m / p * p < c * p; }
    if m / p > c { assert m / p * p > c * p; }
  }

  function FromInt(i: int): Dec
  {
    Decimal(i, 0)
  }

  predicate IsIntegral(d: Dec)
  {
    d.exp == 0
  }

  lemma ScaleFraction(m: int, p: nat, k: nat)
    requires p > 0 && k > 0
    ensures (m * k) as real / (p * k) as real == m as real / p as real
  {
    assert (m * k) as real == m as real * k as real;
    assert (p * k) as real == p as real * k as real;
  }

  /** Strips trailing zeros (NormalizeValue: the value is unchanged). */
  function Normalize(d: Decimal): (r: Dec)
    ensures r.exp <= d.exp
    ensures d.mant >= 0 ==> r.mant >= 0
    ensures r.mant == 0 <==> d.mant == 0
    decreases d.exp
  {
    if d.exp > 0 && d.mant % 10 == 0 then Normalize(Decimal(d.mant / 10, d.exp - 1)) else d
  }

  lemma NormalizeCanonical(d: Decimal)
    requires Canonical(d)
    ensures Normalize(d) == d
  {
  }

  lemma {:induction false} NormalizeValue(d: Decimal)
    ensures ToReal(Normalize(d)) == ToReal(d)
    decreases d.exp
  {
    if d.exp > 0 && d.mant % 10 == 0 {
      var m := d.mant / 10;
      NormalizeValue(Decimal(m, d.exp - 1));
      ScaleFraction(m, Pow10(d.exp - 1), 10);
      assert d.mant == m * 10;
      assert Pow10(d.exp) == Pow10(d.exp - 1) * 10;
    }
  }

  function Negate(d: Dec): Dec
  {
    assert (-d.mant) % 10 == 0 <==> d.mant % 10 == 0;
    Decimal(-d.mant, d.exp)
  }

  lemma ShiftOne(x: real, q: real, r: real)
    requires q > 0.0
    ensures (x / (10.0 * q)) * (10.0 * r) == (x / q) * r
  {
  }

  lemma {:induction false} QuotientValue(m: int, e: nat, k: nat)
    ensures ToReal(Decimal(m, e + k)) * Pow10(k) as real == ToReal(Decimal(m, e))
  {
    if k > 0 {
      QuotientValue(m, e, k - 1);
      var q := Pow10(e + k - 1) as real;
      var r := Pow10(k - 1) as real;
      assert Pow10(e + k) as real == 10.0 * q;
      assert Pow10(k) as real == 10.0 * r;
      ShiftOne(m as real, q, r);
    }
  }

  lemma ScaleMant(m: int, k: int, e: nat)
    ensures ToReal(Decimal(m * k, e)) == ToReal(Decimal(m, e)) * k as real
  {
    var x, y, p := m as real, k as real, Pow10(e) as real;
    assert (m * k) as real == x * y;
    assert (x * y) / p == (x / p) * y;
  }

  lemma CancelScale(x: real, a: real, y: real, b: real, p: real)
    requires p > 0.0 && x * p == a * b && y * p == b
    ensures x == a * y
  {
    assert x * p == (a * y) * p;
  }

  lemma ProductValue(a: Decimal, b: Decimal)
    ensures ToReal(Decimal(a.mant * b.mant, a.exp + b.exp)) == ToReal(a) * ToReal(b)
  {
    var pb := Pow10(b.exp) as real;
    QuotientValue(a.mant * b.mant, a.exp, b.exp);
    ScaleMant(a.mant, b.mant, a.exp);
    QuotientValue(b.mant, 0, b.exp);
    assert ToReal(Decimal(b.mant, 0)) == b.mant as real;
    assert Decimal(b.mant, 0 + b.exp) == b;
    assert Decimal(a.mant, a.exp) == a;
    CancelScale(ToReal(Decimal(a.mant * b.mant, a.exp + b.exp)), ToReal(a), ToReal(b), b.mant as real, pb);
  }

  /** Exact product (MulValue). */
  function Mul(a: Decimal, b: Decimal): Dec
  {
    Normalize(Decimal(a.mant * b.mant, a.exp + b.exp))
  }

  lemma MulValue(a: Decimal, b: Decimal)
    ensures ToReal(Mul(a, b)) == ToReal(a) * ToReal(b)
  {
    ProductValue(a, b);
    NormalizeValue(Decimal(a.mant * b.mant, a.exp + b.exp));
  }

  /** Exact quotient by a power of ten (DivPow10Value). */
  function DivPow10(a: Decimal, k: nat): Dec
  {
    Normalize(Decimal(a.mant, a.exp + k))
  }

  /** One step of Normalize: a zero dropped together with one place of exponent. */
  lemma NormalizeStep(m: int, e: nat)
    ensures Normalize(Decimal(m * 10, e + 1)) == Normalize(Decimal(m, e))
  {
    assert (m * 10) % 10 == 0 && (m * 10) / 10 == m;
  }

  /** Normalizing before or after adding k to the exponent gives the same result. */
  lemma {:induction false} NormalizeThenShift(y: Decimal, k: nat)
    ensures var n := Normalize(y);
      Normalize(Decimal(n.mant, n.exp + k)) == Normalize(Decimal(y.mant, y.exp + k))
    decreases y.exp
  {
    if y.exp > 0 && y.mant % 10 == 0 {
      NormalizeThenShift(Decimal(y.mant / 10, y.exp - 1), k);
    }
  }

  lemma NormalizeThousand(m: int, e: nat)
    ensures Normalize(Decimal(m * 1000, e + 3)) == Normalize(Decimal(m, e))
  {
    NormalizeStep(m * 100, e + 2);
    assert m * 100 * 10 == m * 1000;
    NormalizeStep(m * 10, e + 1);
    assert m * 10 * 10 == m * 100;
    NormalizeStep(m, e);
  }

  lemma MulAssoc(m: int, p: int)
    ensures m * (10 * p) == (m * p) * 10
  {
  }

  /** Normalizing drops any number of matched powers of ten. */
  lemma {:induction false} NormalizePow(m: int, e: nat, j: nat)
    ensures Normalize(Decimal(m * Pow10(j), e + j)) == Normalize(Decimal(m, e))
  {
    if j > 0 {
      var p := Pow10(j - 1);
      NormalizePow(m, e, j - 1);
      assert Pow10(j) == 10 * p;
      MulAssoc(m, p);
      NormalizeStep(m * p, e + j - 1);
    }
  }

  lemma ScaleUpWithin(d: Dec, k: nat)
    requires k <= d.exp
    ensures ScaleByPow10(d, k) == Mul(d, FromInt(Pow10(k)))
  {
    NormalizePow(d.mant, d.exp - k, k);
    assert Mul(d, FromInt(Pow10(k))) == Normalize(Decimal(d.mant * Pow10(k), d.exp - k + k));
  }

  lemma ScaleUpBeyond(d: Dec, k: nat)
    requires k > d.exp
    ensures ScaleByPow10(d, k) == Mul(d, FromInt(Pow10(k)))
  {
    var q, p := Pow10(k - d.exp), Pow10(d.exp);
    var m2 := d.mant * q;
    var y := Normalize(Decimal(m2 * p, d.exp));
    assert ScaleByPow10(d, k) == y by {
      NormalizePow(m2, 0, d.exp);
    }
    assert Mul(d, FromInt(Pow10(k))) == y by {
      Pow10Add(k - d.exp, d.exp);
      MulAssocBy(d.mant, q, p);
    }
  }

  lemma MulAssocBy(m: int, q: int, p: int)
    ensures m * (q * p) == (m * q) * p
  {
  }

  /** Scaling up by 10^k is the exact product by the integer 10^k (MulValue gives its value). */
  lemma ScaleUpIsMul(d: Dec, k: nat)
    ensures ScaleByPow10(d, k) == Mul(d, FromInt(Pow10(k)))
  {
    if k <= d.exp {
      ScaleUpWithin(d, k);
    } else {
      ScaleUpBeyond(d, k);
    }
  }

  /** Scaling by 10^j and then by 10^-j gives the number back. */
  lemma ScaleRoundTrip(d: Dec, j: nat)
    ensures ScaleByPow10(ScaleByPow10(d, j), -(j as int)) == d
  {
    ScaleUpIsMul(d, j);
    var y := Decimal(d.mant * Pow10(j), d.exp);
    assert Mul(d, FromInt(Pow10(j))) == Normalize(y);
    if j > 0 {
      NormalizeThenShift(y, j);
      NormalizePow(d.mant, d.exp, j);
      NormalizeCanonical(d);
    } else {
      NormalizeCanonical(d);
      assert y == d;
      assert DivPow10(d, 0) == Normalize(d);
    }
  }

  /** Multiplying by 1000 and dividing by 10^3 gives the number back exactly. */
  lemma ThousandRoundTrip(a: Dec)
    ensures DivPow10(Mul(a, FromInt(1000)), 3) == a
  {
    var y := Decimal(a.mant * 1000, a.exp);
    assert Mul(a, FromInt(1000)) == Normalize(y);
    NormalizeThenShift(y, 3);
    NormalizeThousand(a.mant, a.exp);
    NormalizeCanonical(a);
  }

  // ----- digit strings -----

  predicate IsDigit(c: char)
  {
    '0' <= c <= '9'
  }

  predicate AllDigits(s: string)
  {
    forall i :: 0 <= i < |s| ==> IsDigit(s[i])
  }

  function DigitChar(d: nat): (c: char)
    requires d < 10
    ensures IsDigit(c)
  {
    ('0' as int + d) as char
  }

  function DigitValue(c: char): (d: nat)
    requires IsDigit(c)
    ensures d < 10
  {
    c as int - '0' as int
  }

  /** Decimal digits of n, without leading zeros ("0" for zero). */
  function NatToDigits(n: nat): (s: string)
    ensures |s| >= 1 && AllDigits(s)
    ensures n >= 10 ==> s[0] != '0'
  {
    if n < 10 then [DigitChar(n)] else NatToDigits(n / 10) + [DigitChar(n % 10)]
  }

  /** The value of the digits s read after a prefix whose value is acc. */
  function DigitsFrom(acc: nat, s: string): nat
    requires AllDigits(s)
    decreases s
  {
    if s == [] then acc else DigitsFrom(acc * 10 + DigitValue(s[0]), s[1..])
  }

  function DigitsValue(s: string): nat
    requires AllDigits(s)
  {
    DigitsFrom(0, s)
  }

  lemma {:induction false} DigitsFromAppend(acc: nat, a: string, b: string)
    requires AllDigits(a) && AllDigits(b)
    ensures AllDigits(a + b)
    ensures DigitsFrom(acc, a + b) == DigitsFrom(DigitsFrom(acc, a), b)
    decreases a
  {
    if a == [] {
      assert a + b == b;
    } else {
      assert (a + b)[1..] == a[1..] + b;
      DigitsFromAppend(acc * 10 + DigitValue(a[0]), a[1..], b);
    }
  }

  lemma {:induction false} DigitsFromDigit(acc: nat, c: char)
    requires IsDigit(c)
    ensures DigitsFrom(acc, [c]) == acc * 10 + DigitValue(c)
  {
    assert [c][1..] == [];
  }

  lemma {:induction false} DigitsRoundTrip(n: nat)
    ensures DigitsValue(NatToDigits(n)) == n
  {
    if n < 10 {
      DigitsFromDigit(0, DigitChar(n));
    } else {
      DigitsRoundTrip(n / 10);
      DigitsFromAppend(0, NatToDigits(n / 10), [DigitChar(n % 10)]);
      DigitsFromDigit(n / 10, DigitChar(n % 10));
    }
  }

  function Zeros(k: nat): (s: string)
    ensures |s| == k && AllDigits(s)
  {
    if k == 0 then "" else "0" + Zeros(k - 1)
  }

  /** Leading zeros do not change the value of a digit string. */
  lemma {:induction false} ZerosPrefix(k: nat, s: string)
    requires AllDigits(s)
    ensures AllDigits(Zeros(k) + s) && DigitsValue(Zeros(k) + s) == DigitsValue(s)
  {
    if k > 0 {
      ZerosPrefix(k - 1, s);
      assert (Zeros(k) + s)[1..] == Zeros(k - 1) + s;
    } else {
      assert Zeros(k) + s == s;
    }
  }

  /** Left-pads a digit string with zeros to at least `width` characters. */
  function PadLeft(s: string, width: nat): (r: string)
    requires AllDigits(s)
    ensures AllDigits(r) && |r| >= width && |r| >= |s|
  {
    if |s| >= width then s
    else
      var z := Zeros(width - |s|);
      assert forall i :: |z| <= i < |z + s| ==> (z + s)[i] == s[i - |z|];
      z + s
  }

  lemma PadLeftValue(s: string, width: nat)
    requires AllDigits(s)
    ensures DigitsValue(PadLeft(s, width)) == DigitsValue(s)
  {
    if |s| < width {
      ZerosPrefix(width - |s|, s);
    }
  }

  function IntToString(i: int): (s: string)
    ensures |s| >= 1
  {
    if i < 0 then "-" + NatToDigits(-i) else NatToDigits(i)
  }

  /** Inserts a point before the last e characters. */
  function SplitPoint(padded: string, e: nat): string
    requires |padded| > e
  {
    padded[..|padded| - e] + "." + padded[|padded| - e..]
  }

  /** The digits of m / 10^e in positional notation, with exactly e digits after the point. */
  function PointedDigits(m: nat, e: nat): (s: string)
    ensures |s| >= 1
  {
    if e == 0 then NatToDigits(m) else SplitPoint(PadLeft(NatToDigits(m), e + 1), e)
  }

  /**
   * Positional notation of a canonical decimal: a minus sign for negative numbers,
   * the integer part, then (when exp > 0) a point and exactly exp fraction digits.
   * This is how both a JavaScript number and a Python float print in the
   * magnitudes the model covers.
   */
  function FixedString(d: Dec): (s: string)
    ensures |s| >= 1
  {
    (if d.mant < 0 then "-" else "") + PointedDigits(Abs(d.mant), d.exp)
  }

  // ----- scanning decimal literals -----

  /** Length of the run of digits at the start of s. */
  function DigitRun(s: string): (n: nat)
    ensures n <= |s| && AllDigits(s[..n])
    ensures n < |s| ==> !IsDigit(s[n])
  {
    if s != [] && IsDigit(s[0]) then
      var n := 1 + DigitRun(s[1..]);
      assert forall i :: 1 <= i < n ==> s[i] == s[1..][i - 1];
      n
    else 0
  }

  /** A scanned literal: its value and how many characters it took. */
  datatype Scan = Scan(value: Dec, len: nat)

  /**
   * The longest prefix of s of the form `digits`, `digits.`, `digits.digits` or
   * `.digits`, with its value and length; None when s starts with none of them.
   */
  function ScanUnsigned(s: string): (r: Option<Scan>)
    ensures r.Some? ==> 0 < r.value.len <= |s|
    ensures r.Some? ==> r.value.value.mant >= 0
  {
    var a := DigitRun(s);
    if a < |s| && s[a] == '.' then
      var rest := s[a + 1..];
      var b := DigitRun(rest);
      if a == 0 && b == 0 then None
      else Some(Scan(Normalize(Decimal(DigitsFrom(DigitsValue(s[..a]), rest[..b]), b)), a + 1 + b))
    else if a == 0 then None
    else Some(Scan(Decimal(DigitsValue(s[..a]), 0), a))
  }

  /** ScanUnsigned after an optional `+` or `-`. */
  function ScanDecimal(s: string): (r: Option<Scan>)
    ensures r.Some? ==> 0 < r.value.len <= |s|
  {
    if |s| > 0 && (s[0] == '-' || s[0] == '+') then
      match ScanUnsigned(s[1..])
      case None => None
      case Some(Scan(v, n)) => Some(Scan(if s[0] == '-' then Negate(v) else v, n + 1))
    else
      ScanUnsigned(s)
  }

  /**
   * An exponent part: `e` or `E`, an optional `+` or `-`, and at least one digit. Gives the
   * exponent and the length taken; None when s starts with no such part.
   */
  function ScanExponent(s: string): (r: Option<(int, nat)>)
    ensures r.Some? ==> 2 <= r.value.1 <= |s|
  {
    if |s| < 2 || (s[0] != 'e' && s[0] != 'E') then None
    else
      var start := if s[1] == '+' || s[1] == '-' then 2 else 1;
      var n := DigitRun(s[start..]);
      if n == 0 then None
      else
        var k: int := DigitsValue(s[start..][..n]);
        Some((if s[1] == '-' then -k else k, start + n))
  }

  /**
   * d times 10 to the power k, for k of either sign: a product by 10^k for k >= 0
   * (ScaleUpIsMul) and the exact quotient by 10^-k otherwise (ScaleRoundTrip).
   */
  function ScaleByPow10(d: Dec, k: int): Dec
  {
    if k >= 0 && k <= d.exp then Normalize(Decimal(d.mant, d.exp - k))
    else if k >= 0 then Decimal(d.mant * Pow10(k - d.exp), 0)
    else DivPow10(d, -k)
  }

  /**
   * The longest prefix of s that is a decimal literal (ScanDecimal) followed, if it is
   * there, by an exponent part, with its value and length.
   */
  function ScanNumber(s: string): (r: Option<Scan>)
    ensures r.Some? ==> 0 < r.value.len <= |s|
  {
    match ScanDecimal(s)
    case None => None
    case Some(Scan(v, n)) =>
      match ScanExponent(s[n..])
      case None => Some(Scan(v, n))
      case Some((k, m)) => Some(Scan(ScaleByPow10(v, k), n + m))
  }

  // ----- digits of other bases -----

  /** The value of c as a digit of base up to 16 (`a`-`f` in either case), 16 when it is none. */
  function RadixDigit(c: char): (d: nat)
    ensures d <= 16
  {
    if '0' <= c <= '9' then c as int - '0' as int
    else if 'a' <= c <= 'f' then c as int - 'a' as int + 10
    else if 'A' <= c <= 'F' then c as int - 'A' as int + 10
    else 16
  }

  predicate AllRadixDigits(s: string, base: nat)
  {
    forall i :: 0 <= i < |s| ==> RadixDigit(s[i]) < base
  }

  /** The length of the longest prefix of s made of digits of the base. */
  function RadixRun(s: string, base: nat): (n: nat)
    ensures n <= |s| && AllRadixDigits(s[..n], base)
    ensures n < |s| ==> RadixDigit(s[n]) >= base
  {
    if s != [] && RadixDigit(s[0]) < base then
      var n := 1 + RadixRun(s[1..], base);
      assert forall i :: 1 <= i < n ==> s[i] == s[1..][i - 1];
      n
    else 0
  }

  /** The value of a string of digits of the base, most significant first. */
  function RadixValue(s: string, base: nat): nat
    requires AllRadixDigits(s, base)
  {
    if s == [] then 0 else RadixValue(s[..|s| - 1], base) * base + RadixDigit(s[|s| - 1])
  }

  lemma DigitRunAll(s: string, rest: string)
    requires AllDigits(s)
    requires rest == [] || !IsDigit(rest[0])
    ensures DigitRun(s + rest) == |s|
    decreases |s|
  {
    if s != [] {
      assert (s + rest)[1..] == s[1..] + rest;
      DigitRunAll(s[1..], rest);
    } else {
      assert s + rest == rest;
    }
  }

  lemma ScanDigitsOnly(digits: string)
    requires |digits| >= 1 && AllDigits(digits)
    ensures ScanUnsigned(digits) == Some(Scan(Decimal(DigitsValue(digits), 0), |digits|))
  {
    DigitRunAll(digits, "");
    assert digits + "" == digits;
    assert digits[..|digits|] == digits;
  }

  lemma ScanUnsignedPointed(s: string, a: nat, b: nat)
    requires a == DigitRun(s) && a < |s| && s[a] == '.'
    requires b == DigitRun(s[a + 1..]) && (a > 0 || b > 0)
    ensures AllDigits(s[a + 1..][..b])
    ensures ScanUnsigned(s)
      == Some(Scan(Normalize(Decimal(DigitsFrom(DigitsValue(s[..a]), s[a + 1..][..b]), b)), a + 1 + b))
  {
  }

  lemma PointSlices(ip: string, fp: string)
    ensures var s := ip + "." + fp;
      |s| == |ip| + 1 + |fp| && s[|ip|] == '.' && s[..|ip|] == ip && s[|ip| + 1..] == fp
  {
    var s := ip + "." + fp;
    assert s[..|ip|] == ip;
    assert s[|ip| + 1..] == fp;
  }

  lemma PointRun(ip: string, fp: string)
    requires AllDigits(ip)
    ensures DigitRun(ip + "." + fp) == |ip|
  {
    assert ip + "." + fp == ip + ("." + fp);
    DigitRunAll(ip, "." + fp);
  }

  lemma WholeRun(fp: string)
    requires AllDigits(fp)
    ensures DigitRun(fp) == |fp| && fp[..|fp|] == fp
  {
    DigitRunAll(fp, "");
    assert fp + "" == fp;
  }

  lemma ScanPointed(ip: string, fp: string, v: nat, e: nat)
    requires |ip| >= 1 && AllDigits(ip) && AllDigits(fp) && |fp| == e >= 1
    requires DigitsFrom(DigitsValue(ip), fp) == v
    requires Canonical(Decimal(v, e))
    ensures ScanUnsigned(ip + "." + fp) == Some(Scan(Decimal(v, e), |ip| + 1 + e))
  {
    var s := ip + "." + fp;
    PointSlices(ip, fp);
    PointRun(ip, fp);
    WholeRun(fp);
    ScanUnsignedPointed(s, |ip|, e);
    NormalizeCanonical(Decimal(v, e));
  }

  lemma ScanSplitPoint(padded: string, e: nat, m: nat)
    requires AllDigits(padded) && |padded| > e > 0
    requires DigitsValue(padded) == m && Canonical(Decimal(m, e))
    ensures ScanUnsigned(SplitPoint(padded, e)) == Some(Scan(Decimal(m, e), |padded| + 1))
  {
    var ip, fp := padded[..|padded| - e], padded[|padded| - e..];
    assert ip + fp == padded;
    assert AllDigits(ip) && AllDigits(fp);
    DigitsFromAppend(0, ip, fp);
    ScanPointed(ip, fp, m, e);
  }

  lemma UnsignedFixedPointed(m: nat, e: nat)
    requires e > 0 && Canonical(Decimal(m, e))
    ensures var str := PointedDigits(m, e);
      ScanUnsigned(str) == Some(Scan(Decimal(m, e), |str|))
  {
    var digits := NatToDigits(m);
    var padded := PadLeft(digits, e + 1);
    DigitsRoundTrip(m);
    PadLeftValue(digits, e + 1);
    ScanSplitPoint(padded, e, m);
  }

  lemma UnsignedFixed(m: nat, e: nat)
    requires Canonical(Decimal(m, e))
    ensures var str := PointedDigits(m, e);
      ScanUnsigned(str) == Some(Scan(Decimal(m, e), |str|))
  {
    if e == 0 {
      DigitsRoundTrip(m);
      ScanDigitsOnly(NatToDigits(m));
    } else {
      UnsignedFixedPointed(m, e);
    }
  }

  lemma NegatedCanonical(m: int, e: nat)
    requires Canonical(Decimal(m, e))
    ensures Canonical(Decimal(-m, e))
  {
    if e > 0 {
      var q, r := m / 10, m % 10;
      assert m == 10 * q + r && 0 < r < 10;
      assert -m == 10 * (-q - 1) + (10 - r);
    }
  }

  lemma ScanMinus(s: string, w: string, v: Dec, n: nat)
    requires s == "-" + w && ScanUnsigned(w) == Some(Scan(v, n))
    ensures ScanDecimal(s) == Some(Scan(Negate(v), n + 1))
  {
    assert s[1..] == w;
  }

  lemma NegativeFixedScans(d: Dec)
    requires d.mant < 0
    ensures ScanDecimal(FixedString(d)) == Some(Scan(d, |FixedString(d)|))
  {
    NegatedCanonical(d.mant, d.exp);
    var p: Dec := Decimal(-d.mant, d.exp);
    var w := PointedDigits(-d.mant, d.exp);
    var s := FixedString(d);
    assert s == "-" + w by { assert Abs(d.mant) == -d.mant; }
    UnsignedFixed(-d.mant, d.exp);
    ScanMinus(s, w, p, |w|);
    assert Negate(p) == d;
  }

  lemma PointedDigitsLead(m: nat, e: nat)
    ensures IsDigit(PointedDigits(m, e)[0])
  {
    if e > 0 {
      var padded := PadLeft(NatToDigits(m), e + 1);
      assert PointedDigits(m, e)[0] == padded[0];
    }
  }

  lemma ScanDecimalNoSign(s: string)
    requires |s| > 0 && IsDigit(s[0])
    ensures ScanDecimal(s) == ScanUnsigned(s)
  {
  }

  lemma NonNegativeFixedScans(d: Dec)
    requires d.mant >= 0
    ensures var s := FixedString(d);
      ScanDecimal(s) == Some(Scan(d, |s|))
  {
    var s := FixedString(d);
    var w := PointedDigits(d.mant, d.exp);
    assert s == w by {
      assert s == "" + w;
    }
    PointedDigitsLead(d.mant, d.exp);
    ScanDecimalNoSign(w);
    UnsignedFixed(d.mant, d.exp);
  }

  /** Scanning the positional notation of a number gives back the same number. */
  lemma FixedStringScans(d: Dec)
    ensures var s := FixedString(d);
      ScanDecimal(s) == Some(Scan(d, |s|))
  {
    if d.mant < 0 {
      NegativeFixedScans(d);
    } else {
      NonNegativeFixedScans(d);
    }
  }

  /** In base 10 the radix reading is the decimal reading. */
  lemma {:induction false} DecimalRadix(s: string)
    requires AllDigits(s)
    ensures AllRadixDigits(s, 10) && RadixValue(s, 10) == DigitsValue(s)
    decreases |s|
  {
    if s != [] {
      var init := s[..|s| - 1];
      DecimalRadix(init);
      assert s == init + [s[|s| - 1]];
      DigitsFromAppend(0, init, [s[|s| - 1]]);
      DigitsFromDigit(DigitsValue(init), s[|s| - 1]);
    }
  }

  /** A digit run that a non-digit ends inside s is not lengthened by what follows s. */
  lemma DigitRunPrefix(s: string, rest: string)
    requires DigitRun(s) < |s|
    ensures DigitRun(s + rest) == DigitRun(s)
    decreases |s|
  {
    if IsDigit(s[0]) {
      assert (s + rest)[1..] == s[1..] + rest;
      DigitRunPrefix(s[1..], rest);
    }
  }

  /** A literal scanned to its end scans the same when followed by neither a digit nor a point. */
  lemma ScanUnsignedExtends(s: string, rest: string, v: Dec)
    requires ScanUnsigned(s) == Some(Scan(v, |s|))
    requires rest == [] || (!IsDigit(rest[0]) && rest[0] != '.')
    ensures ScanUnsigned(s + rest) == Some(Scan(v, |s|))
  {
    var a := DigitRun(s);
    if a < |s| && s[a] == '.' {
      DigitRunPrefix(s, rest);
      var frac := s[a + 1..];
      assert (s + rest)[a + 1..] == frac + rest;
      var b := DigitRun(frac);
      assert b == |frac|;
      assert AllDigits(frac[..b]) && frac[..b] == frac;
      DigitRunAll(frac, rest);
      assert (s + rest)[..a] == s[..a];
      assert (frac + rest)[..b] == frac;
    } else {
      assert a == |s|;
      assert s[..a] == s;
      DigitRunAll(s, rest);
      assert (s + rest)[..a] == s;
    }
  }

  lemma ScanSignedExtends(s: string, rest: string, v: Dec)
    requires |s| > 0 && (s[0] == '-' || s[0] == '+')
    requires ScanDecimal(s) == Some(Scan(v, |s|))
    requires rest == [] || (!IsDigit(rest[0]) && rest[0] != '.')
    ensures ScanDecimal(s + rest) == Some(Scan(v, |s|))
  {
    var u := ScanUnsigned(s[1..]).value;
    assert ScanUnsigned(s[1..]) == Some(Scan(u.value, |s[1..]|));
    ScanUnsignedExtends(s[1..], rest, u.value);
    assert (s + rest)[1..] == s[1..] + rest;
    assert (s + rest)[0] == s[0];
  }

  lemma ScanDecimalExtends(s: string, rest: string, v: Dec)
    requires ScanDecimal(s) == Some(Scan(v, |s|))
    requires rest == [] || (!IsDigit(rest[0]) && rest[0] != '.')
    ensures ScanDecimal(s + rest) == Some(Scan(v, |s|))
  {
    if |s| > 0 && (s[0] == '-' || s[0] == '+') {
      ScanSignedExtends(s, rest, v);
    } else {
      ScanUnsignedExtends(s, rest, v);
      assert (s + rest)[0] == s[0];
    }
  }

  /** An exponent part of digits after `e`, `e+` or `e-` reads as that exponent. */
  lemma ScanExponentOfDigits(sign: string, digits: string)
    requires sign == "" || sign == "+" || sign == "-"
    requires |digits| >= 1 && AllDigits(digits)
    ensures ScanExponent("e" + sign + digits) ==
            Some((if sign == "-" then -(DigitsValue(digits) as int) else DigitsValue(digits), 1 + |sign| + |digits|))
  {
    var s := "e" + sign + digits;
    assert s[1 + |sign|..] == digits;
    DigitRunAll(digits, "");
    assert digits + "" == digits;
    assert digits[..|digits|] == digits;
  }

  /**
   * A literal followed by an exponent part reads as the literal's number scaled by that power
   * of ten: `s + "e" + digits` for any literal s that scans to its end.
   */
  lemma ScanNumberExponent(s: string, v: Dec, sign: string, digits: string)
    requires ScanDecimal(s) == Some(Scan(v, |s|))
    requires sign == "" || sign == "+" || sign == "-"
    requires |digits| >= 1 && AllDigits(digits)
    ensures var k: int := if sign == "-" then -(DigitsValue(digits) as int) else DigitsValue(digits);
            ScanNumber(s + ("e" + sign + digits)) == Some(Scan(ScaleByPow10(v, k), |s| + 1 + |sign| + |digits|))
  {
    var rest := "e" + sign + digits;
    ScanDecimalExtends(s, rest, v);
    assert (s + rest)[|s|..] == rest;
    ScanExponentOfDigits(sign, digits);
  }

  /** A literal that scans to its end, with nothing after it, takes no exponent. */
  lemma ScanNumberWhole(s: string, v: Dec)
    requires ScanDecimal(s) == Some(Scan(v, |s|))
    ensures ScanNumber(s) == Some(Scan(v, |s|))
  {
    assert s[|s|..] == [];
  }
}
