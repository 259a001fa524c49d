/**
 * JavaScript values as the React wizard stores and reads them, with the parts of the
 * language the wizard relies on: truthiness, property reads, object spread,
 * conversion to string and number, parseFloat/parseInt, and a few string methods.
 */
module JsValue {
  import opened Wrappers
  import opened Decimals

  datatype Value =
    | Undef
    | Null
    | Bool(b: bool)
    | Num(n: Dec)
    | NaN
    | Str(s: string)
    | Arr(items: seq<Value>)
    | Obj(fields: map<string, Value>)

  /** The error a property read of null or undefined, or a call of a missing method, throws. */
  const TypeError := "TypeError"

  /** A plain object: its own enumerable properties. */
  type Object = map<string, Value>

  function Int(i: int): Value
  {
    Num(FromInt(i))
  }

  /** `!!v` */
  predicate Truthy(v: Value)
  {
    match v
    case Undef => false
    case Null => false
    case Bool(b) => b
    case Num(n) => n.mant != 0
    case NaN => false
    case Str(s) => s != ""
    case Arr(_) => true
    case Obj(_) => true
  }

  /** `v || fallback` */
  function Or(v: Value, fallback: Value): Value
  {
    if Truthy(v) then v else fallback
  }

  /** `o[k]` on a plain object: undefined when the key is absent. */
  function Get(o: Object, k: string): Value
  {
    if k in o then o[k] else Undef
  }

  /** Reading a property throws exactly on null and undefined. */
  predicate Nullish(v: Value)
  {
    v.Undef? || v.Null?
  }

  /**
   * `v[k]` for a property key of a value that is not null or undefined: an object's
   * own field, an array's or string's index or `length`; booleans and numbers
   * carry no data properties.
   */
  function Prop(v: Value, k: string): Value
  {
    match v
    case Obj(m) => Get(m, k)
    case Arr(_) => if k == "length" then Length(v) else Get(Spread(v), k)
    case Str(_) => if k == "length" then Length(v) else Get(Spread(v), k)
    case _ => Undef
  }

  /** `v[i]` */
  function Index(v: Value, i: nat): Value
  {
    match v
    case Arr(xs) => if i < |xs| then xs[i] else Undef
    case Str(s) => if i < |s| then Str([s[i]]) else Undef
    case Obj(m) => Get(m, NatToDigits(i))
    case _ => Undef
  }

  /** `v.length` */
  function Length(v: Value): Value
  {
    match v
    case Arr(xs) => Int(|xs|)
    case Str(s) => Int(|s|)
    case Obj(m) => Get(m, "length")
    case _ => Undef
  }

  /** The index-keyed entries that spreading an array-like value produces. */
  function IndexEntries(xs: seq<Value>): Object
  {
    if xs == [] then map[]
    else IndexEntries(xs[..|xs| - 1])[NatToDigits(|xs| - 1) := xs[|xs| - 1]]
  }

  /** The one-character strings of s, in order. */
  function Chars(s: string): (r: seq<Value>)
    ensures |r| == |s|
  {
    if s == [] then [] else Chars(s[..|s| - 1]) + [Str([s[|s| - 1]])]
  }

  /** The own properties `{...v}` copies: an object's fields, the indices of an array or string, nothing else. */
  function Spread(v: Value): Object
  {
    match v
    case Obj(m) => m
    case Arr(xs) => IndexEntries(xs)
    case Str(s) => IndexEntries(Chars(s))
    case _ => map[]
  }

  /** `{...a, ...b}`: every key of either, the value from b where b has it. */
  function Merge(a: Object, b: Object): (r: Object)
    ensures r.Keys == a.Keys + b.Keys
    ensures forall k :: k in b ==> r[k] == b[k]
    ensures forall k :: k in a && k !in b ==> r[k] == a[k]
  {
    map k | k in a.Keys + b.Keys :: if k in b then b[k] else a[k]
  }

  /** An object literal: its entries in order, a later entry overriding an earlier one with the same key. */
  function ObjectOf(entries: seq<(string, Value)>): Object
  {
    if entries == [] then map[]
    else ObjectOf(entries[..|entries| - 1])[entries[|entries| - 1].0 := entries[|entries| - 1].1]
  }

  /** Spreading a second time with the same object changes nothing more. */
  lemma MergeIdempotent(a: Object, b: Object)
    ensures Merge(Merge(a, b), b) == Merge(a, b)
  {
    assert Merge(Merge(a, b), b).Keys == Merge(a, b).Keys;
  }

  /** Spreading a one-key object literal is a single key update. */
  lemma MergeSingleton(a: Object, k: string, v: Value)
    ensures Merge(a, map[k := v]) == a[k := v]
  {
    assert Merge(a, map[k := v]).Keys == a[k := v].Keys;
  }

  /** Spreading into an empty object copies. */
  lemma MergeIntoEmpty(b: Object)
    ensures Merge(map[], b) == b
  {
    assert Merge(map[], b).Keys == b.Keys;
  }

  /** Spreading an object whose keys include all of a's leaves only that object. */
  lemma MergeCovered(a: Object, b: Object)
    requires a.Keys <= b.Keys
    ensures Merge(a, b) == b
  {
    assert Merge(a, b).Keys == b.Keys;
  }

  /** Spreading an empty object adds nothing. */
  lemma MergeEmpty(a: Object)
    ensures Merge(a, map[]) == a
  {
    assert Merge(a, map[]).Keys == a.Keys;
  }

  // ----- strings -----

  /** JavaScript's WhiteSpace and LineTerminator characters, which trim and number parsing skip. */
  predicate IsSpace(c: char)
  {
    c == '\t' || c == '\n' || c == '\U{000B}' || c == '\U{000C}' || c == '\r' || c == ' '
    || c == '\U{00A0}' || c == '\U{1680}' || ('\U{2000}' <= c <= '\U{200A}')
    || c == '\U{2028}' || c == '\U{2029}' || c == '\U{202F}' || c == '\U{205F}'
    || c == '\U{3000}' || c == '\U{FEFF}'
  }

  function TrimStart(s: string): (r: string)
  {
    if s != [] && IsSpace(s[0]) then TrimStart(s[1..]) else s
  }

  function TrimEnd(s: string): (r: string)
  {
    if s != [] && IsSpace(s[|s| - 1]) then TrimEnd(s[..|s| - 1]) else s
  }

  /** `s.trim()` */
  function Trim(s: string): string
  {
    TrimEnd(TrimStart(s))
  }

  /** `s.startsWith(p)` */
  predicate StartsWith(s: string, p: string)
  {
    |p| <= |s| && s[..|p|] == p
  }

  /** `s.includes(p)` */
  predicate Includes(s: string, p: string)
  {
    StartsWith(s, p) || (s != [] && Includes(s[1..], p))
  }

  /** The index of the first c in s, if there is one. */
  function Find(s: string, c: char): (r: Option<nat>)
    ensures r.Some? ==> r.value < |s| && s[r.value] == c
  {
    if s == [] then None
    else if s[0] == c then Some(0)
    else
      match Find(s[1..], c)
      case None => None
      case Some(i) => Some(i + 1)
  }

  /** `s.split(c)` for a one-character separator. */
  function Split(s: string, c: char): (parts: seq<string>)
    ensures |parts| >= 1
    ensures |parts| == 1 <==> Find(s, c).None?
    decreases |s|
  {
    match Find(s, c)
    case None => [s]
    case Some(i) => [s[..i]] + Split(s[i + 1..], c)
  }

  /** A string without c holds no c to find. */
  lemma {:induction false} FindAbsent(s: string, c: char)
    requires forall j :: 0 <= j < |s| ==> s[j] != c
    ensures Find(s, c) == None
  {
    if s != [] {
      FindAbsent(s[1..], c);
    }
  }

  /** The first c is found after a prefix without one. */
  lemma {:induction false} FindAfter(a: string, c: char, b: string)
    requires forall j :: 0 <= j < |a| ==> a[j] != c
    ensures Find(a + [c] + b, c) == Some(|a|)
  {
    if a != [] {
      assert (a + [c] + b)[1..] == a[1..] + [c] + b;
      FindAfter(a[1..], c, b);
    }
  }

  /** `parts.join(sep)` */
  function Join(parts: seq<string>, sep: string): string
  {
    if parts == [] then "" else if |parts| == 1 then parts[0] else Join(parts[..|parts| - 1], sep) + sep + parts[|parts| - 1]
  }

  // ----- conversions -----

  /** `String(v)` (and `v.toString()` for values that are not null or undefined). */
  function ToJsString(v: Value): string
  {
    match v
    case Undef => "undefined"
    case Null => "null"
    case Bool(b) => if b then "true" else "false"
    case Num(n) => FixedString(n)
    case NaN => "NaN"
    case Str(s) => s
    case Arr(xs) => JoinElements(xs)
    case Obj(_) => "[object Object]"
  }

  /** `Array.prototype.join(",")`: elements converted to strings, null and undefined as "". */
  function JoinElements(xs: seq<Value>): string
    decreases xs
  {
    if xs == [] then ""
    else
      var last := if Nullish(xs[|xs| - 1]) then "" else ToJsString(xs[|xs| - 1]);
      if |xs| == 1 then last else JoinElements(xs[..|xs| - 1]) + "," + last
  }

  function FromScan(r: Option<Scan>): Value
  {
    if r.Some? then Num(r.value.value) else NaN
  }

  /**
   * `parseFloat(s)`: the longest decimal literal, with its exponent part if any, after
   * leading white space; NaN if there is none.
   */
  function ParseFloat(s: string): (r: Value)
    ensures r.Num? || r.NaN?
  {
    FromScan(ScanNumber(TrimStart(s)))
  }

  /** `parseFloat(v)` converts v to a string first. */
  function ParseFloatValue(v: Value): (r: Value)
    ensures r.Num? || r.NaN?
  {
    ParseFloat(ToJsString(v))
  }

  /**
   * `parseInt(s)` with no radix: after leading white space and an optional sign, the run
   * of hexadecimal digits after a `0x` or `0X` prefix, or else the run of decimal digits.
   */
  function ParseInt(s: string): (r: Value)
    ensures r.Num? ==> IsIntegral(r.n)
    ensures r.Num? || r.NaN?
  {
    var t := TrimStart(s);
    var neg := t != [] && t[0] == '-';
    var body := if t != [] && (t[0] == '-' || t[0] == '+') then t[1..] else t;
    if |body| >= 2 && body[0] == '0' && (body[1] == 'x' || body[1] == 'X') then
      var hex := body[2..];
      var n := RadixRun(hex, 16);
      if n == 0 then NaN
      else
        var v: int := RadixValue(hex[..n], 16);
        Int(if neg then -v else v)
    else
      var n := DigitRun(body);
      if n == 0 then NaN
      else
        var v: int := DigitsValue(body[..n]);
        Int(if neg then -v else v)
  }

  /** `parseInt(v)` converts v to a string first. */
  function ParseIntValue(v: Value): (r: Value)
    ensures r.Num? || r.NaN?
  {
    ParseInt(ToJsString(v))
  }

  /** The base a `0x`, `0o` or `0b` prefix (either case) names, 0 for any other letter. */
  function LiteralBase(c: char): nat
  {
    if c == 'x' || c == 'X' then 16
    else if c == 'o' || c == 'O' then 8
    else if c == 'b' || c == 'B' then 2
    else 0
  }

  /**
   * The conversion of a string to a number (`Number(s)`, `+s`, and the operands of `<`,
   * `*`, `/`): the trimmed text must be empty (0), an unsigned hexadecimal, octal or binary
   * literal, or a whole decimal literal with an optional exponent part; anything else is NaN.
   */
  function StringToNumber(s: string): (r: Value)
    ensures r.Num? || r.NaN?
  {
    var t := Trim(s);
    if t == "" then Int(0)
    else if |t| > 2 && t[0] == '0' && LiteralBase(t[1]) > 0 && RadixRun(t[2..], LiteralBase(t[1])) == |t| - 2 then
      assert t[2..][..|t| - 2] == t[2..];
      Int(RadixValue(t[2..], LiteralBase(t[1])))
    else
      match ScanNumber(t)
      case Some(Scan(v, n)) => if n == |t| then Num(v) else NaN
      case None => NaN
  }

  /** `Number(v)` */
  function ToNumber(v: Value): (r: Value)
    ensures r.Num? || r.NaN?
  {
    match v
    case Undef => NaN
    case Null => Int(0)
    case Bool(b) => Int(if b then 1 else 0)
    case Num(_) => v
    case NaN => NaN
    case Str(s) => StringToNumber(s)
    case Arr(_) => StringToNumber(ToJsString(v))
    case Obj(_) => NaN
  }

  /** `v * k` for a number k. */
  function Times(v: Value, k: Dec): (r: Value)
    ensures r.Num? || r.NaN?
  {
    var x := ToNumber(v);
    if x.Num? then Num(Mul(x.n, k)) else NaN
  }

  /** `v / 10^k` */
  function DividedByPow10(v: Value, k: nat): (r: Value)
    ensures r.Num? || r.NaN?
  {
    var x := ToNumber(v);
    if x.Num? then Num(DivPow10(x.n, k)) else NaN
  }

  /** `v < c` against an integer c: false when v converts to NaN. */
  predicate LessThan(v: Value, c: int)
  {
    var x := ToNumber(v);
    x.Num? && x.n.mant < c * Pow10(x.n.exp)
  }

  /** `v > c` */
  predicate GreaterThan(v: Value, c: int)
  {
    var x := ToNumber(v);
    x.Num? && x.n.mant > c * Pow10(x.n.exp)
  }

  /** `v <= c` */
  predicate AtMost(v: Value, c: int)
  {
    var x := ToNumber(v);
    x.Num? && x.n.mant <= c * Pow10(x.n.exp)
  }

  // ----- properties -----

  /** The comparisons are those of the number v converts to, read as a real. */
  lemma ComparisonsOfReals(v: Value, c: int)
    ensures LessThan(v, c) <==> ToNumber(v).Num? && ToReal(ToNumber(v).n) < c as real
    ensures GreaterThan(v, c) <==> ToNumber(v).Num? && ToReal(ToNumber(v).n) > c as real
    ensures AtMost(v, c) <==> ToNumber(v).Num? && ToReal(ToNumber(v).n) <= c as real
  {
    var x := ToNumber(v);
    if x.Num? {
      CompareScaled(x.n, c);
    }
  }

  /** parseFloat reads back every number from its own string form. */
  lemma ParseFloatOfNumber(d: Dec)
    ensures ParseFloatValue(Num(d)) == Num(d)
  {
    var s := FixedString(d);
    FixedStringScans(d);
    ScanNumberWhole(s, d);
    assert TrimStart(s) == s by {
      FixedStringLead(d);
    }
  }

  lemma FixedStringLead(d: Dec)
    ensures !IsSpace(FixedString(d)[0])
  {
    var w := PointedDigits(Abs(d.mant), d.exp);
    PointedDigitsLead(Abs(d.mant), d.exp);
    if d.mant < 0 {
      assert FixedString(d)[0] == '-';
    } else {
      assert FixedString(d) == "" + w;
    }
  }

  /** parseInt reads a digit string as its decimal value, leading zeros included. */
  lemma ParseIntOfDigits(s: string)
    requires |s| >= 1 && AllDigits(s)
    ensures ParseInt(s) == Int(DigitsValue(s))
  {
    assert TrimStart(s) == s by {
      assert !IsSpace(s[0]);
    }
    DigitRunAll(s, "");
    assert s + "" == s;
    assert s[..|s|] == s;
  }

  /**
   * parseFloat reads an exponent part after a number's string form: the number is scaled by
   * that power of ten ("25e-1" is 2.5, "1.5e3" is 1500).
   */
  lemma ParseFloatExponent(d: Dec, sign: string, digits: string)
    requires sign == "" || sign == "+" || sign == "-"
    requires |digits| >= 1 && AllDigits(digits)
    ensures var k: int := if sign == "-" then -(DigitsValue(digits) as int) else DigitsValue(digits);
            ParseFloat(FixedString(d) + ("e" + sign + digits)) == Num(ScaleByPow10(d, k))
  {
    var s := FixedString(d);
    FixedStringScans(d);
    ScanNumberExponent(s, d, sign, digits);
    FixedStringLead(d);
    assert TrimStart(s + ("e" + sign + digits)) == s + ("e" + sign + digits) by {
      assert (s + ("e" + sign + digits))[0] == s[0];
    }
  }

  lemma OneTimesThousand()
    ensures ScaleByPow10(FromInt(1), 3) == FromInt(1000)
  {
    assert Pow10(3) == 1000;
  }

  /** "1e3" reads as 1000 for parseFloat. */
  lemma ParseFloatExample()
    ensures ParseFloat("1e3") == Int(1000)
  {
    ParseFloatExponent(FromInt(1), "", "3");
    assert FixedString(FromInt(1)) == "1";
    assert "1" + ("e" + "" + "3") == "1e3";
    DigitsFromDigit(0, '3');
    OneTimesThousand();
  }

  /** "1e3" reads as 1000 for the number conversion too. */
  lemma StringToNumberExample()
    ensures StringToNumber("1e3") == Int(1000)
  {
    assert Trim("1e3") == "1e3";
    assert ScanDecimal("1") == Some(Scan(FromInt(1), 1));
    ScanDecimalExtends("1", "e3", FromInt(1));
    ScanExponentOfDigits("", "3");
    assert "e" + "" + "3" == "e3";
    DigitsFromDigit(0, '3');
    assert "1e3"[1..] == "e3";
    OneTimesThousand();
  }

  /** parseInt reads the hexadecimal digits after a `0x` prefix. */
  lemma ParseIntHex(s: string)
    requires |s| >= 3 && s[0] == '0' && s[1] == 'x' && AllRadixDigits(s[2..], 16)
    ensures ParseInt(s) == Int(RadixValue(s[2..], 16))
  {
    assert TrimStart(s) == s by {
      assert s[0] == '0';
    }
    var h := s[2..];
    assert RadixRun(h, 16) == |h| && h[..|h|] == h;
  }

  lemma TrimOfLiteral(s: string)
    requires |s| >= 1 && s[0] == '0' && RadixDigit(s[|s| - 1]) < 16
    ensures Trim(s) == s
  {
    assert TrimStart(s) == s;
  }

  /** Number reads a whole `0x`, `0o` or `0b` literal in its base. */
  lemma StringToNumberRadix(s: string)
    requires |s| >= 3 && s[0] == '0' && LiteralBase(s[1]) > 0 && AllRadixDigits(s[2..], LiteralBase(s[1]))
    ensures StringToNumber(s) == Int(RadixValue(s[2..], LiteralBase(s[1])))
  {
    assert RadixDigit(s[2..][|s| - 3]) < 16;
    TrimOfLiteral(s);
    var h := s[2..];
    assert RadixRun(h, LiteralBase(s[1])) == |h|;
  }

  /** Reading a property other than `length` reads what spreading the value copies. */
  lemma PropOfSpread(v: Value, k: string)
    requires k != "length"
    ensures Prop(v, k) == Get(Spread(v), k)
  {
  }

  /** Spreading adds only the keys of objects, arrays and strings; other values add nothing. */
  lemma SpreadOfScalar(v: Value)
    requires !v.Obj? && !v.Arr? && !v.Str?
    ensures Spread(v) == map[]
  {
  }
}
