/**
 * Python values as the two namelist generators receive them from a JSON request body,
 * with the parts of the language the generators rely on: `dict.get`, subscripting,
 * conversion to text in an f-string, multiplication by an integer, and the equality of numbers as dict keys.
 * Floats are exact decimals; the errors an expression raises are named by their class.
 */
module PyValue {
  import opened Wrappers
  import opened Decimals

  datatype PyValue =
    | PyNone
    | PyBool(b: bool)
    | PyInt(i: int)
    | PyFloat(f: Dec)
    | PyStr(s: string)
    | PyList(items: seq<PyValue>)
    | PyDict(entries: map<string, PyValue>)

  type Dict = map<string, PyValue>

  const TypeError := "TypeError"
  const AttributeError := "AttributeError"
  const KeyError := "KeyError"
  /** Text of a list or dict, or of a float in exponent notation, which the model does not render. */
  const Unrendered := "Unrendered"

  /** `obj.get(key, default)`: only a dict has `get`. */
  function Get(obj: PyValue, key: string, default: PyValue): (r: Result<PyValue, string>)
    ensures r.Err? <==> !obj.PyDict?
    ensures r.Err? ==> r.error == AttributeError
    ensures r.Ok? && key in obj.entries ==> r.value == obj.entries[key]
    ensures r.Ok? && key !in obj.entries ==> r.value == default
  {
    match obj
    case PyDict(m) => Ok(if key in m then m[key] else default)
    case _ => Err(AttributeError)
  }

  /** `obj[key]` with a string key: a dict raises KeyError for a missing key, anything else TypeError. */
  function Subscript(obj: PyValue, key: string): (r: Result<PyValue, string>)
    ensures r.Ok? <==> obj.PyDict? && key in obj.entries
    ensures r.Ok? ==> r.value == obj.entries[key]
  {
    match obj
    case PyDict(m) => if key in m then Ok(m[key]) else Err(KeyError)
    case _ => Err(TypeError)
  }

  /** A float prints in positional notation when it is zero or its magnitude lies in [1e-4, 1e16). */
  predicate Positional(d: Dec)
  {
    d.mant == 0 || (Abs(d.mant) * Pow10(4) >= Pow10(d.exp) && Abs(d.mant) < Pow10(16) * Pow10(d.exp))
  }

  /** `repr` of a float in positional range: its digits, with ".0" when it is integral. */
  function FloatText(d: Dec): (r: string)
  {
    if IsIntegral(d) then FixedString(d) + ".0" else FixedString(d)
  }

  /** `str(v)`, which an f-string field `{v}` inserts. */
  function Str(v: PyValue): (r: Result<string, string>)
    ensures v.PyStr? ==> r == Ok(v.s)
    ensures v.PyInt? ==> r == Ok(IntToString(v.i))
    ensures v.PyList? || v.PyDict? ==> r.Err?
  {
    match v
    case PyNone => Ok("None")
    case PyBool(b) => Ok(if b then "True" else "False")
    case PyInt(i) => Ok(IntToString(i))
    case PyFloat(d) => if Positional(d) then Ok(FloatText(d)) else Err(Unrendered)
    case PyStr(s) => Ok(s)
    case PyList(_) => Err(Unrendered)
    case PyDict(_) => Err(Unrendered)
  }

  /** `str` of a value that an earlier step may have failed to produce. */
  function StrOf(r: Result<PyValue, string>): Result<string, string>
  {
    match r
    case Ok(v) => Str(v)
    case Err(e) => Err(e)
  }

  /** `s * k` on a sequence: k copies, one after another. */
  function Repeat<T>(s: seq<T>, k: nat): (r: seq<T>)
    ensures |r| == |s| * k
  {
    if k == 0 then [] else s + Repeat(s, k - 1)
  }

  /**
   * `v * k` for a non-negative integer k: numbers multiply (a bool counts as 0 or 1),
   * strings and lists repeat, and None or a dict raise TypeError.
   */
  function Times(v: PyValue, k: nat): (r: Result<PyValue, string>)
    ensures r.Err? <==> v.PyNone? || v.PyDict?
  {
    match v
    case PyBool(b) => Ok(PyInt(if b then k else 0))
    case PyInt(i) => Ok(PyInt(i * k))
    case PyFloat(d) => Ok(PyFloat(Mul(d, FromInt(k))))
    case PyStr(s) => Ok(PyStr(Repeat(s, k)))
    case PyList(xs) => Ok(PyList(Repeat(xs, k)))
    case _ => Err(TypeError)
  }

  /** `v * k` on a value that an earlier step may have failed to produce. */
  function TimesOf(r: Result<PyValue, string>, k: nat): Result<PyValue, string>
  {
    match r
    case Ok(v) => Times(v, k)
    case Err(e) => Err(e)
  }

  /** The integer a number equals, for dict-key lookups where `1 == 1.0 == True`. */
  function AsInteger(v: PyValue): (r: Option<int>)
    ensures v.PyInt? ==> r == Some(v.i)
    ensures v.PyStr? || v.PyNone? || v.PyList? || v.PyDict? ==> r == None
  {
    match v
    case PyBool(b) => Some(if b then 1 else 0)
    case PyInt(i) => Some(i)
    case PyFloat(d) => if IsIntegral(d) then Some(d.mant) else None
    case _ => None
  }
}
