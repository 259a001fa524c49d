/**
 * The form data of the legacy web wizard: how an input's text becomes a value, how a
 * dotted input name such as "domain.dx" is written into the nested form-data object,
 * and how a dotted path is read back for the configuration summary.
 */
module LegacyForm {
  import opened Wrappers
  import opened Decimals
  import opened JsValue

  // ----- parseFormValue -----

  /**
   * `parseFormValue(value, type)`: a number input goes through parseFloat, the texts
   * "true" and "false" of any other input become booleans, and every other text is kept.
   */
  function ParseFormValue(value: string, inputType: string): (r: Value)
    ensures inputType == "number" ==> r.Num? || r.NaN?
    ensures inputType != "number" ==> (r.Bool? <==> value == "true" || value == "false")
    ensures inputType != "number" && r.Bool? ==> r.b == (value == "true")
    ensures inputType != "number" && !r.Bool? ==> r == Str(value)
  {
    if inputType == "number" then ParseFloat(value)
    else if value == "true" then Bool(true)
    else if value == "false" then Bool(false)
    else Str(value)
  }

  // ----- getNestedValue -----

  /** The summary's placeholder for a path that leads nowhere. */
  const NotSet: Value := Str("Not set")

  /** One step of the reduce in getNestedValue: the key's value, or the placeholder. */
  function Descend(current: Value, key: string): Value
  {
    if Truthy(current) && Prop(current, key) != Undef then Prop(current, key) else NotSet
  }

  /**
   * The reduce over the keys as written: after a miss it goes on reading the keys of the
   * placeholder string itself.
   */
  function Reduce(current: Value, keys: seq<string>): Value
    decreases |keys|
  {
    if keys == [] then current else Reduce(Descend(current, keys[0]), keys[1..])
  }

  /** `getNestedValue(obj, path)` */
  function GetNestedValue(obj: Value, path: string): Value
  {
    Reduce(obj, Split(path, '.'))
  }

  /** Every key along the path names a value that is there. */
  predicate Resolves(current: Value, keys: seq<string>)
    decreases |keys|
  {
    keys == [] || (Truthy(current) && Prop(current, keys[0]) != Undef && Resolves(Prop(current, keys[0]), keys[1..]))
  }

  /** The lookup as intended: the value at the path, or the placeholder at the first miss. */
  function Lookup(current: Value, keys: seq<string>): Value
    decreases |keys|
  {
    if keys == [] then current
    else if Truthy(current) && Prop(current, keys[0]) != Undef then Lookup(Prop(current, keys[0]), keys[1..])
    else NotSet
  }

  // ----- the dotted-name write of saveFormData -----

  /**
   * The container the walk moves into under key: the value there, or, when that is falsy
   * and the container is an object, the fresh `{}` the walk stores there first. Stores into
   * a value that is not an object are lost.
   */
  function Next(current: Value, key: string): Value
  {
    var child := Prop(current, key);
    if !Truthy(child) && current.Obj? then Obj(map[]) else child
  }

  /** The container after its key is given the (new) value r; a store into a non-object is lost. */
  function Put(current: Value, key: string, r: Result<Value, string>): (s: Result<Value, string>)
    ensures current.Obj? && s.Ok? ==> s.value.Obj?
  {
    match r
    case Err(e) => Err(e)
    case Ok(v) => Ok(if current.Obj? then Obj(current.fields[key := v]) else current)
  }

  /**
   * Writing x at the path keys below current: the new current, or the TypeError thrown when
   * the walk has to read or write a property of undefined or null.
   */
  function SetPath(current: Value, keys: seq<string>, x: Value): (r: Result<Value, string>)
    requires |keys| >= 1
    ensures current.Obj? && r.Ok? ==> r.value.Obj?
    decreases |keys|
  {
    if Nullish(current) then Err(TypeError)
    else if |keys| == 1 then Put(current, keys[0], Ok(x))
    else Put(current, keys[0], SetPath(Next(current, keys[0]), keys[1..], x))
  }

  /** The form data after the input named name was saved with value x, or the error thrown. */
  function SaveName(data: Object, name: string, x: Value): Result<Object, string>
  {
    var parts := Split(name, '.');
    if |parts| == 1 then Ok(data[parts[0] := x])
    else
      match SetPath(Obj(data), parts, x)
      case Ok(v) => Ok(if v.Obj? then v.fields else data)
      case Err(e) => Err(e)
  }

  /** The containers passed on the way down, given the new value r of the deepest one, rebuilt upward. */
  function Rebuild(containers: seq<Value>, keys: seq<string>, r: Result<Value, string>): Result<Value, string>
    requires |containers| <= |keys|
    decreases |containers|
  {
    if containers == [] then r
    else Rebuild(containers[..|containers| - 1], keys, Put(containers[|containers| - 1], keys[|containers| - 1], r))
  }

  lemma {:induction false} RebuildErr(containers: seq<Value>, keys: seq<string>, e: string)
    requires |containers| <= |keys|
    ensures Rebuild(containers, keys, Err(e)) == Err(e)
    decreases |containers|
  {
    if containers != [] {
      RebuildErr(containers[..|containers| - 1], keys, e);
    }
  }

  /**
   * The write in saveFormData for one input: a one-segment name is set on the form data;
   * otherwise the loop walks down the containers, storing `{}` under each falsy key, and the
   * last key of the deepest container is set. Objects are values here, so the containers
   * passed are then put back together from the deepest up.
   */
  method SaveField(data: Object, name: string, x: Value) returns (r: Result<Object, string>)
    ensures r == SaveName(data, name, x)
  {
    var parts := Split(name, '.');
    if |parts| == 1 {
      return Ok(data[parts[0] := x]);
    }
    var containers: seq<Value> := [];
    var current := Obj(data);
    var i := 0;
    while i < |parts| - 1
      invariant 0 <= i <= |parts| - 1 && |containers| == i
      invariant SetPath(Obj(data), parts, x) == Rebuild(containers, parts, SetPath(current, parts[i..], x))
    {
      if Nullish(current) {
        RebuildErr(containers, parts, TypeError);
        return Err(TypeError);
      }
      assert parts[i..][0] == parts[i] && parts[i..][1..] == parts[i + 1..];
      assert (containers + [current])[..i] == containers;
      containers := containers + [current];
      current := Next(current, parts[i]);
      i := i + 1;
    }
    if Nullish(current) {
      RebuildErr(containers, parts, TypeError);
      return Err(TypeError);
    }
    assert parts[i..] == [parts[i]];
    var v := if current.Obj? then Obj(current.fields[parts[i] := x]) else current;
    assert SetPath(current, parts[i..], x) == Ok(v);
    assert containers[..i] == containers;
    var j := i;
    while j > 0
      invariant 0 <= j <= i
      invariant SetPath(Obj(data), parts, x) == Rebuild(containers[..j], parts, Ok(v))
    {
      assert containers[..j][..j - 1] == containers[..j - 1];
      var c := containers[j - 1];
      v := if c.Obj? then Obj(c.fields[parts[j - 1] := v]) else c;
      j := j - 1;
    }
    assert containers[..0] == [];
    r := Ok(v.fields);
  }

  // ----- properties -----

  /** A text that is not a number input's reads back as itself. */
  lemma ParsedTextRoundTrip(value: string, inputType: string)
    requires inputType != "number"
    ensures ToJsString(ParseFormValue(value, inputType)) == value
  {
  }

  /** A number input holding a number's own text yields that number. */
  lemma ParsedNumberRoundTrip(d: Dec)
    ensures ParseFormValue(ToJsString(Num(d)), "number") == Num(d)
  {
    ParseFloatOfNumber(d);
  }

  /** An input's value is never undefined. */
  lemma ParsedIsDefined(value: string, inputType: string)
    ensures ParseFormValue(value, inputType) != Undef
  {
  }

  /** The walk takes the path through objects, or through keys it fills with `{}`. */
  predicate Writable(current: Value, keys: seq<string>)
    decreases |keys|
  {
    |keys| >= 1 && current.Obj? &&
    (|keys| == 1 ||
     ((!Truthy(Prop(current, keys[0])) || Prop(current, keys[0]).Obj?) && Writable(Next(current, keys[0]), keys[1..])))
  }

  /** Below a fresh `{}` every path is writable. */
  lemma {:induction false} FreshWritable(keys: seq<string>)
    requires |keys| >= 1
    ensures Writable(Obj(map[]), keys)
    decreases |keys|
  {
    if |keys| > 1 {
      FreshWritable(keys[1..]);
    }
  }

  /** A write along a writable path succeeds, and reading the path back yields the value written. */
  lemma {:induction false} ReadAfterWrite(current: Value, keys: seq<string>, x: Value)
    requires |keys| >= 1 && Writable(current, keys) && x != Undef
    ensures SetPath(current, keys, x).Ok?
    ensures Reduce(SetPath(current, keys, x).value, keys) == x
    ensures Lookup(SetPath(current, keys, x).value, keys) == x
    decreases |keys|
  {
    var k := keys[0];
    if |keys| == 1 {
      assert keys[1..] == [];
    } else {
      ReadAfterWrite(Next(current, k), keys[1..], x);
      var v := SetPath(Next(current, k), keys[1..], x).value;
      assert SetPath(current, keys, x) == Ok(Obj(current.fields[k := v]));
      assert v.Obj?;
    }
  }

  /** A write of a path that starts below a fresh `{}` never throws. */
  lemma FreshNeverThrows(keys: seq<string>, x: Value)
    requires |keys| >= 1
    ensures SetPath(Obj(map[]), keys, x).Ok?
  {
    FreshWritable(keys);
    if x == Undef {
      ReadAfterWrite(Obj(map[]), keys, Null);
      WriteOutcomeIgnoresValue(Obj(map[]), keys, x, Null);
    } else {
      ReadAfterWrite(Obj(map[]), keys, x);
    }
  }

  /** The walk stores no fresh `{}` anywhere along the path: every container it enters was already there. */
  predicate CreatesNothing(current: Value, keys: seq<string>)
    decreases |keys|
  {
    |keys| <= 1 ||
    (!(current.Obj? && !Truthy(Prop(current, keys[0]))) && CreatesNothing(Next(current, keys[0]), keys[1..]))
  }

  /**
   * A write that throws has stored nothing before throwing: a fresh `{}` is only entered
   * below an object, and nothing below a fresh `{}` throws. So a throw leaves the data as it was.
   */
  lemma {:induction false} ThrowCreatesNothing(current: Value, keys: seq<string>, x: Value)
    requires |keys| >= 1 && SetPath(current, keys, x).Err?
    ensures CreatesNothing(current, keys)
    decreases |keys|
  {
    if |keys| > 1 {
      if current.Obj? && !Truthy(Prop(current, keys[0])) {
        FreshNeverThrows(keys[1..], x);
        assert false;
      }
      ThrowCreatesNothing(Next(current, keys[0]), keys[1..], x);
    }
  }

  /** Whether a write throws does not depend on the value written. */
  lemma {:induction false} WriteOutcomeIgnoresValue(current: Value, keys: seq<string>, x: Value, y: Value)
    requires |keys| >= 1
    ensures SetPath(current, keys, x).Ok? <==> SetPath(current, keys, y).Ok?
    decreases |keys|
  {
    if |keys| > 1 {
      WriteOutcomeIgnoresValue(Next(current, keys[0]), keys[1..], x, y);
    }
  }

  /** After saving an input whose path is writable, getNestedValue of its name returns the parsed value. */
  lemma SavedInputReadsBack(data: Object, name: string, raw: string, inputType: string)
    requires Writable(Obj(data), Split(name, '.'))
    ensures SaveName(data, name, ParseFormValue(raw, inputType)).Ok?
    ensures GetNestedValue(Obj(SaveName(data, name, ParseFormValue(raw, inputType)).value), name)
         == ParseFormValue(raw, inputType)
  {
    var parts := Split(name, '.');
    var x := ParseFormValue(raw, inputType);
    ParsedIsDefined(raw, inputType);
    ReadAfterWrite(Obj(data), parts, x);
    if |parts| == 1 {
      assert SetPath(Obj(data), parts, x) == Ok(Obj(data[parts[0] := x]));
    }
  }

  /** A miss anywhere along the path reads as the placeholder in the intended lookup. */
  lemma {:induction false} LookupMiss(current: Value, keys: seq<string>)
    requires !Resolves(current, keys)
    ensures Lookup(current, keys) == NotSet
    decreases |keys|
  {
    if Truthy(current) && Prop(current, keys[0]) != Undef {
      LookupMiss(Prop(current, keys[0]), keys[1..]);
    }
  }

  /** Where the path resolves, the reduce as written and the intended lookup agree. */
  lemma {:induction false} ReduceAgrees(current: Value, keys: seq<string>)
    requires Resolves(current, keys)
    ensures Reduce(current, keys) == Lookup(current, keys)
    decreases |keys|
  {
    if keys != [] {
      ReduceAgrees(Prop(current, keys[0]), keys[1..]);
    }
  }

  /** On an empty form the path "a.length" reads the length of the placeholder: 7, not "Not set". */
  lemma PlaceholderLengthLeaks()
    ensures Reduce(Obj(map[]), ["a", "length"]) == Int(7)
    ensures Lookup(Obj(map[]), ["a", "length"]) == NotSet
  {
    assert Descend(Obj(map[]), "a") == NotSet;
    assert ["a", "length"][1..] == ["length"];
    assert Descend(NotSet, "length") == Int(7);
  }
}
