/**
 * The dynamics form of the React wizard (react_version/src/components/DynamicsForm.js). Its
 * values are single-element lists under `diff_opt_arr`, `km_opt_arr` and
 * `non_hydrostatic_arr`, seeded from the store's dynamics section, with fallbacks from the
 * option registry for lists the section does not have.
 */
module DynamicsForm {
  import opened Wrappers
  import opened Decimals
  import opened JsValue
  import opened Options

  /** A field initializeFormValues walks: its name, its list key `${field}_arr`, and its fallback list. */
  datatype Field = Field(name: string, key: string, fallback: Value)

  /**
   * The fields in order; FieldsFallBack proves each fallback is the one the initializer
   * computes from the option registry.
   */
  const Fields: seq<Field> := [
    Field("diff_opt", "diff_opt_arr", Arr([Int(0)])), Field("km_opt", "km_opt_arr", Arr([Int(1)])),
    Field("non_hydrostatic", "non_hydrostatic_arr", Arr([Bool(true)]))]

  const DiffMessage := "请选择扩散选项"
  const KmMessage := "请选择湍流系数选项"

  /** `[...v]`: the elements an array or a string iterates over; any other value is not iterable. */
  function Iterate(v: Value): (r: Result<seq<Value>, string>)
    ensures r.Err? <==> !v.Arr? && !v.Str?
    ensures r.Err? ==> r.error == TypeError
  {
    match v
    case Arr(xs) => Ok(xs)
    case Str(s) => Ok(Chars(s))
    case _ => Err(TypeError)
  }

  /** The fallback list of a field the seed lacks: [true], or the registry's first code. */
  function Fallback(field: string): Value
  {
    if field == "non_hydrostatic" then Arr([Bool(true)])
    else
      match TableOf(DynamicsOptions, field)
      case Some(t) =>
        if |Keys(t)| > 0 then Arr([ParseInt(Keys(t)[0])])
        else Arr([Int(if field == "diff_opt" then 2 else 4)])
      case None => Arr([Int(if field == "diff_opt" then 2 else 4)])
  }

  /**
   * One step of initializeFormValues: a copy of the seed's list when it is truthy with a
   * positive length, the fallback otherwise. Copying throws for an object with a positive
   * length, which is not iterable; every list built has at least one element.
   */
  function Entry(dv: Value, key: string, fallback: Value): (r: Result<Value, string>)
    ensures var list := Prop(dv, key);
      r.Err? <==> list.Obj? && GreaterThan(Prop(list, "length"), 0)
    ensures r.Err? ==> r.error == TypeError
    ensures r.Ok? && fallback.Arr? && |fallback.items| >= 1 ==> r.value.Arr? && |r.value.items| >= 1
  {
    var list := Prop(dv, key);
    if Truthy(list) && GreaterThan(Prop(list, "length"), 0) then
      match Iterate(list)
      case Ok(xs) =>
        assert |xs| > 0 by {
          assert Prop(list, "length") == Int(|xs|);
        }
        Ok(Arr(xs))
      case Err(e) => Err(e)
    else
      assert !list.Obj? || !GreaterThan(Prop(list, "length"), 0);
      Ok(fallback)
  }

  /** Distinct list keys. */
  predicate DistinctKeys(fields: seq<Field>)
  {
    forall i, j :: 0 <= i < j < |fields| ==> fields[i].key != fields[j].key
  }

  /** The entries for the given fields, in order, or the error of the first entry that throws. */
  function Collect(dv: Value, fields: seq<Field>): Result<Object, string>
  {
    if fields == [] then Ok(map[])
    else
      var last := fields[|fields| - 1];
      match Collect(dv, fields[..|fields| - 1])
      case Err(e) => Err(e)
      case Ok(m) =>
        match Entry(dv, last.key, last.fallback)
        case Err(e) => Err(e)
        case Ok(v) => Ok(m[last.key := v])
  }

  /** Collecting throws exactly when one of the entries throws. */
  lemma {:induction false} CollectThrows(dv: Value, fields: seq<Field>)
    ensures Collect(dv, fields).Err? <==> exists i :: 0 <= i < |fields| && Entry(dv, fields[i].key, fields[i].fallback).Err?
    ensures Collect(dv, fields).Err? ==> Collect(dv, fields).error == TypeError
  {
    if fields != [] {
      var init := fields[..|fields| - 1];
      CollectThrows(dv, init);
      assert forall i :: 0 <= i < |init| ==> init[i] == fields[i];
    }
  }

  /** A successful collection holds one list under each field's key and nothing else. */
  lemma {:induction false} CollectKeys(dv: Value, fields: seq<Field>)
    requires Collect(dv, fields).Ok?
    ensures forall k :: k in Collect(dv, fields).value <==> exists i :: 0 <= i < |fields| && fields[i].key == k
  {
    if fields != [] {
      var init := fields[..|fields| - 1];
      var last := fields[|fields| - 1];
      CollectKeys(dv, init);
      var m := Collect(dv, init).value;
      var r := Collect(dv, fields).value;
      assert r.Keys == m.Keys + {last.key};
      forall k | k in r
        ensures exists i :: 0 <= i < |fields| && fields[i].key == k
      {
        if k != last.key {
          var i :| 0 <= i < |init| && init[i].key == k;
          assert fields[i] == init[i];
        }
      }
      forall k | exists i :: 0 <= i < |fields| && fields[i].key == k
        ensures k in r
      {
        var i :| 0 <= i < |fields| && fields[i].key == k;
        if i < |init| {
          assert init[i] == fields[i];
        }
      }
    }
  }

  /** With distinct keys, each field's list in a successful collection is the one Entry builds for it. */
  lemma {:induction false} CollectEntries(dv: Value, fields: seq<Field>)
    requires DistinctKeys(fields) && Collect(dv, fields).Ok?
    ensures forall i :: 0 <= i < |fields| ==>
              Entry(dv, fields[i].key, fields[i].fallback).Ok?
              && fields[i].key in Collect(dv, fields).value
              && Collect(dv, fields).value[fields[i].key] == Entry(dv, fields[i].key, fields[i].fallback).value
  {
    if fields != [] {
      var init := fields[..|fields| - 1];
      var last := fields[|fields| - 1];
      assert DistinctKeys(init) by {
        assert forall i :: 0 <= i < |init| ==> init[i] == fields[i];
      }
      CollectEntries(dv, init);
      var m := Collect(dv, init).value;
      var v := Entry(dv, last.key, last.fallback).value;
      assert Collect(dv, fields).value == m[last.key := v];
      forall i | 0 <= i < |fields|
        ensures Entry(dv, fields[i].key, fields[i].fallback).Ok?
                && fields[i].key in m[last.key := v]
                && m[last.key := v][fields[i].key] == Entry(dv, fields[i].key, fields[i].fallback).value
      {
        if i < |init| {
          assert init[i] == fields[i];
          assert fields[i].key != last.key;
        }
      }
    }
  }

  lemma FieldsDistinct()
    ensures DistinctKeys(Fields)
  {
  }

  /** What initializeFormValues returns (or throws): `{}` for a falsy seed. */
  function InitialValues(dv: Value): Result<Object, string>
  {
    if !Truthy(dv) then Ok(map[]) else Collect(dv, Fields)
  }

  /** initializeFormValues, walking the three fields and filling a local object. */
  method InitializeFormValues(dv: Value) returns (r: Result<Object, string>)
    ensures r == InitialValues(dv)
  {
    if !Truthy(dv) {
      return Ok(map[]);
    }
    var initial: Object := map[];
    var i := 0;
    while i < |Fields|
      invariant 0 <= i <= |Fields|
      invariant Collect(dv, Fields[..i]) == Ok(initial)
    {
      var e := Entry(dv, Fields[i].key, Fields[i].fallback);
      if e.Err? {
        CollectThrows(dv, Fields);
        return Err(e.error);
      }
      assert Fields[..i + 1][..i] == Fields[..i];
      initial := initial[Fields[i].key := e.value];
      i := i + 1;
    }
    assert Fields[..i] == Fields;
    r := Ok(initial);
  }

  /** `!list || list[0] === undefined`: the condition validateForm reports. */
  predicate Unset(list: Value)
  {
    !Truthy(list) || Index(list, 0) == Undef
  }

  /** The form passes validateForm: both option lists are set. */
  predicate Valid(values: Object)
  {
    !Unset(Get(values, "diff_opt_arr")) && !Unset(Get(values, "km_opt_arr"))
  }

  /** What handleChange stores: parseInt of a select's value, the checkbox's value as it is. */
  function Processed(fieldName: string, value: Value): (r: Value)
    ensures fieldName != "non_hydrostatic_arr" ==> r.Num? || r.NaN?
    ensures fieldName == "non_hydrostatic_arr" ==> r == value
  {
    if fieldName != "non_hydrostatic_arr" then ParseIntValue(value) else value
  }

  /** The form's state. */
  class Form {
    var values: Object
    var errors: Object
    var isSubmitting: bool

    /** The state after the first render, from what initializeFormValues returned. */
    constructor (initial: Object)
      ensures values == initial && errors == map[] && !isSubmitting
    {
      values := initial;
      errors := map[];
      isSubmitting := false;
    }

    /** The effect run when the seed changes: values re-initialised, errors cleared. */
    method Reseed(initial: Object)
      modifies this
      ensures values == initial && errors == map[] && isSubmitting == old(isSubmitting)
    {
      values := initial;
      errors := map[];
    }

    /** handleChange: the field becomes a one-element list; its error, if truthy, is cleared to null. */
    method HandleChange(fieldName: string, value: Value)
      modifies this
      ensures values == old(values)[fieldName := Arr([Processed(fieldName, value)])]
      ensures errors == if Truthy(Get(old(errors), fieldName)) then old(errors)[fieldName := Null] else old(errors)
      ensures isSubmitting == old(isSubmitting)
    {
      var processed := value;
      if fieldName != "non_hydrostatic_arr" {
        processed := ParseIntValue(value);
      }
      MergeSingleton(values, fieldName, Arr([processed]));
      values := Merge(values, map[fieldName := Arr([processed])]);
      if Truthy(Get(errors, fieldName)) {
        MergeSingleton(errors, fieldName, Null);
        errors := Merge(errors, map[fieldName := Null]);
      }
    }

    /** validateForm: a fresh error map with a message for each unset option list. */
    method ValidateForm() returns (valid: bool)
      modifies this
      ensures errors.Keys <= {"diff_opt_arr", "km_opt_arr"}
      ensures "diff_opt_arr" in errors <==> Unset(Get(values, "diff_opt_arr"))
      ensures "km_opt_arr" in errors <==> Unset(Get(values, "km_opt_arr"))
      ensures "diff_opt_arr" in errors ==> errors["diff_opt_arr"] == Str(DiffMessage)
      ensures "km_opt_arr" in errors ==> errors["km_opt_arr"] == Str(KmMessage)
      ensures valid <==> errors == map[]
      ensures valid <==> Valid(values)
      ensures values == old(values) && isSubmitting == old(isSubmitting)
    {
      var newErrors: Object := map[];
      if Unset(Get(values, "diff_opt_arr")) {
        newErrors := newErrors["diff_opt_arr" := Str(DiffMessage)];
      }
      if Unset(Get(values, "km_opt_arr")) {
        newErrors := newErrors["km_opt_arr" := Str(KmMessage)];
      }
      errors := newErrors;
      valid := |newErrors.Keys| == 0;
      assert valid ==> "diff_opt_arr" !in newErrors && "km_opt_arr" !in newErrors;
    }

    /** handleFormSubmit with its delay taken as immediate: onSubmit receives the values only when they validate. */
    method HandleFormSubmit(hasOnSubmit: bool) returns (submitted: Option<Object>)
      modifies this
      ensures submitted == if Valid(old(values)) && hasOnSubmit then Some(old(values)) else None
      ensures values == old(values)
      ensures Valid(values) ==> errors == map[] && !isSubmitting
      ensures !Valid(values) ==> errors != map[] && isSubmitting == old(isSubmitting)
    {
      var valid := ValidateForm();
      submitted := None;
      if valid {
        isSubmitting := true;
        if hasOnSubmit {
          submitted := Some(values);
        }
        isSubmitting := false;
      }
    }
  }

  // ----- properties -----

  /** Each one-character string of s, in place. */
  lemma {:induction false} CharsAt(s: string, i: nat)
    requires i < |s|
    ensures Chars(s)[i] == Str([s[i]])
    decreases |s|
  {
    if i < |s| - 1 {
      CharsAt(s[..|s| - 1], i);
      assert s[..|s| - 1][i] == s[i];
    }
  }

  /** The seeded form has exactly the three lists, or the seed is falsy and the form is empty. */
  lemma InitialKeys(dv: Value)
    requires InitialValues(dv).Ok?
    ensures !Truthy(dv) ==> InitialValues(dv).value == map[]
    ensures Truthy(dv) ==> InitialValues(dv).value.Keys == {"diff_opt_arr", "km_opt_arr", "non_hydrostatic_arr"}
  {
    if Truthy(dv) {
      var m := InitialValues(dv).value;
      CollectKeys(dv, Fields);
      assert Fields[0].key == "diff_opt_arr" && Fields[1].key == "km_opt_arr" && Fields[2].key == "non_hydrostatic_arr";
      forall k | k in m
        ensures k in {"diff_opt_arr", "km_opt_arr", "non_hydrostatic_arr"}
      {
        var i :| 0 <= i < |Fields| && Fields[i].key == k;
      }
    }
  }

  /** Every list of a seeded form is an array with at least one element. */
  lemma InitialLists(dv: Value)
    requires InitialValues(dv).Ok?
    ensures forall k :: k in InitialValues(dv).value ==>
              InitialValues(dv).value[k].Arr? && |InitialValues(dv).value[k].items| >= 1
  {
    if Truthy(dv) {
      FieldsDistinct();
      CollectKeys(dv, Fields);
      CollectEntries(dv, Fields);
      var m := InitialValues(dv).value;
      forall k | k in m
        ensures m[k].Arr? && |m[k].items| >= 1
      {
        var i :| 0 <= i < |Fields| && Fields[i].key == k;
        assert Fields[i].fallback.Arr? && |Fields[i].fallback.items| >= 1;
      }
    }
  }

  /** initializeFormValues throws exactly when the seed is truthy and holds, under one of the keys, an object with a positive length. */
  lemma InitialThrows(dv: Value)
    ensures InitialValues(dv).Err? <==>
              Truthy(dv) && exists i :: 0 <= i < |Fields| && (var list := Prop(dv, Fields[i].key);
                list.Obj? && GreaterThan(Prop(list, "length"), 0))
  {
    CollectThrows(dv, Fields);
  }

  /** Each fallback is what the initializer computes: [true] for non_hydrostatic, the registry's first code otherwise. */
  lemma FieldsFallBack()
    ensures forall i :: 0 <= i < |Fields| ==> Fields[i].fallback == Fallback(Fields[i].name)
  {
    assert TableOf(DynamicsOptions, "diff_opt") == Some(DiffOpt);
    assert TableOf(DynamicsOptions, "km_opt") == Some(KmOpt);
    FirstKeyParses(DiffOpt);
    FirstKeyParses(KmOpt);
  }

  /** A non-empty array in the seed is copied as it is. */
  lemma CopiesList(dv: Value, key: string, fallback: Value, xs: seq<Value>)
    requires Prop(dv, key) == Arr(xs) && |xs| > 0
    ensures Entry(dv, key, fallback) == Ok(Arr(xs))
  {
  }

  /** A missing list falls back. */
  lemma MissingFallsBack(dv: Value, key: string, fallback: Value)
    requires Nullish(Prop(dv, key))
    ensures Entry(dv, key, fallback) == Ok(fallback)
  {
  }

  /** A list built for the form is set unless it copies a seed list whose element 0 is undefined. */
  lemma EntrySet(dv: Value, key: string, fallback: Value)
    requires Entry(dv, key, fallback).Ok? && !Unset(fallback)
    requires Index(Prop(dv, key), 0) != Undef
    ensures !Unset(Entry(dv, key, fallback).value)
  {
    var list := Prop(dv, key);
    if list.Str? && Truthy(list) && GreaterThan(Prop(list, "length"), 0) {
      CharsAt(list.s, 0);
    }
  }

  /** A form seeded from lists whose element 0 is defined passes validation. */
  lemma InitialValid(dv: Value)
    requires Truthy(dv) && InitialValues(dv).Ok?
    requires Index(Prop(dv, "diff_opt_arr"), 0) != Undef && Index(Prop(dv, "km_opt_arr"), 0) != Undef
    ensures Valid(InitialValues(dv).value)
  {
    InitialEntry(dv, 0);
    InitialEntry(dv, 1);
    var f0 := Fields[0];
    var f1 := Fields[1];
    assert f0 == Field("diff_opt", "diff_opt_arr", Arr([Int(0)]));
    assert f1 == Field("km_opt", "km_opt_arr", Arr([Int(1)]));
    EntrySet(dv, f0.key, f0.fallback);
    EntrySet(dv, f1.key, f1.fallback);
  }

  /** The list under a field's key in a seeded form is the entry built for that field. */
  lemma InitialEntry(dv: Value, i: nat)
    requires Truthy(dv) && InitialValues(dv).Ok? && i < |Fields|
    ensures Entry(dv, Fields[i].key, Fields[i].fallback).Ok?
    ensures Get(InitialValues(dv).value, Fields[i].key) == Entry(dv, Fields[i].key, Fields[i].fallback).value
  {
    FieldsDistinct();
    CollectEntries(dv, Fields);
  }

  /** A copied list that starts with undefined fails validation, though the seed was accepted. */
  lemma UndefinedHeadInvalid(dv: Value)
    requires Truthy(dv) && InitialValues(dv).Ok? && Prop(dv, "diff_opt_arr") == Arr([Undef])
    ensures !Valid(InitialValues(dv).value)
  {
    InitialEntry(dv, 0);
    var f0 := Fields[0];
    assert f0.key == "diff_opt_arr";
    CopiesList(dv, f0.key, f0.fallback, [Undef]);
  }

  /** Any choice made with a select sets that list: parseInt yields a number or NaN, never undefined. */
  lemma ChangeSetsList(values: Object, fieldName: string, value: Value)
    requires fieldName != "non_hydrostatic_arr" || value != Undef
    ensures !Unset(values[fieldName := Arr([Processed(fieldName, value)])][fieldName])
  {
    var p := Processed(fieldName, value);
    assert p != Undef;
    assert Index(Arr([p]), 0) == p;
  }

  /** Choosing any code from a select stores that code and keeps the form valid, 0 included: validation tests for undefined, not for falsiness. */
  lemma OptionChoiceValid(values: Object, c: nat)
    requires Valid(values)
    ensures Processed("diff_opt_arr", Str(Key(c))) == Int(c)
    ensures Valid(values["diff_opt_arr" := Arr([Processed("diff_opt_arr", Str(Key(c)))])])
  {
    DigitsRoundTrip(c);
    ParseIntOfDigits(Key(c));
    assert Index(Arr([Int(c)]), 0) == Int(c);
  }
}
