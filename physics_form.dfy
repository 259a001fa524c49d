/**
 * The physics form of the React wizard (react_version/src/components/PhysicsForm.js): six
 * selects, one per physics scheme, whose options are the codes of the option registry.
 * A choice is stored as `parseInt` of the option's key; rendering shows each field's
 * current value through `toString()`.
 */
module PhysicsForm {
  import opened Wrappers
  import opened Decimals
  import opened JsValue
  import opened Options

  /** The six fields, in the order the selects are rendered. */
  const Fields: seq<string> := [
    "mp_physics", "ra_lw_physics", "ra_sw_physics", "sf_surface_physics", "bl_pbl_physics", "cu_physics"]

  /** The values the form starts with when the page passes none. */
  const DefaultValues: Object := map[
    "mp_physics" := Int(6), "ra_lw_physics" := Int(1), "ra_sw_physics" := Int(1),
    "sf_surface_physics" := Int(2), "bl_pbl_physics" := Int(1), "cu_physics" := Int(1)]

  /**
   * The `defaultValue` of each select, `formValues[field].toString()`, for the given fields
   * in order; reading a null or undefined field throws.
   */
  function SelectDefaults(values: Object, fields: seq<string>): (r: Result<seq<string>, string>)
    ensures r.Err? <==> exists i :: 0 <= i < |fields| && Nullish(Get(values, fields[i]))
    ensures r.Err? ==> r.error == TypeError
    ensures r.Ok? ==> |r.value| == |fields|
    ensures r.Ok? ==> forall i :: 0 <= i < |fields| ==> r.value[i] == ToJsString(Get(values, fields[i]))
  {
    if fields == [] then Ok([])
    else if Nullish(Get(values, fields[0])) then Err(TypeError)
    else
      match SelectDefaults(values, fields[1..])
      case Err(e) => Err(e)
      case Ok(rest) =>
        assert forall i :: 1 <= i < |fields| ==> fields[i] == fields[1..][i - 1];
        Ok([ToJsString(Get(values, fields[0]))] + rest)
  }

  /** The values of a field's select: `Object.entries(PHYSICS_OPTIONS[field])` keys, or None for a field the registry lacks. */
  function OptionValues(field: string): (r: Option<seq<string>>)
    ensures r.Some? ==> exists i :: 0 <= i < |PhysicsOptions| && PhysicsOptions[i].0 == field
                                    && r.value == Keys(PhysicsOptions[i].1)
    ensures r.None? ==> forall i :: 0 <= i < |PhysicsOptions| ==> PhysicsOptions[i].0 != field
  {
    match TableOf(PhysicsOptions, field)
    case Some(t) => Some(Keys(t))
    case None => None
  }

  /** The form's state. */
  class Form {
    var values: Object
    var isSubmitting: bool

    constructor (defaultValues: Object)
      ensures values == defaultValues && !isSubmitting
    {
      values := defaultValues;
      isSubmitting := false;
    }

    /** handleChange: the named field becomes `parseInt(value)`; nothing else changes. */
    method HandleChange(name: string, value: string)
      modifies this
      ensures values == old(values)[name := ParseInt(value)]
      ensures isSubmitting == old(isSubmitting)
    {
      MergeSingleton(values, name, ParseInt(value));
      values := Merge(values, map[name := ParseInt(value)]);
    }

    /**
     * handleSubmit with its delay taken as immediate: the current values go to onSubmit
     * when the page gives one (returned here), and submitting ends.
     */
    method HandleSubmit(hasOnSubmit: bool) returns (submitted: Option<Object>)
      modifies this
      ensures submitted == if hasOnSubmit then Some(old(values)) else None
      ensures values == old(values) && !isSubmitting
    {
      isSubmitting := true;
      if hasOnSubmit {
        submitted := Some(values);
      } else {
        submitted := None;
      }
      isSubmitting := false;
    }
  }

  /** The values after a HandleChange for each (name, value) of changes, in order, from seed. */
  function AfterChanges(seed: Object, changes: seq<(string, string)>): Object
  {
    if changes == [] then seed
    else
      var last := changes[|changes| - 1];
      AfterChanges(seed, changes[..|changes| - 1])[last.0 := ParseInt(last.1)]
  }

  // ----- properties -----

  /** The list the Physics page gates on is not one of the select fields. */
  lemma ListNotAField()
    ensures "mp_physics_arr" !in Fields
  {
    assert forall i :: 0 <= i < |Fields| ==> |Fields[i]| != |"mp_physics_arr"| || Fields[i][3] != '_';
  }

  /** Changes to the selects leave every other key of the seed as it was. */
  /** No select field ends in `_arr`: each ends in "physics". */
  lemma ListsNotFields(field: string)
    ensures field + "_arr" !in Fields
  {
    var k := field + "_arr";
    assert k[|k| - 1] == 'r';
    assert forall i :: 0 <= i < |Fields| ==> Fields[i][|Fields[i]| - 1] == 's';
  }

  lemma {:induction false} ChangesKeepOtherKeys(seed: Object, changes: seq<(string, string)>, k: string)
    requires forall i :: 0 <= i < |changes| ==> changes[i].0 in Fields
    requires k !in Fields
    ensures Get(AfterChanges(seed, changes), k) == Get(seed, k)
  {
    if changes != [] {
      ChangesKeepOtherKeys(seed, changes[..|changes| - 1], k);
      assert changes[|changes| - 1].0 in Fields;
    }
  }

  /** An integer prints as the key the registry stores its code under. */
  lemma IntPrintsAsKey(c: nat)
    ensures ToJsString(Int(c)) == Key(c)
  {
    assert FixedString(FromInt(c)) == "" + NatToDigits(c);
  }

  /**
   * Choosing the option of code c stores that code, and the select shows the same option
   * again: `parseInt` of the key is the code, and the code's `toString()` is the key.
   */
  lemma {:induction false} ChoiceRoundTrip(values: Object, name: string, c: nat)
    ensures values[name := ParseInt(Key(c))][name] == Int(c)
    ensures ToJsString(values[name := ParseInt(Key(c))][name]) == Key(c)
  {
    DigitsRoundTrip(c);
    ParseIntOfDigits(Key(c));
    IntPrintsAsKey(c);
  }

  /** Every option a select offers, once chosen, stores a code of that field's table. */
  lemma OfferedChoiceStoresCode(values: Object, field: string, i: nat)
    requires OptionValues(field).Some? && i < |OptionValues(field).value|
    ensures exists j :: 0 <= j < |PhysicsOptions| && PhysicsOptions[j].0 == field
                        && i < |PhysicsOptions[j].1|
                        && values[field := ParseInt(OptionValues(field).value[i])][field] == Int(PhysicsOptions[j].1[i].0)
  {
    var j :| 0 <= j < |PhysicsOptions| && PhysicsOptions[j].0 == field
             && OptionValues(field).value == Keys(PhysicsOptions[j].1);
    ChoiceRoundTrip(values, field, PhysicsOptions[j].1[i].0);
  }

  /** A change never makes the form unrenderable: parseInt never yields null or undefined. */
  lemma ChangeKeepsRendering(values: Object, name: string, value: string)
    requires SelectDefaults(values, Fields).Ok?
    ensures SelectDefaults(values[name := ParseInt(value)], Fields).Ok?
  {
    var v := values[name := ParseInt(value)];
    forall i | 0 <= i < |Fields|
      ensures !Nullish(Get(v, Fields[i]))
    {
      assert !Nullish(Get(values, Fields[i]));
    }
  }

  /** Values without a field the selects read cannot be rendered. */
  lemma MissingFieldThrows(values: Object, field: string)
    requires field in Fields && field !in values
    ensures SelectDefaults(values, Fields) == Err(TypeError)
  {
    var i :| 0 <= i < |Fields| && Fields[i] == field;
    assert Nullish(Get(values, Fields[i]));
  }

  /** The defaults render: every select has a value to show. */
  lemma DefaultsRender()
    ensures SelectDefaults(DefaultValues, Fields).Ok?
  {
    forall i | 0 <= i < |Fields|
      ensures !Nullish(Get(DefaultValues, Fields[i]))
    {
      assert Fields[i] in DefaultValues;
    }
  }

  lemma DefaultsAreRegistryDefaults()
    ensures DefaultValues == DefaultPhysics()
  {
  }

  /** The form's defaults are the registry's default physics, so each is a code its table offers. */
  lemma DefaultsOffered()
    ensures DefaultValues == DefaultPhysics()
    ensures forall i :: 0 <= i < |PhysicsOptions| ==> Offered(DefaultValues, PhysicsOptions[i].0, PhysicsOptions[i].1)
  {
    DefaultsAreRegistryDefaults();
    DefaultMicrophysicsAndLongwave();
    DefaultShortwaveAndSurface();
    DefaultBoundaryLayerAndCumulus();
  }
}
