/**
 * The domain form of the React wizard (react_version/src/components/DomainForm.js): grid size,
 * spacing in km, projection parameters, nest count and projection name, edited field by field
 * and handed to the page on submit without any range check.
 */
module DomainForm {
  import opened Wrappers
  import opened Decimals
  import opened JsValue

  /** The values the form starts with when the page passes none. */
  const DefaultValues: Object := map[
    "e_we" := Int(100), "e_sn" := Int(100), "dx" := Int(30), "dy" := Int(30),
    "ref_lat" := Int(34), "ref_lon" := Int(118), "truelat1" := Int(30), "truelat2" := Int(60),
    "stand_lon" := Int(118), "max_dom" := Int(1), "map_proj" := Str("lambert")
  ]

  /** The `min`/`max` attributes declared on the number inputs. */
  const Bounds: seq<(string, Option<int>, Option<int>)> := [
    ("e_we", Some(3), None), ("e_sn", Some(3), None), ("dx", Some(0), None), ("dy", Some(0), None),
    ("ref_lat", Some(-90), Some(90)), ("ref_lon", Some(-180), Some(180)),
    ("truelat1", Some(-90), Some(90)), ("truelat2", Some(-90), Some(90)),
    ("stand_lon", Some(-180), Some(180)), ("max_dom", Some(1), Some(10))
  ]

  /** The options of the projection select. */
  const Projections: set<string> := {"lambert", "polar", "mercator", "lat-lon"}

  /** A number within a declared minimum and maximum. */
  predicate Within(v: Value, lo: Option<int>, hi: Option<int>)
  {
    v.Num? && (lo.Some? ==> !LessThan(v, lo.value)) && (hi.Some? ==> !GreaterThan(v, hi.value))
  }

  /** Form values that every declared bound and the projection select would accept. */
  predicate InDeclaredBounds(values: Object)
  {
    (forall i :: 0 <= i < |Bounds| ==> Within(Get(values, Bounds[i].0), Bounds[i].1, Bounds[i].2))
    && Get(values, "map_proj").Str? && Get(values, "map_proj").s in Projections
  }

  /** What handleChange stores for an input's value: parseFloat for number inputs, the raw string otherwise. */
  function InputValue(value: string, isNumber: bool): (r: Value)
    ensures isNumber ==> r.Num? || r.NaN?
    ensures !isNumber ==> r == Str(value)
  {
    if isNumber then ParseFloat(value) else Str(value)
  }

  /** The form's state. */
  class Form {
    var values: Object
    var isSubmitting: bool
    var showSuccessAlert: bool

    constructor (defaultValues: Object)
      ensures values == defaultValues && !isSubmitting && !showSuccessAlert
    {
      values := defaultValues;
      isSubmitting := false;
      showSuccessAlert := false;
    }

    /** handleChange: only the named field changes. */
    method HandleChange(name: string, value: string, isNumber: bool)
      modifies this
      ensures values == old(values)[name := InputValue(value, isNumber)]
      ensures isSubmitting == old(isSubmitting) && showSuccessAlert == old(showSuccessAlert)
    {
      MergeSingleton(values, name, InputValue(value, isNumber));
      values := Merge(values, map[name := InputValue(value, isNumber)]);
    }

    /**
     * handleFormSubmit with its delay taken as immediate: the current values go to onSubmit
     * when the page gives one (returned here), whatever they are; without one the success
     * alert is shown instead.
     */
    method HandleFormSubmit(hasOnSubmit: bool) returns (submitted: Option<Object>)
      modifies this
      ensures submitted == if hasOnSubmit then Some(old(values)) else None
      ensures values == old(values) && !isSubmitting
      ensures showSuccessAlert == (old(showSuccessAlert) || !hasOnSubmit)
    {
      isSubmitting := true;
      if hasOnSubmit {
        submitted := Some(values);
      } else {
        submitted := None;
        showSuccessAlert := true;
      }
      isSubmitting := false;
    }
  }

  // ----- properties -----

  lemma DefaultGrid()
    ensures forall i :: 0 <= i < 4 ==> Within(Get(DefaultValues, Bounds[i].0), Bounds[i].1, Bounds[i].2)
  {
    assert Get(DefaultValues, "e_we") == Int(100) && Get(DefaultValues, "e_sn") == Int(100);
    assert Get(DefaultValues, "dx") == Int(30) && Get(DefaultValues, "dy") == Int(30);
  }

  lemma DefaultCoordinates()
    ensures forall i :: 4 <= i < |Bounds| ==> Within(Get(DefaultValues, Bounds[i].0), Bounds[i].1, Bounds[i].2)
  {
    assert Get(DefaultValues, "ref_lat") == Int(34) && Get(DefaultValues, "ref_lon") == Int(118);
    assert Get(DefaultValues, "truelat1") == Int(30) && Get(DefaultValues, "truelat2") == Int(60);
    assert Get(DefaultValues, "stand_lon") == Int(118) && Get(DefaultValues, "max_dom") == Int(1);
  }

  /** The default values lie within every declared bound, with lambert among the projections. */
  lemma DefaultsInDeclaredBounds()
    ensures InDeclaredBounds(DefaultValues)
  {
    DefaultGrid();
    DefaultCoordinates();
  }

  /** A grid of fewer than 3 points violates the declared bounds, yet the form still submits such values. */
  lemma SmallGridOutOfBounds(values: Object)
    requires Get(values, "e_we") == Int(2)
    ensures !InDeclaredBounds(values)
  {
    assert Bounds[0].0 == "e_we" && Bounds[0].1 == Some(3);
    assert LessThan(Int(2), 3);
  }
}
