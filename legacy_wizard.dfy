/**
 * The legacy web wizard's page logic: saving every named form control into the form
 * data, moving between the five step pages with their progress indicators, and the
 * Generate button, which validates steps 1 to 4, saves, fills in the nest defaults of
 * the domain section and posts the form data.
 */
module LegacyWizard {
  import opened Wrappers
  import opened JsValue
  import opened LegacyForm

  /** A form control: its name attribute, the text it holds and its type attribute. */
  datatype Input = Input(name: string, value: string, inputType: string)

  /** A progress-bar step item: its data-step number and its two classes. */
  datatype Indicator = Indicator(step: int, active: bool, completed: bool)

  /** The form data after a save pass, and whether a TypeError ended the pass early. */
  datatype Saved = Saved(data: Object, threw: bool)

  /** What a click on Generate leads to. */
  datatype Generated =
    | Invalid            // some step failed validation: nothing changes
    | Threw              // a TypeError ended the handler before the request
    | Posted(body: Object) // the form data sent to /generate

  /** The form data the page starts with: four empty sections. */
  const InitialFormData: Object :=
    map["domain" := Obj(map[]), "physics" := Obj(map[]), "dynamics" := Obj(map[]), "user_settings" := Obj(map[])]

  /** The review page, whose arrival refreshes the configuration summary. */
  const ReviewStep := 5

  /** The number of steps the Generate button validates. */
  const ValidatedSteps := 4

  // ----- saveFormData -----

  /** One control of a save pass: skipped when unnamed or after a throw, else written by SaveName. */
  function SaveInput(prior: Saved, input: Input): Saved
  {
    if prior.threw || input.name == "" then prior
    else
      match SaveName(prior.data, input.name, ParseFormValue(input.value, input.inputType))
      case Ok(d) => Saved(d, false)
      case Err(_) => Saved(prior.data, true)
  }

  /** A save pass over the controls in document order: unnamed controls are skipped and a throw ends the pass. */
  function SaveAll(data: Object, inputs: seq<Input>): Saved
    decreases |inputs|
  {
    if inputs == [] then Saved(data, false)
    else SaveInput(SaveAll(data, inputs[..|inputs| - 1]), inputs[|inputs| - 1])
  }

  /**
   * The saves of an arrival at target: one pass, and at the review step a second pass when
   * the first did not throw.
   */
  function ArrivalSave(data: Object, inputs: seq<Input>, target: int): Saved
  {
    var first := SaveAll(data, inputs);
    if first.threw || target != ReviewStep then first else SaveAll(first.data, inputs)
  }

  lemma SaveAllPrefix(data: Object, inputs: seq<Input>, i: nat)
    requires i < |inputs|
    ensures SaveAll(data, inputs[..i + 1]) == SaveInput(SaveAll(data, inputs[..i]), inputs[i])
  {
    assert inputs[..i + 1][..i] == inputs[..i];
  }

  /** `saveFormData()`: the loop over the controls, each named one written by SaveField. */
  method SaveFormData(data: Object, inputs: seq<Input>) returns (s: Saved)
    ensures s == SaveAll(data, inputs)
  {
    s := Saved(data, false);
    var i := 0;
    while i < |inputs|
      invariant 0 <= i <= |inputs|
      invariant s == SaveAll(data, inputs[..i]) && !s.threw
    {
      SaveAllPrefix(data, inputs, i);
      var input := inputs[i];
      if input.name != "" {
        var r := SaveField(s.data, input.name, ParseFormValue(input.value, input.inputType));
        if r.Err? {
          s := Saved(s.data, true);
          SaveAllAfterThrow(data, inputs, i + 1);
          return;
        }
        s := Saved(r.value, false);
      }
      i := i + 1;
    }
    assert inputs[..i] == inputs;
  }

  /** Once a control has thrown, the controls after it are not saved. */
  lemma {:induction false} SaveAllAfterThrow(data: Object, inputs: seq<Input>, k: nat)
    requires k <= |inputs| && SaveAll(data, inputs[..k]).threw
    ensures SaveAll(data, inputs) == SaveAll(data, inputs[..k])
    decreases |inputs| - k
  {
    if k < |inputs| {
      SaveAllPrefix(data, inputs, k);
      SaveAllAfterThrow(data, inputs, k + 1);
    } else {
      assert inputs[..k] == inputs;
    }
  }

  // ----- the generate-time backfill -----

  /** An array of integers. */
  function Ints(xs: seq<int>): (r: Value)
    ensures r.Arr? && |r.items| == |xs|
    ensures forall i :: 0 <= i < |xs| ==> r.items[i] == Int(xs[i])
  {
    Arr(seq(|xs|, i requires 0 <= i < |xs| => Int(xs[i])))
  }

  /** `if (!domain[key]) domain[key] = default`: a store into anything but an object is lost. */
  function FillDefault(domain: Value, key: string, default: Value): Value
  {
    if !Truthy(Prop(domain, key)) && domain.Obj? then Obj(domain.fields[key := default]) else domain
  }

  /** The four nest settings of the domain section with the values Generate fills in for them. */
  const DefaultKeys: seq<string> := ["parent_grid_ratio", "i_parent_start", "j_parent_start", "parent_time_step_ratio"]

  function DefaultOf(key: string): Value
  {
    if key == "i_parent_start" then Ints([1, 31, 31])
    else if key == "j_parent_start" then Ints([1, 17, 33])
    else Ints([1, 3, 3])
  }

  /** The domain section after the four checks in order. */
  function FilledDomain(domain: Value): Value
  {
    FillDefault(FillDefault(FillDefault(FillDefault(domain,
      "parent_grid_ratio", Ints([1, 3, 3])),
      "i_parent_start", Ints([1, 31, 31])),
      "j_parent_start", Ints([1, 17, 33])),
      "parent_time_step_ratio", Ints([1, 3, 3]))
  }

  /** The form data after the backfill, or the TypeError of reading a key of a missing domain section. */
  function Backfill(data: Object): Result<Object, string>
  {
    var domain := Get(data, "domain");
    if Nullish(domain) then Err(TypeError) else Ok(data["domain" := FilledDomain(domain)])
  }

  /** A check changes at most its own key, and that only when the key is falsy in an object. */
  lemma FillProp(domain: Value, key: string, default: Value, other: string)
    ensures FillDefault(domain, key, default).Obj? == domain.Obj?
    ensures Prop(FillDefault(domain, key, default), other)
         == (if other == key && !Truthy(Prop(domain, key)) && domain.Obj? then default else Prop(domain, other))
  {
  }

  /**
   * The backfill of an object section: every nest setting that was truthy keeps its value,
   * every other one gets its default, and every other setting is unchanged.
   */
  lemma BackfillSettings(domain: Value, key: string)
    requires domain.Obj?
    ensures FilledDomain(domain).Obj?
    ensures key in DefaultKeys ==>
      Prop(FilledDomain(domain), key) == (if Truthy(Prop(domain, key)) then Prop(domain, key) else DefaultOf(key))
    ensures key !in DefaultKeys ==> Prop(FilledDomain(domain), key) == Prop(domain, key)
  {
    var d1 := FillDefault(domain, "parent_grid_ratio", Ints([1, 3, 3]));
    var d2 := FillDefault(d1, "i_parent_start", Ints([1, 31, 31]));
    var d3 := FillDefault(d2, "j_parent_start", Ints([1, 17, 33]));
    FillProp(domain, "parent_grid_ratio", Ints([1, 3, 3]), key);
    FillProp(d1, "i_parent_start", Ints([1, 31, 31]), key);
    FillProp(d2, "j_parent_start", Ints([1, 17, 33]), key);
    FillProp(d3, "parent_time_step_ratio", Ints([1, 3, 3]), key);
  }

  /** A check of a key that is already truthy changes nothing. */
  lemma FillTruthy(domain: Value, key: string, default: Value)
    requires Truthy(Prop(domain, key))
    ensures FillDefault(domain, key, default) == domain
  {
  }

  /** Filling in the defaults twice changes nothing the first time did not. */
  lemma BackfillIdempotent(data: Object)
    requires Backfill(data).Ok?
    ensures Backfill(Backfill(data).value) == Backfill(data)
  {
    var domain := Get(data, "domain");
    var filled := FilledDomain(domain);
    if domain.Obj? {
      forall key | key in DefaultKeys
        ensures Truthy(Prop(filled, key))
      {
        BackfillSettings(domain, key);
      }
      FillTruthy(filled, "parent_grid_ratio", Ints([1, 3, 3]));
      FillTruthy(filled, "i_parent_start", Ints([1, 31, 31]));
      FillTruthy(filled, "j_parent_start", Ints([1, 17, 33]));
      FillTruthy(filled, "parent_time_step_ratio", Ints([1, 3, 3]));
    }
    assert FilledDomain(filled) == filled;
    var once := data["domain" := filled];
    assert Get(once, "domain") == filled;
    assert once["domain" := filled] == once;
  }

  /** A section that is not an object is left as it is. */
  lemma BackfillOfScalar(data: Object)
    requires Backfill(data).Ok? && !Get(data, "domain").Obj?
    ensures Backfill(data) == Ok(data)
  {
    assert data["domain" := Get(data, "domain")] == data;
  }

  // ----- indicators and pages -----

  /** The step items carry the steps 1, 2, … in document order. */
  predicate Numbered(a: array<Indicator>)
    reads a
  {
    forall i :: 0 <= i < a.Length ==> a[i].step == i + 1
  }

  /** An item is active exactly when it is the target's and completed exactly when it comes before it. */
  predicate Marked(a: array<Indicator>, target: int)
    reads a
  {
    forall i :: 0 <= i < a.Length ==> a[i].active == (a[i].step == target) && a[i].completed == (a[i].step < target)
  }

  /** With numbered items, the marking of a step in range has one active item: the step's own. */
  lemma MarkedHasOneActive(a: array<Indicator>, target: int, i: int)
    requires Numbered(a) && Marked(a, target) && 1 <= target <= a.Length && 0 <= i < a.Length
    ensures a[i].active <==> i == target - 1
    ensures a[i].completed <==> i < target - 1
  {
  }

  /** `document.querySelector('.step-item.active')`: the step of the first active item, if any. */
  method ActiveStep(a: array<Indicator>) returns (r: Option<int>)
    ensures r.None? <==> forall i :: 0 <= i < a.Length ==> !a[i].active
    ensures r.Some? ==> exists i :: 0 <= i < a.Length && a[i].active && a[i].step == r.value &&
                                    forall j :: 0 <= j < i ==> !a[j].active
  {
    var i := 0;
    while i < a.Length
      invariant 0 <= i <= a.Length
      invariant forall j :: 0 <= j < i ==> !a[j].active
    {
      if a[i].active {
        return Some(a[i].step);
      }
      i := i + 1;
    }
    return None;
  }

  /** The indicator click rule: an earlier step, or the one right after the current. */
  predicate ClickAllowed(step: int, current: int)
  {
    step < current || step == current + 1
  }

  /** The page of the wizard: its form data, the step page shown and the progress bar. */
  class Wizard {
    var formData: Object
    var page: int
    const indicators: array<Indicator>

    ghost predicate Valid()
      reads this, indicators
    {
      Numbered(indicators) && 1 <= page <= indicators.Length && Marked(indicators, page)
    }

    /** The page as loaded: step 1 shown and active, the form data's four sections empty. */
    constructor(steps: nat)
      requires steps >= 1
      ensures Valid() && fresh(indicators)
      ensures indicators.Length == steps && page == 1 && formData == InitialFormData
    {
      formData := InitialFormData;
      page := 1;
      indicators := new Indicator[steps](i => Indicator(i + 1, i == 0, false));
    }

    /**
     * `goToStep(target)`. A forward move is refused when the current step does not validate
     * (currentValid); otherwise the indicators are marked for the target, the target page is
     * shown and the form is saved. Arriving at the review step saves a second time, for the summary.
     */
    method GoToStep(target: int, currentValid: bool, inputs: seq<Input>) returns (moved: bool, threw: bool)
      requires Valid() && 1 <= target <= indicators.Length
      modifies this, indicators
      ensures Valid()
      ensures moved <==> target <= old(page) || currentValid
      ensures !moved ==> page == old(page) && formData == old(formData) && indicators[..] == old(indicators[..]) && !threw
      ensures moved ==> page == target && Marked(indicators, target)
      ensures moved ==> Saved(formData, threw) == ArrivalSave(old(formData), inputs, target)
    {
      if target > page && !currentValid {
        return false, false;
      }
      var i := 0;
      while i < indicators.Length
        invariant 0 <= i <= indicators.Length
        invariant page == old(page) && formData == old(formData)
        invariant forall j :: 0 <= j < i ==> indicators[j] == Indicator(j + 1, j + 1 == target, j + 1 < target)
        invariant forall j :: i <= j < indicators.Length ==> indicators[j] == old(indicators[j])
      {
        var step := indicators[i].step;
        indicators[i] := Indicator(step, step == target, step < target);
        i := i + 1;
      }
      page := target;
      var s := SaveFormData(formData, inputs);
      formData := s.data;
      if s.threw {
        return true, true;
      }
      if target == ReviewStep {
        s := SaveFormData(formData, inputs);
        formData := s.data;
      }
      return true, s.threw;
    }

    /**
     * A click on the indicator at position k: the step is taken when it is earlier than the
     * active item's or the one right after it, and goToStep may still refuse a forward move.
     */
    method ClickIndicator(k: int, currentValid: bool, inputs: seq<Input>) returns (moved: bool, threw: bool)
      requires Valid() && 0 <= k < indicators.Length
      modifies this, indicators
      ensures Valid()
      ensures moved <==> k + 1 < old(page) || (k + 1 == old(page) + 1 && currentValid)
      ensures moved ==> page == k + 1 && Saved(formData, threw) == ArrivalSave(old(formData), inputs, k + 1)
      ensures !moved ==> page == old(page) && formData == old(formData) && indicators[..] == old(indicators[..]) && !threw
    {
      var step := indicators[k].step;
      assert indicators[page - 1].active;
      var current := ActiveStep(indicators);
      assert current.value == page by {
        var i :| 0 <= i < indicators.Length && indicators[i].active && indicators[i].step == current.value;
        MarkedHasOneActive(indicators, page, i);
      }
      if !ClickAllowed(step, current.value) {
        return false, false;
      }
      moved, threw := GoToStep(step, currentValid, inputs);
    }

    /**
     * The Generate button. Steps 1 to 4 are checked in order and the first that does not
     * validate stops the click; otherwise the form is saved, the domain section's nest
     * defaults are filled in, and the form data is what is posted.
     */
    method Generate(stepValid: seq<bool>, inputs: seq<Input>) returns (g: Generated)
      requires |stepValid| == ValidatedSteps
      modifies this
      ensures page == old(page)
      ensures (exists i :: 0 <= i < ValidatedSteps && !stepValid[i]) <==> g.Invalid?
      ensures g.Invalid? ==> formData == old(formData)
      ensures !g.Invalid? ==> var saved := SaveAll(old(formData), inputs);
        if saved.threw then g.Threw? && formData == saved.data
        else match Backfill(saved.data)
          case Err(_) => g.Threw? && formData == saved.data
          case Ok(d) => g == Posted(d) && formData == d
    {
      var i := 1;
      while i <= ValidatedSteps
        invariant 1 <= i <= ValidatedSteps + 1
        invariant forall j :: 0 <= j < i - 1 ==> stepValid[j]
      {
        if !stepValid[i - 1] {
          return Invalid;
        }
        i := i + 1;
      }
      var s := SaveFormData(formData, inputs);
      formData := s.data;
      if s.threw {
        return Threw;
      }
      var domain := Get(formData, "domain");
      if Nullish(domain) {
        return Threw;
      }
      if !Truthy(Prop(domain, "parent_grid_ratio")) && domain.Obj? {
        domain := Obj(domain.fields["parent_grid_ratio" := Ints([1, 3, 3])]);
      }
      if !Truthy(Prop(domain, "i_parent_start")) && domain.Obj? {
        domain := Obj(domain.fields["i_parent_start" := Ints([1, 31, 31])]);
      }
      if !Truthy(Prop(domain, "j_parent_start")) && domain.Obj? {
        domain := Obj(domain.fields["j_parent_start" := Ints([1, 17, 33])]);
      }
      if !Truthy(Prop(domain, "parent_time_step_ratio")) && domain.Obj? {
        domain := Obj(domain.fields["parent_time_step_ratio" := Ints([1, 3, 3])]);
      }
      formData := formData["domain" := domain];
      return Posted(formData);
    }
  }
}
