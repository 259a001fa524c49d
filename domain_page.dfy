/**
 * The Domain step page of the React wizard (react_version/src/pages/Domain.js): its next-step
 * gate, the section it writes on submit (spacing in metres, values as one-element lists)
 * and the form values it derives back from the section (spacing in km).
 */
module DomainPage {
  import opened Wrappers
  import opened Decimals
  import opened JsValue
  import WizardConfig

  /** `v[k][0]` for a value already known not to be null or undefined. */
  function First(v: Value, k: string): Value
  {
    Index(Prop(v, k), 0)
  }

  /** The effect's condition for enabling Next, written with its short-circuit guards. */
  predicate NextEnabled(config: Object)
  {
    var ds := Get(config, "domain_setup");
    Truthy(ds)
    && Truthy(Prop(ds, "e_we_arr")) && Truthy(First(ds, "e_we_arr"))
    && Truthy(Prop(ds, "dx_arr")) && Truthy(First(ds, "dx_arr"))
    && Truthy(Prop(ds, "map_proj"))
  }

  /** The keys handleSubmit sets on top of the current section. */
  const Written: set<string> := {
    "max_dom", "map_proj", "e_we_arr", "e_sn_arr", "dx_arr", "dy_arr", "ref_lat_arr", "ref_lon_arr",
    "truelat1_arr", "truelat2_arr", "stand_lon_arr",
    "parent_id_arr", "parent_grid_ratio_arr", "i_parent_start_arr", "j_parent_start_arr"
  }

  /** `[parseFloat(form[k])]` */
  function Parsed(form: Object, k: string): Value
  {
    Arr([ParseFloatValue(Get(form, k))])
  }

  /** `[parseFloat(form[k]) * 1000]`: kilometres to metres. */
  function Metres(form: Object, k: string): Value
  {
    Arr([Times(ParseFloatValue(Get(form, k)), FromInt(1000))])
  }

  /** The value handleSubmit writes under key k, for a current section ds that is not null or undefined. */
  function Submitted(ds: Value, form: Object, k: string): Value
  {
    if k == "max_dom" then Get(form, "max_dom")
    else if k == "map_proj" then Get(form, "map_proj")
    else if k == "dx_arr" then Metres(form, "dx")
    else if k == "dy_arr" then Metres(form, "dy")
    else if k == "e_we_arr" then Parsed(form, "e_we")
    else if k == "e_sn_arr" then Parsed(form, "e_sn")
    else if k == "ref_lat_arr" then Parsed(form, "ref_lat")
    else if k == "ref_lon_arr" then Parsed(form, "ref_lon")
    else if k == "truelat1_arr" then Parsed(form, "truelat1")
    else if k == "truelat2_arr" then Parsed(form, "truelat2")
    else if k == "stand_lon_arr" then Parsed(form, "stand_lon")
    else if k == "parent_id_arr" then Or(Prop(ds, k), Arr([Int(0)]))
    else Or(Prop(ds, k), Arr([Int(1)]))
  }

  /** The fields handleSubmit writes: the form's scalars kept, its numbers parsed into one-element lists. */
  function SubmittedFields(ds: Value, form: Object): (r: Object)
    ensures r.Keys == Written
    ensures forall k :: k in Written ==> r[k] == Submitted(ds, form, k)
  {
    map k | k in Written :: Submitted(ds, form, k)
  }

  /**
   * `newDomainSetupData`: the current section overlaid by the submitted fields; reading the
   * parent lists of a missing section throws.
   */
  function DomainSetupOf(config: Object, form: Object): (r: Result<Object, string>)
    ensures r.Err? <==> Nullish(Get(config, "domain_setup"))
    ensures r.Err? ==> r.error == TypeError
    ensures r.Ok? ==> r.value.Keys == Spread(Get(config, "domain_setup")).Keys + Written
    ensures r.Ok? ==> forall k :: k in Written ==> r.value[k] == SubmittedFields(Get(config, "domain_setup"), form)[k]
    ensures r.Ok? ==> forall k :: k in Spread(Get(config, "domain_setup")) && k !in Written ==>
              r.value[k] == Spread(Get(config, "domain_setup"))[k]
  {
    var ds := Get(config, "domain_setup");
    if Nullish(ds) then Err(TypeError)
    else Ok(Merge(Spread(ds), SubmittedFields(ds, form)))
  }

  /** handleSubmit: `updateConfigSection('domain_setup', newDomainSetupData)`. */
  function Submit(config: Object, form: Object): Result<Object, string>
  {
    match DomainSetupOf(config, form)
    case Err(e) => Err(e)
    case Ok(ds) => Ok(WizardConfig.UpdateConfigSection(config, "domain_setup", Obj(ds)))
  }

  /** `ds[k] ? ds[k][0] : fallback` */
  function FirstOr(ds: Value, k: string, fallback: Value): Value
  {
    if Truthy(Prop(ds, k)) then First(ds, k) else fallback
  }

  /** `ds[k] ? ds[k][0] / 1000 : fallback`: metres back to kilometres. */
  function KmOr(ds: Value, k: string, fallback: Value): Value
  {
    if Truthy(Prop(ds, k)) then DividedByPow10(First(ds, k), 3) else fallback
  }

  /** The form fields getDomainFormDefaults fills. */
  const FormKeys: set<string> :=
    {"e_we", "e_sn", "dx", "dy", "ref_lat", "ref_lon", "truelat1", "truelat2", "stand_lon", "max_dom", "map_proj"}

  /** The default getDomainFormDefaults gives form field k from a present section ds. */
  function DefaultOf(ds: Value, k: string): Value
  {
    if k == "e_we" then FirstOr(ds, "e_we_arr", Int(100))
    else if k == "e_sn" then FirstOr(ds, "e_sn_arr", Int(100))
    else if k == "dx" then KmOr(ds, "dx_arr", Int(30))
    else if k == "dy" then KmOr(ds, "dy_arr", Int(30))
    else if k == "ref_lat" then FirstOr(ds, "ref_lat_arr", Int(34))
    else if k == "ref_lon" then FirstOr(ds, "ref_lon_arr", Int(118))
    else if k == "truelat1" then FirstOr(ds, "truelat1_arr", Int(30))
    else if k == "truelat2" then FirstOr(ds, "truelat2_arr", Int(60))
    else if k == "stand_lon" then FirstOr(ds, "stand_lon_arr", Int(118))
    else if k == "max_dom" then Or(Prop(ds, "max_dom"), Int(1))
    else Or(Prop(ds, "map_proj"), Str("lambert"))
  }

  /** getDomainFormDefaults: no values without a section, otherwise each field from its list or its default. */
  function FormDefaults(config: Object): (r: Object)
    ensures !Truthy(Get(config, "domain_setup")) ==> r == map[]
    ensures Truthy(Get(config, "domain_setup")) ==> r.Keys == FormKeys
  {
    var ds := Get(config, "domain_setup");
    if !Truthy(ds) then map[] else map k | k in FormKeys :: DefaultOf(ds, k)
  }

  // ----- properties -----

  /** Element 0 of a value can only be truthy when the value is. */
  lemma FirstTruthy(v: Value)
    ensures Truthy(Index(v, 0)) ==> Truthy(v)
  {
  }

  /** A property of a value can only be truthy when the value is. */
  lemma PropTruthy(v: Value, k: string)
    ensures Truthy(Prop(v, k)) ==> Truthy(v)
  {
    if v.Str? && v.s == "" {
      assert Spread(v) == map[];
    }
  }

  /** Next is enabled exactly when e_we_arr[0], dx_arr[0] and map_proj are truthy: the guards add nothing. */
  lemma NextGate(config: Object)
    ensures var ds := Get(config, "domain_setup");
      NextEnabled(config) <==> Truthy(First(ds, "e_we_arr")) && Truthy(First(ds, "dx_arr")) && Truthy(Prop(ds, "map_proj"))
  {
    var ds := Get(config, "domain_setup");
    FirstTruthy(Prop(ds, "e_we_arr"));
    FirstTruthy(Prop(ds, "dx_arr"));
    PropTruthy(ds, "map_proj");
  }

  /** A submit installs the built section in place of domain_setup and leaves every other section alone. */
  lemma SubmitInstalls(config: Object, form: Object)
    requires !Nullish(Get(config, "domain_setup"))
    ensures Submit(config, form) == Ok(config["domain_setup" := Obj(DomainSetupOf(config, form).value)])
  {
    WizardConfig.UpdateCovering(config, "domain_setup", DomainSetupOf(config, form).value);
  }

  /** parseFloat and a factor of 1000 on the way in, a division by 1000 on the way out, give the number back. */
  lemma KilometresRoundTrip(d: Dec)
    ensures DividedByPow10(Times(ParseFloatValue(Num(d)), FromInt(1000)), 3) == Num(d)
  {
    ParseFloatOfNumber(d);
    ThousandRoundTrip(d);
  }

  lemma SpacingRoundTrip(ds: Object, form: Object, k: string, key: string)
    requires key in ds && ds[key] == Metres(form, k) && Get(form, k).Num?
    ensures KmOr(Obj(ds), key, Int(30)) == Get(form, k)
  {
    var x := Get(form, k);
    KilometresRoundTrip(x.n);
    assert First(Obj(ds), key) == Times(ParseFloatValue(x), FromInt(1000));
  }

  lemma GridRoundTrip(ds: Object, form: Object)
    requires "e_we_arr" in ds && ds["e_we_arr"] == Parsed(form, "e_we") && Get(form, "e_we").Num?
    ensures FirstOr(Obj(ds), "e_we_arr", Int(100)) == Get(form, "e_we")
  {
    ParseFloatOfNumber(Get(form, "e_we").n);
  }

  /** The fields of a built section that the gate and the defaults read. */
  lemma BuiltSection(config: Object, form: Object)
    requires !Nullish(Get(config, "domain_setup"))
    ensures var ds := DomainSetupOf(config, form).value;
      ds["e_we_arr"] == Parsed(form, "e_we") && ds["dx_arr"] == Metres(form, "dx")
      && ds["dy_arr"] == Metres(form, "dy") && ds["map_proj"] == Get(form, "map_proj")
  {
  }

  /** The defaults read from a section: element 0 of e_we_arr, the spacings back in km, the projection. */
  lemma DefaultsOfSection(config: Object, ds: Object)
    requires Get(config, "domain_setup") == Obj(ds)
    ensures var d := FormDefaults(config);
      d["e_we"] == FirstOr(Obj(ds), "e_we_arr", Int(100)) && d["dx"] == KmOr(Obj(ds), "dx_arr", Int(30))
      && d["dy"] == KmOr(Obj(ds), "dy_arr", Int(30)) && d["map_proj"] == Or(Prop(Obj(ds), "map_proj"), Str("lambert"))
  {
  }

  /** A section holding submitted numbers gives them back as defaults. */
  lemma SectionDefaults(ds: Object, form: Object)
    requires "e_we_arr" in ds && ds["e_we_arr"] == Parsed(form, "e_we") && Get(form, "e_we").Num?
    requires "dx_arr" in ds && ds["dx_arr"] == Metres(form, "dx") && Get(form, "dx").Num?
    requires "dy_arr" in ds && ds["dy_arr"] == Metres(form, "dy") && Get(form, "dy").Num?
    requires "map_proj" in ds && ds["map_proj"] == Get(form, "map_proj") && Truthy(Get(form, "map_proj"))
    ensures FirstOr(Obj(ds), "e_we_arr", Int(100)) == Get(form, "e_we")
    ensures KmOr(Obj(ds), "dx_arr", Int(30)) == Get(form, "dx") && KmOr(Obj(ds), "dy_arr", Int(30)) == Get(form, "dy")
    ensures Or(Prop(Obj(ds), "map_proj"), Str("lambert")) == Get(form, "map_proj")
  {
    GridRoundTrip(ds, form);
    SpacingRoundTrip(ds, form, "dx", "dx_arr");
    SpacingRoundTrip(ds, form, "dy", "dy_arr");
  }

  lemma DefaultsOfInstalled(config: Object, ds: Object, form: Object)
    requires "e_we_arr" in ds && ds["e_we_arr"] == Parsed(form, "e_we") && Get(form, "e_we").Num?
    requires "dx_arr" in ds && ds["dx_arr"] == Metres(form, "dx") && Get(form, "dx").Num?
    requires "dy_arr" in ds && ds["dy_arr"] == Metres(form, "dy") && Get(form, "dy").Num?
    requires "map_proj" in ds && ds["map_proj"] == Get(form, "map_proj") && Truthy(Get(form, "map_proj"))
    ensures var d := FormDefaults(config["domain_setup" := Obj(ds)]);
      Get(d, "e_we") == Get(form, "e_we") && Get(d, "dx") == Get(form, "dx") && Get(d, "dy") == Get(form, "dy")
      && Get(d, "map_proj") == Get(form, "map_proj")
  {
    DefaultsOfSection(config["domain_setup" := Obj(ds)], ds);
    SectionDefaults(ds, form);
  }

  /**
   * Reopening the form after a submit of numeric e_we, dx and dy and a chosen projection shows
   * the submitted grid size, the spacing back in km, and the projection.
   */
  lemma DefaultsAfterSubmit(config: Object, form: Object)
    requires !Nullish(Get(config, "domain_setup"))
    requires Get(form, "e_we").Num? && Get(form, "dx").Num? && Get(form, "dy").Num?
    requires Truthy(Get(form, "map_proj"))
    ensures Submit(config, form).Ok?
    ensures var d := FormDefaults(Submit(config, form).value);
      Get(d, "e_we") == Get(form, "e_we") && Get(d, "dx") == Get(form, "dx") && Get(d, "dy") == Get(form, "dy")
      && Get(d, "map_proj") == Get(form, "map_proj")
  {
    SubmitInstalls(config, form);
    BuiltSection(config, form);
    DefaultsOfInstalled(config, DomainSetupOf(config, form).value, form);
  }

  /** Scaling by 1000 keeps a number non-zero exactly when it was. */
  lemma MetresTruthy(x: Value)
    requires x.Num? || x.NaN?
    ensures Truthy(Times(x, FromInt(1000))) <==> Truthy(x)
  {
  }

  /** Next on a section holding submitted values. */
  lemma GateOfSection(config: Object, ds: Object, form: Object)
    requires Get(config, "domain_setup") == Obj(ds)
    requires "e_we_arr" in ds && ds["e_we_arr"] == Parsed(form, "e_we")
    requires "dx_arr" in ds && ds["dx_arr"] == Metres(form, "dx")
    requires "map_proj" in ds && ds["map_proj"] == Get(form, "map_proj")
    ensures NextEnabled(config) <==>
      Truthy(ParseFloatValue(Get(form, "e_we"))) && Truthy(ParseFloatValue(Get(form, "dx"))) && Truthy(Get(form, "map_proj"))
  {
    NextGate(config);
    MetresTruthy(ParseFloatValue(Get(form, "dx")));
  }

  /** After a submit Next is enabled exactly when e_we and dx parse to non-zero numbers and a projection is chosen. */
  lemma NextAfterSubmit(config: Object, form: Object)
    requires !Nullish(Get(config, "domain_setup"))
    ensures Submit(config, form).Ok?
    ensures NextEnabled(Submit(config, form).value) <==>
      Truthy(ParseFloatValue(Get(form, "e_we"))) && Truthy(ParseFloatValue(Get(form, "dx"))) && Truthy(Get(form, "map_proj"))
  {
    SubmitInstalls(config, form);
    BuiltSection(config, form);
    var ds := DomainSetupOf(config, form).value;
    GateOfSection(config["domain_setup" := Obj(ds)], ds, form);
  }

  /** A missing or empty section gives the form no defaults. */
  lemma NoSectionNoDefaults(config: Object)
    requires "domain_setup" !in config
    ensures FormDefaults(config) == map[]
  {
  }
}
