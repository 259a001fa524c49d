/**
 * The Time step page of the React wizard (react_version/src/pages/Time.js): it seeds the
 * time form from the `time_control` section and writes the submitted values back into it.
 */
module TimePage {
  import opened Wrappers
  import opened Decimals
  import opened JsValue
  import WizardConfig

  const Written: set<string> := {"start_date_str_arr", "end_date_str_arr", "data_source"}

  /**
   * `{...globalConfig.time_control, start_date_str_arr: [start], end_date_str_arr: [end],
   * data_source}`: the current section with the three submitted fields set.
   */
  function TimeControlOf(config: Object, form: Object): (r: Object)
    ensures r.Keys == Spread(Get(config, "time_control")).Keys + Written
    ensures r["start_date_str_arr"] == Arr([Get(form, "start_date")])
    ensures r["end_date_str_arr"] == Arr([Get(form, "end_date")])
    ensures r["data_source"] == Get(form, "data_source")
    ensures forall k :: k in Spread(Get(config, "time_control")) && k !in Written ==>
              r[k] == Spread(Get(config, "time_control"))[k]
  {
    Merge(Spread(Get(config, "time_control")),
          map["start_date_str_arr" := Arr([Get(form, "start_date")]),
              "end_date_str_arr" := Arr([Get(form, "end_date")]),
              "data_source" := Get(form, "data_source")])
  }

  /** handleSubmit: `updateConfigSection('time_control', updatedTimeControl)`. */
  function Submit(config: Object, form: Object): Object
  {
    WizardConfig.UpdateConfigSection(config, "time_control", Obj(TimeControlOf(config, form)))
  }

  /**
   * `timeFormDefaultValues`: element 0 of each date list or "", and the data source or "GFS";
   * reading through a missing `time_control` or a missing date list throws.
   */
  function FormDefaults(config: Object): (r: Result<Object, string>)
    ensures var tc := Get(config, "time_control");
      r.Err? <==> Nullish(tc) || Nullish(Prop(tc, "start_date_str_arr")) || Nullish(Prop(tc, "end_date_str_arr"))
    ensures r.Err? ==> r.error == TypeError
    ensures r.Ok? ==> r.value.Keys == {"start_date", "end_date", "data_source"}
    ensures r.Ok? ==> Truthy(r.value["data_source"])
  {
    var tc := Get(config, "time_control");
    if Nullish(tc) then Err(TypeError)
    else
      var starts := Prop(tc, "start_date_str_arr");
      if Nullish(starts) then Err(TypeError)
      else
        var ends := Prop(tc, "end_date_str_arr");
        if Nullish(ends) then Err(TypeError)
        else
          Ok(map["start_date" := Or(Index(starts, 0), Str("")),
                 "end_date" := Or(Index(ends, 0), Str("")),
                 "data_source" := Or(Prop(tc, "data_source"), Str("GFS"))])
  }

  // ----- properties -----

  /** A submit writes the time_control section and no other, and that section becomes the built one. */
  lemma SubmitWritesTimeControl(config: Object, form: Object)
    ensures Submit(config, form).Keys == config.Keys + {"time_control"}
    ensures forall k :: k in config && k != "time_control" ==> Submit(config, form)[k] == config[k]
    ensures Submit(config, form)["time_control"] == Obj(TimeControlOf(config, form))
  {
    var tc := TimeControlOf(config, form);
    MergeCovered(Spread(Get(config, "time_control")), tc);
  }

  /** The time form reopened after a submit of string dates and a data source shows what was submitted. */
  lemma DefaultsAfterSubmit(config: Object, form: Object)
    requires Get(form, "start_date").Str? && Get(form, "end_date").Str? && Truthy(Get(form, "data_source"))
    ensures FormDefaults(Submit(config, form))
            == Ok(map["start_date" := Get(form, "start_date"), "end_date" := Get(form, "end_date"),
                      "data_source" := Get(form, "data_source")])
  {
    SubmitWritesTimeControl(config, form);
    var tc := TimeControlOf(config, form);
    assert Get(Submit(config, form), "time_control") == Obj(tc);
    assert Index(Prop(Obj(tc), "start_date_str_arr"), 0) == Get(form, "start_date");
    assert Index(Prop(Obj(tc), "end_date_str_arr"), 0) == Get(form, "end_date");
  }

  /** A store without a time_control section cannot seed the form. */
  lemma MissingSectionThrows(config: Object)
    requires "time_control" !in config
    ensures FormDefaults(config) == Err(TypeError)
  {
  }
}
