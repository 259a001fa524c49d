/**
 * The configuration store of the React wizard (react_version/src/context/ConfigContext.js):
 * six named sections, changed by `configReducer` through section updates and whole
 * replacements. The state is always a plain object.
 */
module WizardConfig {
  import opened Decimals
  import opened JsValue

  function Ints(xs: seq<int>): (r: Value)
    ensures r.Arr? && |r.items| == |xs|
  {
    if xs == [] then Arr([]) else Arr(Ints(xs[..|xs| - 1]).items + [Int(xs[|xs| - 1])])
  }

  function TimeControl(): Object
  {
    map[
      "start_date_str_arr" := Arr([Str("2001-10-25_00:00:00")]),
      "end_date_str_arr" := Arr([Str("2001-10-26_00:00:00")]),
      "run_days" := Int(0),
      "run_hours" := Int(3),
      "run_minutes" := Int(0),
      "run_seconds" := Int(0),
      "interval_seconds_wps" := Int(21600),
      "interval_seconds_input" := Int(10800),
      "history_interval_arr" := Ints([3]),
      "history_interval_unit_arr" := Arr([Str("h")]),
      "frames_per_outfile_arr" := Ints([1]),
      "input_from_file_arr" := Arr([Bool(true)]),
      "restart_enabled" := Bool(false),
      "restart_interval_h" := Int(6),
      "io_form_history" := Int(2),
      "io_form_restart" := Int(2),
      "io_form_input" := Int(2),
      "io_form_boundary" := Int(2),
      "debug_level" := Int(0),
      "nocolons" := Bool(true),
      "data_source" := Str("GFS")
    ]
  }

  function DomainSetup(): Object
  {
    map[
      "max_dom" := Int(1),
      "e_we_arr" := Ints([100]),
      "e_sn_arr" := Ints([100]),
      "dx_arr" := Ints([30000]),
      "dy_arr" := Ints([30000]),
      "map_proj" := Str("lambert"),
      "ref_lat" := Int(40),
      "ref_lon" := Int(116),
      "truelat1" := Int(30),
      "truelat2" := Int(60),
      "stand_lon" := Int(116),
      "geog_data_path" := Str("/path/to/default/geog_on_server"),
      "time_step" := Int(60),
      "e_vert_arr" := Ints([35]),
      "feedback_arr" := Ints([1]),
      "smooth_option_arr" := Ints([0]),
      "parent_id_arr" := Ints([0]),
      "parent_grid_ratio_arr" := Ints([1]),
      "i_parent_start_arr" := Ints([1]),
      "j_parent_start_arr" := Ints([1]),
      "parent_time_step_ratio_arr" := Ints([1])
    ]
  }

  function Physics(): Object
  {
    map[
      "mp_physics_arr" := Ints([8]),
      "ra_lw_physics_arr" := Ints([1]),
      "ra_sw_physics_arr" := Ints([1]),
      "radt_arr" := Ints([10]),
      "sf_sfclay_physics_arr" := Ints([1]),
      "sf_surface_physics_arr" := Ints([2]),
      "bl_pbl_physics_arr" := Ints([1]),
      "bldt_arr" := Ints([0]),
      "cu_physics_arr" := Ints([1]),
      "cudt_arr" := Ints([5]),
      "isfflx" := Int(1),
      "ifsnow" := Int(0),
      "icloud" := Int(1),
      "surface_input_source" := Int(1),
      "num_soil_layers" := Int(4)
    ]
  }

  function Dynamics(): Object
  {
    map[
      "w_damping_arr" := Ints([0]),
      "diff_opt_arr" := Ints([1]),
      "km_opt_arr" := Ints([4]),
      "khdif_arr" := Ints([0]),
      "kvdif_arr" := Ints([0]),
      "non_hydrostatic_arr" := Arr([Bool(true)]),
      "rk_ord" := Int(3),
      "damp_opt" := Int(0)
    ]
  }

  function BdyControl(): Object
  {
    map[
      "spec_bdy_width_arr" := Ints([5]),
      "spec_zone_arr" := Ints([1]),
      "relax_zone_arr" := Ints([4]),
      "specified_arr" := Arr([Bool(true)]),
      "nested_arr" := Arr([Bool(false)])
    ]
  }

  function NamelistQuilt(): Object
  {
    map["nio_tasks_per_group" := Int(0), "nio_groups" := Int(1)]
  }

  /** `initialState` */
  function InitialState(): Object
  {
    map[
      "time_control" := Obj(TimeControl()),
      "domain_setup" := Obj(DomainSetup()),
      "physics" := Obj(Physics()),
      "dynamics" := Obj(Dynamics()),
      "bdy_control" := Obj(BdyControl()),
      "namelist_quilt" := Obj(NamelistQuilt())
    ]
  }

  /** A dispatched action: `type`, `section` and `payload` are read from it. */
  type Action = Object

  predicate IsType(action: Action, t: string)
  {
    Get(action, "type") == Str(t)
  }

  /** `configReducer(state, action)`, a switch on `action.type`. */
  function Reduce(state: Object, action: Action): Object
  {
    if IsType(action, "UPDATE_CONFIG_SECTION") then UpdateSection(state, action)
    else if IsType(action, "SET_FULL_CONFIG") then Spread(Get(action, "payload"))
    else state
  }

  /** `{...state, [action.section]: {...state[action.section], ...action.payload}}` */
  function UpdateSection(state: Object, action: Action): Object
  {
    var key := ToJsString(Get(action, "section"));
    Merge(state, map[key := Obj(Merge(Spread(Get(state, key)), Spread(Get(action, "payload"))))])
  }

  function UpdateAction(section: string, values: Value): Action
  {
    map["type" := Str("UPDATE_CONFIG_SECTION"), "section" := Str(section), "payload" := values]
  }

  /**
   * The provider's `updateConfigSection(sectionName, newValues)`: the named section becomes
   * the old one overlaid by the new values, a section not yet present is created from them,
   * and every other section is untouched.
   */
  function UpdateConfigSection(state: Object, section: string, values: Value): (r: Object)
    ensures r.Keys == state.Keys + {section}
    ensures r[section] == Obj(Merge(Spread(Get(state, section)), Spread(values)))
    ensures r[section].fields.Keys == Spread(Get(state, section)).Keys + Spread(values).Keys
    ensures forall k :: k in Spread(values) ==> r[section].fields[k] == Spread(values)[k]
    ensures forall k :: k in Spread(Get(state, section)) && k !in Spread(values) ==>
              r[section].fields[k] == Spread(Get(state, section))[k]
    ensures forall k :: k in state && k != section ==> r[k] == state[k]
    ensures section !in state ==> r[section] == Obj(Spread(values))
  {
    var a := UpdateAction(section, values);
    assert IsType(a, "UPDATE_CONFIG_SECTION") && ToJsString(Get(a, "section")) == section;
    assert Get(a, "payload") == values;
    var r := Reduce(state, a);
    assert r == UpdateSection(state, a);
    MergeSingleton(state, section, Obj(Merge(Spread(Get(state, section)), Spread(values))));
    assert section !in state ==> Merge(Spread(Get(state, section)), Spread(values)) == Spread(values) by {
      if section !in state {
        MergeIntoEmpty(Spread(values));
      }
    }
    r
  }

  // ----- reducer properties -----

  /** Applying the same section update twice equals applying it once. */
  lemma UpdateIdempotent(state: Object, section: string, values: Value)
    ensures UpdateConfigSection(UpdateConfigSection(state, section, values), section, values)
            == UpdateConfigSection(state, section, values)
  {
    var s1 := UpdateConfigSection(state, section, values);
    var s2 := UpdateConfigSection(s1, section, values);
    MergeIdempotent(Spread(Get(state, section)), Spread(values));
    assert Get(s1, section) == Obj(Merge(Spread(Get(state, section)), Spread(values)));
    assert s2[section] == s1[section];
    assert s2.Keys == s1.Keys;
    assert forall k :: k in s1 ==> s2[k] == s1[k];
  }

  /** A section update whose values carry every key of the old section simply installs those values. */
  lemma UpdateCovering(state: Object, section: string, values: Object)
    requires Spread(Get(state, section)).Keys <= values.Keys
    ensures UpdateConfigSection(state, section, Obj(values)) == state[section := Obj(values)]
  {
    var r := UpdateConfigSection(state, section, Obj(values));
    MergeCovered(Spread(Get(state, section)), values);
    assert r.Keys == state[section := Obj(values)].Keys;
  }

  /** SET_FULL_CONFIG replaces the state by the payload's own properties. */
  lemma SetFullReplaces(state: Object, payload: Object)
    ensures Reduce(state, map["type" := Str("SET_FULL_CONFIG"), "payload" := Obj(payload)]) == payload
  {
    var a := map["type" := Str("SET_FULL_CONFIG"), "payload" := Obj(payload)];
    assert IsType(a, "SET_FULL_CONFIG") && !IsType(a, "UPDATE_CONFIG_SECTION");
  }

  /** Any other action type leaves the state unchanged. */
  lemma UnknownActionUnchanged(state: Object, action: Action)
    requires !IsType(action, "UPDATE_CONFIG_SECTION") && !IsType(action, "SET_FULL_CONFIG")
    ensures Reduce(state, action) == state
  {
  }

  /** The initial state has exactly the six sections. */
  lemma InitialSections()
    ensures InitialState().Keys
            == {"time_control", "domain_setup", "physics", "dynamics", "bdy_control", "namelist_quilt"}
  {
  }

  /** Grid spacing starts at 30 km, stored in metres. */
  lemma InitialSpacingInMetres()
    ensures InitialState()["domain_setup"] == Obj(DomainSetup())
    ensures Get(DomainSetup(), "dx_arr") == Arr([Int(30000)])
  {
    assert Ints([30000]) == Arr([Int(30000)]) by {
      assert Ints([30000][..0]) == Arr([]);
    }
  }
}
