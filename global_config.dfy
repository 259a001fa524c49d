/**
 * The configuration store of the first React wizard (src/context/ConfigContext.js):
 * a document of named sections with a `_lastUpdated` revision stamp, changed only
 * through `configReducer`. `Date.now()` is the parameter `now`.
 */
module GlobalConfig {
  import opened Wrappers
  import opened Decimals
  import opened JsValue

  function Ints(xs: seq<int>): (r: Value)
    ensures r.Arr? && |r.items| == |xs|
  {
    if xs == [] then Arr([]) else Arr(Ints(xs[..|xs| - 1]).items + [Int(xs[|xs| - 1])])
  }

  function Str1(s: string): Value
  {
    Arr([Str(s)])
  }

  function TimeControl(): Object
  {
    map[
      "start_date_str_arr" := Str1("2001-10-25_00:00:00"),
      "end_date_str_arr" := Str1("2001-10-26_00:00:00"),
      "run_days" := Int(0),
      "run_hours" := Int(3),
      "run_minutes" := Int(0),
      "run_seconds" := Int(0),
      "interval_seconds_wps" := Int(21600),
      "interval_seconds_input" := Int(10800),
      "history_interval_arr" := Ints([3]),
      "history_interval_unit_arr" := Str1("h"),
      "frames_per_outfile_arr" := Ints([1]),
      "input_from_file_arr" := Arr([Bool(true)]),
      "restart_enabled" := Bool(false),
      "restart_interval_h" := Int(6),
      "io_form_history" := Int(2),
      "io_form_restart" := Int(2),
      "io_form_input" := Int(2),
      "io_form_boundary" := Int(2),
      "debug_level" := Int(0),
      "nocolons" := Bool(true),
      "data_source" := Str("GFS")
    ]
  }

  function DomainSetup(): Object
  {
    map[
      "max_dom" := Int(1),
      "e_we_arr" := Ints([100]),
      "e_sn_arr" := Ints([100]),
      "dx_arr" := Ints([30000]),
      "dy_arr" := Ints([30000]),
      "ref_lat_arr" := Ints([34]),
      "ref_lon_arr" := Ints([118]),
      "truelat1_arr" := Ints([30]),
      "truelat2_arr" := Ints([60]),
      "stand_lon_arr" := Ints([118]),
      "map_proj" := Str("lambert"),
      "geog_data_path" := Str("/path/to/wps_geog/"),
      "opt_geogrid_tbl_path" := Str("./geogrid/GEOGRID.TBL.ARW_CHEM"),
      "parent_id_arr" := Ints([0]),
      "parent_grid_ratio_arr" := Ints([1]),
      "i_parent_start_arr" := Ints([1]),
      "j_parent_start_arr" := Ints([1])
    ]
  }

  function PhysicsOptions(): Object
  {
    map[
      "mp_physics_arr" := Ints([8]),
      "cu_physics_arr" := Ints([1]),
      "ra_lw_physics_arr" := Ints([4]),
      "ra_sw_physics_arr" := Ints([4]),
      "bl_pbl_physics_arr" := Ints([1]),
      "sf_sfclay_physics_arr" := Ints([1]),
      "sf_surface_physics_arr" := Ints([2]),
      "radt_arr" := Ints([30]),
      "bldt_arr" := Ints([0]),
      "cudt_arr" := Ints([5]),
      "icloud_arr" := Ints([1]),
      "num_soil_layers_arr" := Ints([4]),
      "sf_urban_physics_arr" := Ints([0]),
      "iz0tlnd_arr" := Ints([0]),
      "ishallow_arr" := Ints([0]),
      "isfflx_arr" := Ints([1]),
      "ifsnow_arr" := Ints([0]),
      "sst_update_arr" := Ints([0])
    ]
  }

  function DynamicsOptions(): Object
  {
    map[
      "w_damping_arr" := Ints([1]),
      "diff_opt_arr" := Ints([1]),
      "km_opt_arr" := Ints([4]),
      "damp_opt_arr" := Ints([3]),
      "zdamp_arr" := Ints([5000]),
      "dampcoef_arr" := Arr([Num(Decimal(2, 1))]),
      "khdif_arr" := Ints([0]),
      "kvdif_arr" := Ints([0]),
      "non_hydrostatic_arr" := Arr([Bool(true)]),
      "eta_levels_arr" := Arr([]),
      "time_step_arr" := Ints([60]),
      "use_adaptive_time_step_arr" := Arr([Bool(false)]),
      "step_to_output_time_arr" := Arr([Bool(true)]),
      "time_step_fract_num_arr" := Ints([0]),
      "time_step_fract_den_arr" := Ints([1])
    ]
  }

  /** `baseInitialState`: a null stamp and the four sections. */
  function BaseInitialState(): Object
  {
    map[
      "_lastUpdated" := Null,
      "time_control" := Obj(TimeControl()),
      "domain_setup" := Obj(DomainSetup()),
      "physics_options" := Obj(PhysicsOptions()),
      "dynamics_options" := Obj(DynamicsOptions())
    ]
  }

  const Stamp := "_lastUpdated"

  /** A dispatched action is a plain object; `type`, `section` and `data` are read from it. */
  type Action = Object

  predicate IsType(action: Action, t: string)
  {
    Get(action, "type") == Str(t)
  }

  /** The property key `[action.section]` computes: the section converted to a string. */
  function SectionKey(action: Action): string
  {
    ToJsString(Get(action, "section"))
  }

  /**
   * `configReducer(state, action)` with `Date.now()` equal to `now`: a switch on
   * `action.type` over the three handled actions.
   */
  function Reduce(state: Value, action: Action, now: int): Result<Value, string>
  {
    if IsType(action, "UPDATE_CONFIG_SECTION") then UpdateSection(state, action, now)
    else if IsType(action, "SET_ENTIRE_CONFIG") then Ok(SetEntireConfig(action, now))
    else if IsType(action, "RESET_CONFIG") then Ok(ResetConfig(now))
    else Ok(state)
  }

  /**
   * The UPDATE_CONFIG_SECTION case: `{...state, [section]: {...state[section], ...data},
   * _lastUpdated: now}`. Reading a section of a null or undefined state throws a TypeError,
   * which is the Err outcome.
   */
  function UpdateSection(state: Value, action: Action, now: int): Result<Value, string>
  {
    if Nullish(state) then Err(TypeError)
    else
      var key := SectionKey(action);
      var section := Obj(Merge(Spread(Prop(state, key)), Spread(Get(action, "data"))));
      Ok(Obj(Merge(Merge(Spread(state), map[key := section]), map[Stamp := Int(now)])))
  }

  /** The SET_ENTIRE_CONFIG case: `{...action.data, _lastUpdated: now}`. */
  function SetEntireConfig(action: Action, now: int): Value
  {
    Obj(Merge(Spread(Get(action, "data")), map[Stamp := Int(now)]))
  }

  /** The RESET_CONFIG case: `{...baseInitialState, _lastUpdated: now}`. */
  function ResetConfig(now: int): Value
  {
    Obj(Merge(BaseInitialState(), map[Stamp := Int(now)]))
  }

  /**
   * The lazy initializer, given `initial` (the provider passes `baseInitialState`): a
   * non-empty stored string that parses gives the parsed value; an absent or empty entry,
   * a failing read or a failing parse gives `initial`. JSON parsing is the parameter `parse`.
   */
  function Initializer(initial: Value, stored: Result<Option<string>, string>, parse: string -> Option<Value>): (r: Value)
    ensures (stored.Ok? && stored.value.Some? && stored.value.value != ""
             && parse(stored.value.value).Some?)
            ==> r == parse(stored.value.value).value
    ensures !(stored.Ok? && stored.value.Some? && stored.value.value != "") ==> r == initial
    ensures stored.Ok? && stored.value.Some? && parse(stored.value.value).None? ==> r == initial
  {
    match stored
    case Err(_) => initial
    case Ok(None) => initial
    case Ok(Some(s)) =>
      if s == "" then initial
      else match parse(s)
        case Some(v) => v
        case None => initial
  }

  /** The actions the provider's wrappers dispatch, exactly as written. */
  function UpdateConfigSectionAction(section: Value, data: Value): Action
  {
    map["type" := Str("UPDATE_CONFIG_SECTION"), "payload" := Obj(map["section" := section, "data" := data])]
  }

  function LoadConfigAction(loaded: Value): Action
  {
    map["type" := Str("SET_ENTIRE_CONFIG"), "payload" := loaded]
  }

  function ResetConfigAction(): Action
  {
    map["type" := Str("RESET_CONFIG")]
  }

  /** The action shapes the reducer reads, which the wrappers were evidently meant to send. */
  function IntendedUpdateAction(section: string, data: Value): Action
  {
    map["type" := Str("UPDATE_CONFIG_SECTION"), "section" := Str(section), "data" := data]
  }

  function IntendedLoadAction(loaded: Value): Action
  {
    map["type" := Str("SET_ENTIRE_CONFIG"), "data" := loaded]
  }

  // ----- reducer properties -----

  /** The update on an object state, written as two key updates. */
  lemma UpdateAsKeyUpdates(state: Object, action: Action, now: int)
    ensures var key := SectionKey(action);
            var section := Merge(Spread(Get(state, key)), Spread(Get(action, "data")));
            UpdateSection(Obj(state), action, now) == Ok(Obj(state[key := Obj(section)][Stamp := Int(now)]))
  {
    var key := SectionKey(action);
    var section := Merge(Spread(Get(state, key)), Spread(Get(action, "data")));
    MergeSingleton(state, key, Obj(section));
    MergeSingleton(state[key := Obj(section)], Stamp, Int(now));
  }

  /** What the two key updates keep and change. */
  lemma KeyUpdates(state: Object, key: string, section: Value, now: int)
    requires key != Stamp
    ensures var r := state[key := section][Stamp := Int(now)];
            && r.Keys == state.Keys + {key, Stamp}
            && r[key] == section
            && (forall k :: k in state && k != key && k != Stamp ==> r[k] == state[k])
            && r[Stamp] == Int(now)
  {
  }

  /**
   * A section update on an object state: the named section becomes the old section
   * overlaid by `data` (data's keys take data's values, the other old keys keep theirs),
   * every other key but the stamp is carried over, and the stamp is `now`.
   */
  lemma UpdateMergesSection(state: Object, action: Action, now: int)
    requires SectionKey(action) != Stamp
    ensures var key := SectionKey(action);
            var old_section := Spread(Get(state, key));
            var data := Spread(Get(action, "data"));
            var r := UpdateSection(Obj(state), action, now);
            && r.Ok? && r.value.Obj?
            && r.value.fields.Keys == state.Keys + {key, Stamp}
            && r.value.fields[key].Obj?
            && r.value.fields[key].fields.Keys == old_section.Keys + data.Keys
            && (forall k :: k in data ==> r.value.fields[key].fields[k] == data[k])
            && (forall k :: k in old_section && k !in data ==> r.value.fields[key].fields[k] == old_section[k])
            && (forall k :: k in state && k != key && k != Stamp ==> r.value.fields[k] == state[k])
            && r.value.fields[Stamp] == Int(now)
  {
    var key := SectionKey(action);
    var section := Merge(Spread(Get(state, key)), Spread(Get(action, "data")));
    UpdateAsKeyUpdates(state, action, now);
    KeyUpdates(state, key, Obj(section), now);
  }

  /** Reading a section of a null or undefined state throws. */
  lemma UpdateOfNullishThrows(state: Value, action: Action, now: int)
    requires Nullish(state)
    ensures UpdateSection(state, action, now).Err?
  {
  }

  /** Replacing stamps the result with `now`, whatever the action carries. */
  lemma SetEntireStamps(action: Action, now: int)
    ensures SetEntireConfig(action, now).Obj? && Get(SetEntireConfig(action, now).fields, Stamp) == Int(now)
  {
  }

  /** A reset gives `baseInitialState` with only the stamp replaced, whatever the state was. */
  lemma ResetIsBase(now: int)
    ensures ResetConfig(now) == Obj(BaseInitialState()[Stamp := Int(now)])
  {
    MergeSingleton(BaseInitialState(), Stamp, Int(now));
  }

  /** A replace takes the new document's own keys, then the stamp. */
  lemma SetEntireInstalls(action: Action, data: Object, now: int)
    requires Get(action, "data") == Obj(data)
    ensures SetEntireConfig(action, now) == Obj(data[Stamp := Int(now)])
  {
    MergeSingleton(data, Stamp, Int(now));
  }

  /** The switch: each handled type selects its case, any other type returns the state unchanged. */
  lemma ReduceDispatch(state: Value, action: Action, now: int)
    ensures IsType(action, "UPDATE_CONFIG_SECTION") ==> Reduce(state, action, now) == UpdateSection(state, action, now)
    ensures IsType(action, "SET_ENTIRE_CONFIG") ==> Reduce(state, action, now) == Ok(SetEntireConfig(action, now))
    ensures IsType(action, "RESET_CONFIG") ==> Reduce(state, action, now) == Ok(ResetConfig(now))
    ensures (!IsType(action, "UPDATE_CONFIG_SECTION") && !IsType(action, "SET_ENTIRE_CONFIG")
             && !IsType(action, "RESET_CONFIG")) ==> Reduce(state, action, now) == Ok(state)
  {
  }

  /** The state after one section update is a fixed point of the same update. */
  lemma UpdateFixpoint(state: Object, key: string, data: Object, now: int)
    ensures var s1 := state[key := Obj(Merge(Spread(Get(state, key)), data))][Stamp := Int(now)];
            s1[key := Obj(Merge(Spread(Get(s1, key)), data))][Stamp := Int(now)] == s1
  {
    var section := Merge(Spread(Get(state, key)), data);
    var s1 := state[key := Obj(section)][Stamp := Int(now)];
    var section2 := Merge(Spread(Get(s1, key)), data);
    if key == Stamp {
      assert s1[key := Obj(section2)][Stamp := Int(now)] == s1;
    } else {
      assert Get(s1, key) == Obj(section);
      MergeIdempotent(Spread(Get(state, key)), data);
      assert s1[key := Obj(section2)][Stamp := Int(now)] == s1;
    }
  }

  /** Applying the same section update twice at the same instant equals applying it once. */
  lemma UpdateIdempotent(state: Object, action: Action, now: int)
    ensures var once := UpdateSection(Obj(state), action, now);
            once.Ok? && UpdateSection(once.value, action, now) == once
  {
    var key := SectionKey(action);
    var data := Spread(Get(action, "data"));
    var s1 := state[key := Obj(Merge(Spread(Get(state, key)), data))][Stamp := Int(now)];
    UpdateAsKeyUpdates(state, action, now);
    UpdateAsKeyUpdates(s1, action, now);
    UpdateFixpoint(state, key, data, now);
  }

  // ----- the wrappers as written -----

  /**
   * `updateConfigSection(s, d)` puts section and data under `payload`, but the reducer reads
   * `action.section` and `action.data`: the section key is "undefined", no named section
   * changes, and only that key and the stamp are written.
   */
  lemma UpdateWrapperMissesSection(state: Object, section: Value, data: Value, now: int)
    ensures var r := Reduce(Obj(state), UpdateConfigSectionAction(section, data), now);
            && r.Ok? && r.value.Obj?
            && r.value.fields.Keys == state.Keys + {"undefined", Stamp}
            && Get(r.value.fields, "undefined") == Obj(Spread(Get(state, "undefined")))
            && (forall k :: k in state && k != "undefined" && k != Stamp ==> Get(r.value.fields, k) == state[k])
  {
    var a := UpdateConfigSectionAction(section, data);
    WrapperActionFields(section, data);
    ReduceDispatch(Obj(state), a, now);
    UpdateAsKeyUpdates(state, a, now);
    MergeEmpty(Spread(Get(state, "undefined")));
    KeyUpdates(state, "undefined", Obj(Spread(Get(state, "undefined"))), now);
  }

  /** The wrapper's action has a type but neither `section` nor `data`. */
  lemma WrapperActionFields(section: Value, data: Value)
    ensures var a := UpdateConfigSectionAction(section, data);
            IsType(a, "UPDATE_CONFIG_SECTION") && SectionKey(a) == "undefined" && Get(a, "data") == Undef
  {
  }

  /** Concretely: switching time_control's data source through the wrapper leaves it as it was. */
  lemma UpdateWrapperExample(now: int)
    ensures var state := map["time_control" := Obj(map["data_source" := Str("GFS")])];
            var d := Obj(map["data_source" := Str("ERA5")]);
            var r := Reduce(Obj(state), UpdateConfigSectionAction(Str("time_control"), d), now);
            r.Ok? && r.value.Obj? && Get(r.value.fields, "time_control") == Obj(map["data_source" := Str("GFS")])
  {
    var state := map["time_control" := Obj(map["data_source" := Str("GFS")])];
    assert "time_control" in state && "time_control" != "undefined" && "time_control" != Stamp;
    UpdateWrapperMissesSection(state, Str("time_control"), Obj(map["data_source" := Str("ERA5")]), now);
  }

  /** `loadConfig(x)` puts x under `payload`; the reducer spreads `action.data`, so only the stamp is left. */
  lemma LoadWrapperDropsConfig(state: Value, loaded: Value, now: int)
    ensures Reduce(state, LoadConfigAction(loaded), now) == Ok(Obj(map[Stamp := Int(now)]))
  {
    ReduceDispatch(state, LoadConfigAction(loaded), now);
    assert Get(LoadConfigAction(loaded), "data") == Undef;
    assert Merge(map[], map[Stamp := Int(now)]) == map[Stamp := Int(now)];
  }

  // ----- the wrappers as evidently intended -----

  /** With the fields the reducer reads, an update merges `data` into the named section. */
  lemma IntendedUpdateMerges(state: Object, section: string, data: Object, now: int)
    requires section != Stamp
    ensures var r := Reduce(Obj(state), IntendedUpdateAction(section, Obj(data)), now);
            && r.Ok? && r.value.Obj? && section in r.value.fields
            && r.value.fields[section] == Obj(Merge(Spread(Get(state, section)), data))
            && (forall k :: k in state && k != section && k != Stamp ==> r.value.fields[k] == state[k])
  {
    var a := IntendedUpdateAction(section, Obj(data));
    assert IsType(a, "UPDATE_CONFIG_SECTION") && SectionKey(a) == section && Get(a, "data") == Obj(data);
    ReduceDispatch(Obj(state), a, now);
    UpdateAsKeyUpdates(state, a, now);
    KeyUpdates(state, section, Obj(Merge(Spread(Get(state, section)), data)), now);
  }

  /** With the field the reducer reads, a load installs the loaded object plus the stamp. */
  lemma IntendedLoadInstalls(state: Value, loaded: Object, now: int)
    ensures Reduce(state, IntendedLoadAction(Obj(loaded)), now) == Ok(Obj(loaded[Stamp := Int(now)]))
  {
    ReduceDispatch(state, IntendedLoadAction(Obj(loaded)), now);
    SetEntireInstalls(IntendedLoadAction(Obj(loaded)), loaded, now);
  }
}
