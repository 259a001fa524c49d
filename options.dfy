/**
 * The option registry of the React wizard (react_version/src/utils/constants.js): ordered
 * code→label tables for physics and dynamics schemes, projections and data sources, and
 * the default configuration. Object keys are strings; numeric codes appear as their
 * decimal digits, in ascending order, as JavaScript enumerates integer-like keys.
 */
module Options {
  import opened Wrappers
  import opened Decimals
  import opened JsValue

  /** An option table: integer codes with their labels, in enumeration order. */
  type Table = seq<(nat, string)>

  /** The property key under which a code is stored. */
  function Key(code: nat): string
  {
    NatToDigits(code)
  }

  /** `Object.keys(t)` */
  function Keys(t: Table): (ks: seq<string>)
    ensures |ks| == |t|
    ensures forall i :: 0 <= i < |t| ==> ks[i] == Key(t[i].0)
  {
    if t == [] then [] else Keys(t[..|t| - 1]) + [Key(t[|t| - 1].0)]
  }

  predicate HasCode(t: Table, c: nat)
  {
    exists i :: 0 <= i < |t| && t[i].0 == c
  }

  /** `t[key]`: the label stored under key, or undefined. */
  function Lookup(t: Table, key: string): (v: Value)
    ensures v.Undef? || v.Str?
    ensures v.Str? ==> exists i :: 0 <= i < |t| && Key(t[i].0) == key && t[i].1 == v.s
    ensures v.Undef? ==> forall i :: 0 <= i < |t| ==> Key(t[i].0) != key
  {
    if t == [] then Undef
    else if Key(t[|t| - 1].0) == key then Str(t[|t| - 1].1)
    else Lookup(t[..|t| - 1], key)
  }

  /** Distinct codes have distinct keys, so looking a code's key up finds exactly that code. */
  lemma LookupByCode(t: Table, c: nat)
    ensures Lookup(t, Key(c)).Str? <==> HasCode(t, c)
    ensures Lookup(t, Key(c)).Str? ==> exists i :: 0 <= i < |t| && t[i] == (c, Lookup(t, Key(c)).s)
  {
    var v := Lookup(t, Key(c));
    if v.Str? {
      var i :| 0 <= i < |t| && Key(t[i].0) == Key(c) && t[i].1 == v.s;
      KeyInjective(t[i].0, c);
    }
    if HasCode(t, c) {
      var i :| 0 <= i < |t| && t[i].0 == c;
      assert Key(t[i].0) == Key(c);
    }
  }

  lemma KeyInjective(a: nat, b: nat)
    requires Key(a) == Key(b)
    ensures a == b
  {
    DigitsRoundTrip(a);
    DigitsRoundTrip(b);
  }

  /** A table of string-keyed options. */
  type NamedTable = seq<(string, string)>

  function LookupNamed(t: NamedTable, key: string): (v: Value)
    ensures v.Undef? || v.Str?
    ensures v.Str? ==> exists i :: 0 <= i < |t| && t[i] == (key, v.s)
    ensures v.Undef? ==> forall i :: 0 <= i < |t| ==> t[i].0 != key
  {
    if t == [] then Undef
    else if t[|t| - 1].0 == key then Str(t[|t| - 1].1)
    else LookupNamed(t[..|t| - 1], key)
  }

  const MpPhysics: Table := [
    (1, "Kessler scheme"), (2, "Lin et al. scheme"), (3, "WSM3 scheme"),
    (4, "WSM5 scheme"), (6, "WSM6 scheme"), (8, "Thompson scheme"),
    (10, "Morrison 2-moment scheme")]

  const RaLwPhysics: Table := [(1, "RRTM scheme"), (3, "CAM scheme"), (4, "RRTMG scheme")]

  const RaSwPhysics: Table := [
    (1, "Dudhia scheme"), (2, "Goddard shortwave"), (3, "CAM scheme"), (4, "RRTMG scheme")]

  const SfSurfacePhysics: Table := [
    (1, "Thermal diffusion scheme"), (2, "Noah Land Surface Model"),
    (3, "RUC Land Surface Model"), (4, "Noah-MP Land Surface Model")]

  const BlPblPhysics: Table := [
    (1, "YSU scheme"), (2, "Mellor-Yamada-Janjic scheme"), (4, "QNSE scheme"),
    (5, "MYNN2 scheme"), (6, "MYNN3 scheme")]

  const CuPhysics: Table := [
    (0, "No cumulus"), (1, "Kain-Fritsch scheme"), (2, "Betts-Miller-Janjic scheme"),
    (3, "Grell-Freitas scheme"), (5, "Grell-3D scheme")]

  const DiffOpt: Table := [
    (0, "No turbulence or mixing"),
    (1, "Evaluate second-order diffusion term on coordinate surfaces"),
    (2, "Evaluate second-order diffusion term on model levels")]

  const KmOpt: Table := [
    (1, "Constant coefficient"), (2, "1.5-order TKE closure"),
    (3, "Smagorinsky first-order closure"), (4, "Horizontal Smagorinsky first-order closure")]

  const Projections: Table := [
    (1, "Lambert Conformal"), (2, "Polar Stereographic"), (3, "Mercator"),
    (6, "Lat-Lon (including global)")]

  const DataSources: NamedTable := [
    ("GFS", "NCEP Global Forecast System"), ("ERA5", "ECMWF ERA5 Reanalysis"),
    ("FNL", "NCEP Final Analysis"), ("NARR", "North American Regional Reanalysis")]

  /** `PHYSICS_OPTIONS`: field name → table, in declaration order. */
  const PhysicsOptions: seq<(string, Table)> := [
    ("mp_physics", MpPhysics), ("ra_lw_physics", RaLwPhysics), ("ra_sw_physics", RaSwPhysics),
    ("sf_surface_physics", SfSurfacePhysics), ("bl_pbl_physics", BlPblPhysics), ("cu_physics", CuPhysics)]

  /** `DYNAMICS_OPTIONS` */
  const DynamicsOptions: seq<(string, Table)> := [("diff_opt", DiffOpt), ("km_opt", KmOpt)]

  /** `registry[field]`, or None for a field the registry does not have. */
  function TableOf(registry: seq<(string, Table)>, field: string): (r: Option<Table>)
    ensures r.Some? ==> exists i :: 0 <= i < |registry| && registry[i] == (field, r.value)
    ensures r.None? ==> forall i :: 0 <= i < |registry| ==> registry[i].0 != field
  {
    if registry == [] then None
    else if registry[0].0 == field then Some(registry[0].1)
    else
      var r := TableOf(registry[1..], field);
      assert r.Some? ==> registry[1..][..] == registry[1..];
      r
  }

  /** `DEFAULT_CONFIG` without its clock-derived start_date and end_date. */
  function DefaultPhysics(): Object
  {
    map[
      "mp_physics" := Int(6), "ra_lw_physics" := Int(1), "ra_sw_physics" := Int(1),
      "sf_surface_physics" := Int(2), "bl_pbl_physics" := Int(1), "cu_physics" := Int(1)]
  }

  const DefaultDynamics: Object := map["diff_opt" := Int(2), "km_opt" := Int(4), "non_hydrostatic" := Bool(true)]

  function Nested(a: int, b: int, c: int): Value
  {
    Arr([Int(a), Int(b), Int(c)])
  }

  const DefaultDomain: Object := map[
    "e_we" := Int(100), "e_sn" := Int(100), "dx" := Int(30), "dy" := Int(30),
    "ref_lat" := Int(40), "ref_lon" := Int(116), "truelat1" := Int(30), "truelat2" := Int(60),
    "stand_lon" := Int(116), "max_dom" := Int(1),
    "parent_grid_ratio" := Nested(1, 3, 3), "i_parent_start" := Nested(1, 31, 31),
    "j_parent_start" := Nested(1, 17, 33), "parent_time_step_ratio" := Nested(1, 3, 3)]

  const DefaultUserSettings: Object := map[
    "geog_data_path" := Str(""), "cds_api_key" := Str(""),
    "cds_api_url" := Str("https://cds.climate.copernicus.eu/api/v2"), "wps_path" := Str(""), "wrf_path" := Str("")]

  /** `DEFAULT_CONFIG`, given the two dates the clock supplies. */
  function DefaultConfig(startDate: string, endDate: string): Object
  {
    map[
      "start_date" := Str(startDate), "end_date" := Str(endDate),
      "domain" := Obj(DefaultDomain), "projection" := Int(1),
      "physics" := Obj(DefaultPhysics()), "dynamics" := Obj(DefaultDynamics),
      "data_source" := Str("GFS"), "output_dir" := Str(""),
      "user_settings" := Obj(DefaultUserSettings)]
  }

  // ----- properties of the registry -----

  /** The set of codes a table offers. */
  function Codes(t: Table): set<nat>
  {
    if t == [] then {} else {t[0].0} + Codes(t[1..])
  }

  lemma {:induction false} CodesHaveEntries(t: Table, c: nat)
    ensures c in Codes(t) <==> HasCode(t, c)
  {
    if t != [] {
      CodesHaveEntries(t[1..], c);
      if HasCode(t, c) && c != t[0].0 {
        var i :| 0 <= i < |t| && t[i].0 == c;
        assert t[1..][i - 1].0 == c;
      }
      if HasCode(t[1..], c) {
        var i :| 0 <= i < |t| - 1 && t[1..][i].0 == c;
        assert t[i + 1].0 == c;
      }
    }
  }

  function NamedKeys(t: NamedTable): set<string>
  {
    if t == [] then {} else {t[0].0} + NamedKeys(t[1..])
  }

  // The option codes each table offers.

  lemma MpPhysicsCodes()
    ensures Codes(MpPhysics) == {1, 2, 3, 4, 6, 8, 10}
  {
  }

  lemma CuPhysicsCodes()
    ensures Codes(CuPhysics) == {0, 1, 2, 3, 5}
  {
  }

  lemma DiffOptCodes()
    ensures Codes(DiffOpt) == {0, 1, 2}
  {
  }

  lemma KmOptCodes()
    ensures Codes(KmOpt) == {1, 2, 3, 4}
  {
  }

  lemma ProjectionCodes()
    ensures Codes(Projections) == {1, 2, 3, 6}
  {
  }

  /** The data sources are exactly GFS, ERA5, FNL and NARR. */
  lemma DataSourceKeys()
    ensures NamedKeys(DataSources) == {"GFS", "ERA5", "FNL", "NARR"}
  {
  }

  /** The default object's field holds a code the table offers. */
  predicate Offered(o: Object, field: string, t: Table)
  {
    exists i :: 0 <= i < |t| && Get(o, field) == Int(t[i].0)
  }

  // Every default physics choice is one of its table's codes.

  lemma DefaultMicrophysicsAndLongwave()
    ensures Offered(DefaultPhysics(), "mp_physics", MpPhysics)
    ensures Offered(DefaultPhysics(), "ra_lw_physics", RaLwPhysics)
  {
    assert Offered(DefaultPhysics(), "mp_physics", MpPhysics) by {
      assert Get(DefaultPhysics(), "mp_physics") == Int(MpPhysics[4].0);
    }
    assert Offered(DefaultPhysics(), "ra_lw_physics", RaLwPhysics) by {
      assert Get(DefaultPhysics(), "ra_lw_physics") == Int(RaLwPhysics[0].0);
    }
  }

  lemma DefaultShortwaveAndSurface()
    ensures Offered(DefaultPhysics(), "ra_sw_physics", RaSwPhysics)
    ensures Offered(DefaultPhysics(), "sf_surface_physics", SfSurfacePhysics)
  {
    assert Offered(DefaultPhysics(), "ra_sw_physics", RaSwPhysics) by {
      assert Get(DefaultPhysics(), "ra_sw_physics") == Int(RaSwPhysics[0].0);
    }
    assert Offered(DefaultPhysics(), "sf_surface_physics", SfSurfacePhysics) by {
      assert Get(DefaultPhysics(), "sf_surface_physics") == Int(SfSurfacePhysics[1].0);
    }
  }

  lemma DefaultBoundaryLayerAndCumulus()
    ensures Offered(DefaultPhysics(), "bl_pbl_physics", BlPblPhysics)
    ensures Offered(DefaultPhysics(), "cu_physics", CuPhysics)
  {
    assert Offered(DefaultPhysics(), "bl_pbl_physics", BlPblPhysics) by {
      assert Get(DefaultPhysics(), "bl_pbl_physics") == Int(BlPblPhysics[0].0);
    }
    assert Offered(DefaultPhysics(), "cu_physics", CuPhysics) by {
      assert Get(DefaultPhysics(), "cu_physics") == Int(CuPhysics[1].0);
    }
  }

  /** The default diff_opt 2 and km_opt 4 are offered. */
  lemma DefaultDynamicsOffered()
    ensures Offered(DefaultDynamics, "diff_opt", DiffOpt) && Get(DefaultDynamics, "diff_opt") == Int(2)
    ensures Offered(DefaultDynamics, "km_opt", KmOpt) && Get(DefaultDynamics, "km_opt") == Int(4)
  {
    assert Get(DefaultDynamics, "diff_opt") == Int(DiffOpt[2].0);
    assert Get(DefaultDynamics, "km_opt") == Int(KmOpt[3].0);
  }

  /** The default nested-domain arrays have three entries and start with 1. */
  lemma DefaultNestedArrays()
    ensures forall k :: k in {"parent_grid_ratio", "i_parent_start", "j_parent_start", "parent_time_step_ratio"} ==>
              Get(DefaultDomain, k).Arr? && |Get(DefaultDomain, k).items| == 3 && Get(DefaultDomain, k).items[0] == Int(1)
  {
  }

  /** The first key of a dynamics table, read with parseInt, is its first code. */
  lemma FirstKeyParses(t: Table)
    requires |t| > 0
    ensures ParseInt(Keys(t)[0]) == Int(t[0].0)
  {
    DigitsRoundTrip(t[0].0);
    ParseIntOfDigits(Key(t[0].0));
  }
}
