/**
 * The Flask back end's namelist writer (backend/app.py): it reads the wizard's configuration
 * from the JSON request body and renders a single-domain namelist.wps and namelist.input.
 * Every f-string line becomes an Entry whose value is the `str()` of the Python value; the
 * first exception raised while building the text (a `.get` on a value that is not a dict, a
 * multiplication of None, a `strptime` of a value that is not a str) is the result's error.
 */
module BackendApp {
  import opened Wrappers
  import opened Decimals
  import opened Calendar
  import opened PyValue
  import opened Namelist
  import PyDatetime
  import Helpers

  // ----- helpers -----

  /**
   * get_single_param_val: `data_dict.get(key)`; a list gives its element 0 (the default when
   * empty), None gives the default, anything else is returned as it is.
   */
  function SingleParam(d: PyValue, key: string, default: PyValue): (r: Result<PyValue, string>)
    ensures r.Err? <==> !d.PyDict?
    ensures r.Err? ==> r.error == AttributeError
  {
    match Get(d, key, PyNone)
    case Err(e) => Err(e)
    case Ok(v) =>
      Ok(match v
         case PyList(xs) => if xs == [] then default else xs[0]
         case PyNone => default
         case _ => v)
  }

  /**
   * format_namelist_value: a bool becomes the Fortran logical `.true.`/`.false.`, a str not
   * starting with a single quote is quoted, and every other value is returned unchanged.
   */
  function Format(v: PyValue): (r: PyValue)
  {
    match v
    case PyBool(b) => PyStr(if b then ".true." else ".false.")
    case PyStr(s) => if |s| > 0 && s[0] == '\'' then v else PyStr("'" + s + "'")
    case _ => v
  }

  /** `str(format_namelist_value(v))` of a value an earlier step may have failed to produce. */
  function Formatted(r: Result<PyValue, string>): Result<string, string>
  {
    match r
    case Ok(v) => Str(Format(v))
    case Err(e) => Err(e)
  }

  /** Where the value of one namelist line comes from. */
  datatype Source =
    | Fixed(text: string)                                   // literal text
    | Single(key: string, default: PyValue)                 // get_single_param_val(sec, key, default)
    | Scalar(key: string, default: PyValue)                 // sec.get(key, default)
    | FormattedSingle(key: string, default: PyValue)        // format_namelist_value of a Single
    | FormattedScalar(key: string, default: PyValue)        // format_namelist_value of a Scalar
    | ScaledScalar(key: string, default: PyValue, k: nat)   // sec.get(key, default) * k
    | Given(value: Result<PyValue, string>)                 // a value read before the line
    | FormattedGiven(value: Result<PyValue, string>)        // format_namelist_value of such a value

  /** One f-string line of a group: its key, its value's source and its optional comment. */
  datatype Field = Field(key: string, source: Source, comment: Option<string>)

  /** The text an f-string field inserts for a source read from the section sec. */
  function Render(sec: PyValue, src: Source): Result<string, string>
  {
    match src
    case Fixed(t) => Ok(t)
    case Single(k, d) => StrOf(SingleParam(sec, k, d))
    case Scalar(k, d) => StrOf(Get(sec, k, d))
    case FormattedSingle(k, d) => Formatted(SingleParam(sec, k, d))
    case FormattedScalar(k, d) => Formatted(Get(sec, k, d))
    case ScaledScalar(k, d, n) => StrOf(TimesOf(Get(sec, k, d), n))
    case Given(r) => StrOf(r)
    case FormattedGiven(r) => Formatted(r)
  }

  /** The line a field renders to, or the exception its value raises. */
  function FieldEntry(sec: PyValue, f: Field): (r: Result<Entry, string>)
    ensures r.Ok? <==> Render(sec, f.source).Ok?
    ensures r.Ok? ==> r.value == Entry(f.key, Render(sec, f.source).value, f.comment)
    ensures r.Err? ==> r.error == Render(sec, f.source).error
  {
    match Render(sec, f.source)
    case Ok(t) => Ok(Entry(f.key, t, f.comment))
    case Err(e) => Err(e)
  }

  /** The lines of a table of fields, in order. */
  function Lines(sec: PyValue, fs: seq<Field>): (items: seq<Result<Entry, string>>)
    ensures |items| == |fs|
  {
    seq(|fs|, i requires 0 <= i < |fs| => FieldEntry(sec, fs[i]))
  }

  /** The lines of a group, built in order: the first line that raises ends the build. */
  function Collect(items: seq<Result<Entry, string>>): (r: Result<seq<Entry>, string>)
    ensures r.Ok? ==> |r.value| == |items|
  {
    if items == [] then Ok([])
    else
      match items[0]
      case Err(e) => Err(e)
      case Ok(x) =>
        match Collect(items[1..])
        case Err(e) => Err(e)
        case Ok(xs) => Ok([x] + xs)
  }

  /** A group whose lines all render. */
  function GroupOf(name: string, items: seq<Result<Entry, string>>): (r: Result<Group, string>)
    ensures r.Ok? ==> r.value.name == name && Collect(items) == Ok(r.value.entries)
  {
    match Collect(items)
    case Ok(es) => Ok(Group(name, es))
    case Err(e) => Err(e)
  }

  /** `data.get(name, {})` */
  function Section(data: PyValue, name: string): Result<PyValue, string>
  {
    Get(data, name, PyDict(map[]))
  }

  const ZeroFloat: PyValue := PyFloat(FromInt(0))
  const GridSpacing: PyValue := PyFloat(FromInt(10000))

  // ----- namelist.wps -----

  /** The &share lines: the dates read before them, max_dom from the domain section. */
  function ShareFields(geogrid: PyValue, start: PyValue, end: PyValue): seq<Field>
  {
    [Field("wrf_core", Fixed("'ARW'"), None),
     Field("max_dom", Given(Get(geogrid, "max_dom", PyInt(1))), None),
     Field("start_date", FormattedGiven(Ok(start)), None),
     Field("end_date", FormattedGiven(Ok(end)), None),
     Field("interval_seconds", Scalar("interval_seconds_wps", PyInt(21600)), None),
     Field("io_form_geogrid", Fixed("2"), None)]
  }

  /** The &share group; both dates are read before any line is written. */
  function ShareGroup(share: PyValue, geogrid: PyValue): (r: Result<Group, string>)
    ensures r.Ok? ==> r.value.name == "share"
  {
    match SingleParam(share, "start_date_str_arr", PyStr("YYYY-MM-DD_HH:MM:SS"))
    case Err(e) => Err(e)
    case Ok(start) =>
      match SingleParam(share, "end_date_str_arr", PyStr("YYYY-MM-DD_HH:MM:SS"))
      case Err(e) => Err(e)
      case Ok(end) => GroupOf("share", Lines(share, ShareFields(geogrid, start, end)))
  }

  /** The &geogrid lines, all from the domain section. */
  const GeogridFields: seq<Field> := [
    Field("parent_id", Single("parent_id_arr", PyInt(1)), None),
    Field("parent_grid_ratio", Single("parent_grid_ratio_arr", PyInt(1)), None),
    Field("i_parent_start", Single("i_parent_start_arr", PyInt(1)), None),
    Field("j_parent_start", Single("j_parent_start_arr", PyInt(1)), None),
    Field("e_we", Single("e_we_arr", PyInt(100)), None),
    Field("e_sn", Single("e_sn_arr", PyInt(100)), None),
    Field("dx", Single("dx_arr", GridSpacing), None),
    Field("dy", Single("dy_arr", GridSpacing), None),
    Field("map_proj", FormattedScalar("map_proj", PyStr("lambert")), None),
    Field("ref_lat", Scalar("ref_lat", ZeroFloat), None),
    Field("ref_lon", Scalar("ref_lon", ZeroFloat), None),
    Field("truelat1", Scalar("truelat1", ZeroFloat), None),
    Field("truelat2", Scalar("truelat2", ZeroFloat), None),
    Field("stand_lon", Scalar("stand_lon", ZeroFloat), None),
    Field("geog_data_path", FormattedScalar("geog_data_path", PyStr("/path/to/geog")), None)]

  /** The fixed &ungrib group. */
  const UngribGroup: Group := Group("ungrib", [Entry("out_format", "'WPS'", None), Entry("prefix", "'FILE'", None)])

  /** The fixed &metgrid group. */
  const MetgridGroup: Group := Group("metgrid", [Entry("fg_name", "'FILE'", None), Entry("io_form_metgrid", "2", None)])

  /** generate_wps_namelist_content as groups. */
  function WpsGroups(data: PyValue): Result<seq<Group>, string>
  {
    match Section(data, "time_control")
    case Err(e) => Err(e)
    case Ok(share) =>
      match Section(data, "domain_setup")
      case Err(e) => Err(e)
      case Ok(geogrid) =>
        match ShareGroup(share, geogrid)
        case Err(e) => Err(e)
        case Ok(s) =>
          match GroupOf("geogrid", Lines(geogrid, GeogridFields))
          case Err(e) => Err(e)
          case Ok(g) => Ok([s, g, UngribGroup, MetgridGroup])
  }

  /** generate_wps_namelist_content */
  function WpsContent(data: PyValue): Result<string, string>
  {
    match WpsGroups(data)
    case Ok(gs) => Ok(Text(gs))
    case Err(e) => Err(e)
  }

  // ----- namelist.input -----

  const FallbackStart: DateTime := DateTime(Date(2000, 1, 1), 0, 0, 0)
  const FallbackEnd: DateTime := DateTime(Date(2000, 1, 1), 3, 0, 0)

  /**
   * The run's start and end: both strings parsed, or both fallbacks when either raises
   * ValueError; a value that is not a str raises TypeError, which is not caught.
   */
  function RunDates(start: PyValue, end: PyValue): (r: Result<(DateTime, DateTime), string>)
    ensures r.Ok? ==> ValidDateTime(r.value.0) && ValidDateTime(r.value.1)
  {
    match PyDatetime.StrptimeValue(start)
    case Err(e) => Err(e)
    case Ok(None) => Ok((FallbackStart, FallbackEnd))
    case Ok(Some(s)) =>
      match PyDatetime.StrptimeValue(end)
      case Err(e) => Err(e)
      case Ok(None) => Ok((FallbackStart, FallbackEnd))
      case Ok(Some(e)) => Ok((s, e))
  }

  /** `run_days = total // 86400` and `run_hours = (total % 86400) // 3600` (floor division). */
  function RunLength(total: int): (int, int)
  {
    (total / 86400, (total % 86400) / 3600)
  }

  /** The &time_control lines before history_interval: the run and its dates, then two section values. */
  function RunFields(s: DateTime, e: DateTime): seq<Field>
    requires ValidDateTime(s) && ValidDateTime(e)
  {
    var run := RunLength(PyDatetime.TotalSeconds(s, e));
    [Field("run_days", Fixed(IntToString(run.0)), None),
     Field("run_hours", Fixed(IntToString(run.1)), None),
     Field("run_minutes", Fixed("0"), None),
     Field("run_seconds", Fixed("0"), None),
     Field("start_year", Fixed(IntToString(s.date.year)), None),
     Field("start_month", Fixed(Helpers.Pad2(s.date.month)), None),
     Field("start_day", Fixed(Helpers.Pad2(s.date.day)), None),
     Field("start_hour", Fixed(Helpers.Pad2(s.hour)), None),
     Field("end_year", Fixed(IntToString(e.date.year)), None),
     Field("end_month", Fixed(Helpers.Pad2(e.date.month)), None),
     Field("end_day", Fixed(Helpers.Pad2(e.date.day)), None),
     Field("end_hour", Fixed(Helpers.Pad2(e.hour)), None),
     Field("interval_seconds", Scalar("interval_seconds_input", PyInt(10800)), None),
     Field("input_from_file", FormattedSingle("input_from_file_arr", PyBool(true)), None)]
  }

  /** A `key = {value}, ! {comment}` line whose comment may itself raise; the value is rendered first. */
  function Noted(key: string, text: Result<string, string>, comment: Result<string, string>): Result<Entry, string>
  {
    match text
    case Err(e) => Err(e)
    case Ok(t) =>
      match comment
      case Ok(c) => Ok(Entry(key, t, Some(c)))
      case Err(e) => Err(e)
  }

  /** The history_interval line: minutes from hours when the unit is 'h', else the raw value and its unit. */
  function HistoryLine(value: PyValue, unit: PyValue): Result<Entry, string>
  {
    if unit == PyStr("h") then
      Noted("history_interval", StrOf(Times(value, 60)), Ok("Converted from hours to minutes"))
    else
      Noted("history_interval", Str(value), match Str(unit) case Ok(u) => Ok("Unit: " + u) case Err(e) => Err(e))
  }

  /** The restart_interval line: hours times 60, with 6 hours by default. */
  const RestartField: Field := Field("restart_interval", ScaledScalar("restart_interval_h", PyInt(6), 60), Some("Converted to minutes"))

  /** The &time_control lines after history_interval. */
  const OutputFields: seq<Field> := [
    Field("frames_per_outfile", Single("frames_per_outfile_arr", PyInt(1)), None),
    Field("restart", FormattedScalar("restart_enabled", PyBool(false)), None),
    RestartField,
    Field("io_form_history", Scalar("io_form_history", PyInt(2)), None),
    Field("nocolons", FormattedScalar("nocolons", PyBool(true)), None)]

  /** The &time_control group for the run from s to e; both history values are read before its lines. */
  function TimeControlGroup(tc: PyValue, s: DateTime, e: DateTime): (r: Result<Group, string>)
    requires ValidDateTime(s) && ValidDateTime(e)
    ensures r.Ok? ==> r.value.name == "time_control"
  {
    match SingleParam(tc, "history_interval_arr", PyInt(3))
    case Err(err) => Err(err)
    case Ok(history) =>
      match SingleParam(tc, "history_interval_unit_arr", PyStr("h"))
      case Err(err) => Err(err)
      case Ok(unit) =>
        GroupOf("time_control", Lines(tc, RunFields(s, e)) + [HistoryLine(history, unit)] + Lines(tc, OutputFields))
  }

  /** The grid_id line as written: it reads the parent_id list, with 1 as its default. */
  const GridIdField: Field :=
    Field("grid_id", Single("parent_id_arr", PyInt(1)), Some("Assuming grid_id matches parent_id for WPS for domain 1"))

  /** The grid_id line as intended for the single domain: WRF numbers the outermost domain 1. */
  const IntendedGridIdField: Field :=
    Field("grid_id", Fixed("1"), Some("Assuming grid_id matches parent_id for WPS for domain 1"))

  /** The parent_id line, with 0 as its default. */
  const ParentIdField: Field :=
    Field("parent_id", Single("parent_id_arr", PyInt(0)), Some("For namelist.input, d01 parent_id is 0"))

  /** The &domains lines before grid_id. */
  const DomainsHead: seq<Field> := [
    Field("time_step", Scalar("time_step", PyInt(60)), None),
    Field("max_dom", Scalar("max_dom", PyInt(1)), None),
    Field("e_we", Single("e_we_arr", PyInt(100)), None),
    Field("e_sn", Single("e_sn_arr", PyInt(100)), None),
    Field("e_vert", Single("e_vert_arr", PyInt(35)), None),
    Field("dx", Single("dx_arr", GridSpacing), None),
    Field("dy", Single("dy_arr", GridSpacing), None)]

  /** The &domains lines after grid_id. */
  const DomainsTail: seq<Field> := [
    ParentIdField,
    Field("i_parent_start", Single("i_parent_start_arr", PyInt(0)), None),
    Field("j_parent_start", Single("j_parent_start_arr", PyInt(0)), None),
    Field("parent_grid_ratio", Single("parent_grid_ratio_arr", PyInt(1)), None),
    Field("parent_time_step_ratio", Single("parent_time_step_ratio_arr", PyInt(1)), None),
    Field("feedback", Single("feedback_arr", PyInt(1)), None)]

  /** The &domains lines as written, grid_id copied from parent_id. */
  const WrittenDomainsFields: seq<Field> := DomainsHead + [GridIdField] + DomainsTail

  /** The &domains lines with the outermost domain's grid_id 1. */
  const DomainsFields: seq<Field> := DomainsHead + [IntendedGridIdField] + DomainsTail

  const PhysicsFields: seq<Field> := [
    Field("mp_physics", Single("mp_physics_arr", PyInt(8)), None),
    Field("ra_lw_physics", Single("ra_lw_physics_arr", PyInt(1)), None),
    Field("ra_sw_physics", Single("ra_sw_physics_arr", PyInt(1)), None),
    Field("radt", Single("radt_arr", PyInt(30)), None),
    Field("sf_sfclay_physics", Single("sf_sfclay_physics_arr", PyInt(1)), None),
    Field("sf_surface_physics", Single("sf_surface_physics_arr", PyInt(2)), None),
    Field("bl_pbl_physics", Single("bl_pbl_physics_arr", PyInt(1)), None),
    Field("bldt", Single("bldt_arr", PyInt(0)), None),
    Field("cu_physics", Single("cu_physics_arr", PyInt(1)), None),
    Field("cudt", Single("cudt_arr", PyInt(5)), None)]

  const DynamicsFields: seq<Field> := [
    Field("diff_opt", Single("diff_opt_arr", PyInt(1)), None),
    Field("km_opt", Single("km_opt_arr", PyInt(4)), None),
    Field("non_hydrostatic", FormattedSingle("non_hydrostatic_arr", PyBool(true)), None),
    Field("w_damping", Single("w_damping_arr", PyInt(0)), None)]

  const BdyControlFields: seq<Field> := [
    Field("spec_bdy_width", Single("spec_bdy_width_arr", PyInt(5)), None),
    Field("spec_zone", Single("spec_zone_arr", PyInt(1)), None),
    Field("relax_zone", Single("relax_zone_arr", PyInt(4)), None),
    Field("specified", FormattedSingle("specified_arr", PyBool(true)), None),
    Field("nested", FormattedSingle("nested_arr", PyBool(false)), None)]

  const QuiltFields: seq<Field> := [
    Field("nio_tasks_per_group", Scalar("nio_tasks_per_group", PyInt(0)), None),
    Field("nio_groups", Scalar("nio_groups", PyInt(1)), None)]

  /** The groups after &time_control, in the order they are written, given the &domains lines. */
  function LaterGroups(domains: seq<Field>, dom: PyValue, phy: PyValue, dyn: PyValue, bdy: PyValue, quilt: PyValue)
    : (r: Result<seq<Group>, string>)
    ensures r.Ok? ==> |r.value| == 5 && r.value[0].name == "domains" && r.value[1].name == "physics" &&
                      r.value[2].name == "dynamics" && r.value[3].name == "bdy_control" && r.value[4].name == "namelist_quilt"
  {
    match GroupOf("domains", Lines(dom, domains))
    case Err(e) => Err(e)
    case Ok(d) =>
      match GroupOf("physics", Lines(phy, PhysicsFields))
      case Err(e) => Err(e)
      case Ok(p) =>
        match GroupOf("dynamics", Lines(dyn, DynamicsFields))
        case Err(e) => Err(e)
        case Ok(y) =>
          match GroupOf("bdy_control", Lines(bdy, BdyControlFields))
          case Err(e) => Err(e)
          case Ok(b) =>
            match GroupOf("namelist_quilt", Lines(quilt, QuiltFields))
            case Err(e) => Err(e)
            case Ok(q) => Ok([d, p, y, b, q])
  }

  /** The six sections the input namelist reads, each `data.get(name, {})`. */
  const InputSections: seq<string> := ["time_control", "domain_setup", "physics", "dynamics", "bdy_control", "namelist_quilt"]

  function Sections(data: PyValue, names: seq<string>): (r: Result<seq<PyValue>, string>)
    ensures r.Ok? ==> |r.value| == |names|
  {
    if names == [] then Ok([])
    else
      match Section(data, names[0])
      case Err(e) => Err(e)
      case Ok(v) =>
        match Sections(data, names[1..])
        case Err(e) => Err(e)
        case Ok(vs) => Ok([v] + vs)
  }

  /** generate_input_namelist_content as groups, with the given &domains lines. */
  function InputGroupsWith(domains: seq<Field>, data: PyValue): Result<seq<Group>, string>
  {
    match Sections(data, InputSections)
    case Err(e) => Err(e)
    case Ok(sec) =>
      var tc := sec[0];
      match SingleParam(tc, "start_date_str_arr", PyStr("2000-01-01_00:00:00"))
      case Err(e) => Err(e)
      case Ok(start) =>
        match SingleParam(tc, "end_date_str_arr", PyStr("2000-01-01_03:00:00"))
        case Err(e) => Err(e)
        case Ok(end) =>
          match RunDates(start, end)
          case Err(e) => Err(e)
          case Ok(dates) =>
            match TimeControlGroup(tc, dates.0, dates.1)
            case Err(e) => Err(e)
            case Ok(t) =>
              match LaterGroups(domains, sec[1], sec[2], sec[3], sec[4], sec[5])
              case Err(e) => Err(e)
              case Ok(rest) => Ok([t] + rest)
  }

  /** generate_input_namelist_content as written. */
  function WrittenInputContent(data: PyValue): Result<string, string>
  {
    match InputGroupsWith(WrittenDomainsFields, data)
    case Ok(gs) => Ok(Text(gs))
    case Err(e) => Err(e)
  }

  /** generate_input_namelist_content with the outermost domain's grid_id 1. */
  function InputContent(data: PyValue): Result<string, string>
  {
    match InputGroupsWith(DomainsFields, data)
    case Ok(gs) => Ok(Text(gs))
    case Err(e) => Err(e)
  }

  // ----- properties -----

  /** A value stored the React way, as a one-element list, is read back as that value. */
  lemma SingleParamUnwraps(m: Dict, key: string, v: PyValue, default: PyValue)
    ensures SingleParam(PyDict(m[key := PyList([v])]), key, default) == Ok(v)
  {
  }

  /**
   * A missing key, a None and an empty list give the default; 0 and False are kept, since
   * only None is replaced.
   */
  lemma SingleParamDefaults(m: Dict, key: string, default: PyValue)
    ensures key !in m ==> SingleParam(PyDict(m), key, default) == Ok(default)
    ensures SingleParam(PyDict(m[key := PyNone]), key, default) == Ok(default)
    ensures SingleParam(PyDict(m[key := PyList([])]), key, default) == Ok(default)
    ensures SingleParam(PyDict(m[key := PyInt(0)]), key, default) == Ok(PyInt(0))
    ensures SingleParam(PyDict(m[key := PyBool(false)]), key, default) == Ok(PyBool(false))
  {
  }

  /** Booleans become Fortran logicals, so `.true.` exactly when the value is True. */
  lemma FormatLogical(b: bool)
    ensures Format(PyBool(b)) == PyStr(if b then ".true." else ".false.")
    ensures Str(Format(PyBool(b))) == Ok(if b then ".true." else ".false.")
  {
  }

  /** A string without a leading quote is enclosed in single quotes, its text unchanged between them. */
  lemma FormatQuotes(s: string)
    requires |s| == 0 || s[0] != '\''
    ensures Format(PyStr(s)).PyStr?
    ensures var q := Format(PyStr(s)).s;
            |q| == |s| + 2 && q[0] == '\'' && q[|q| - 1] == '\'' && q[1..|q| - 1] == s
  {
    var q := "'" + s + "'";
    assert q[1..|q| - 1] == s;
  }

  /** Numbers, None, lists and dicts pass through unchanged. */
  lemma FormatKeepsOthers(v: PyValue)
    requires !v.PyBool? && !v.PyStr?
    ensures Format(v) == v
  {
  }

  /** Formatting a string twice is formatting it once. */
  lemma FormatStringIdempotent(s: string)
    ensures Format(Format(PyStr(s))) == Format(PyStr(s))
  {
  }

  /** Formatting a boolean twice is not formatting it once: `.true.` is then quoted. */
  lemma FormatBoolNotIdempotent()
    ensures Format(Format(PyBool(true))) == PyStr("'.true.'")
    ensures Format(Format(PyBool(true))) != Format(PyBool(true))
  {
  }

  /**
   * Lines are built in order and the first that raises is the error: the build succeeds
   * exactly when every line does, and then holds every line.
   */
  lemma {:induction false} CollectOk(items: seq<Result<Entry, string>>)
    ensures Collect(items).Ok? <==> forall i :: 0 <= i < |items| ==> items[i].Ok?
    ensures Collect(items).Ok? ==>
              |Collect(items).value| == |items| &&
              forall i :: 0 <= i < |items| ==> Collect(items).value[i] == items[i].value
  {
    if items != [] {
      CollectOk(items[1..]);
      if items[0].Ok? && Collect(items[1..]).Ok? {
        var xs := Collect(items[1..]).value;
        forall i | 0 < i < |items|
          ensures ([items[0].value] + xs)[i] == items[i].value
        {
          assert items[1..][i - 1] == items[i];
        }
      }
      if !Collect(items).Ok? && items[0].Ok? {
        var k :| 0 <= k < |items| - 1 && !items[1..][k].Ok?;
        assert !items[k + 1].Ok?;
      }
    }
  }

  /** When a line raises, the error is that of the first line that raises. */
  lemma {:induction false} CollectFirstError(items: seq<Result<Entry, string>>, k: nat)
    requires k < |items| && items[k].Err?
    requires forall j :: 0 <= j < k ==> items[j].Ok?
    ensures Collect(items) == Err(items[k].error)
  {
    if k > 0 {
      CollectFirstError(items[1..], k - 1);
    }
  }

  /**
   * A table of fields renders exactly when every field does, and then each line carries its
   * field's key, rendered value and comment, in the table's order.
   */
  lemma GroupFields(name: string, sec: PyValue, fs: seq<Field>)
    ensures GroupOf(name, Lines(sec, fs)).Ok? <==> forall i :: 0 <= i < |fs| ==> Render(sec, fs[i].source).Ok?
    ensures GroupOf(name, Lines(sec, fs)).Ok? ==>
              var es := GroupOf(name, Lines(sec, fs)).value.entries;
              |es| == |fs| &&
              forall i :: 0 <= i < |fs| ==> es[i] == Entry(fs[i].key, Render(sec, fs[i].source).value, fs[i].comment)
  {
    var items := Lines(sec, fs);
    CollectOk(items);
    assert forall i :: 0 <= i < |fs| ==> items[i] == FieldEntry(sec, fs[i]);
  }

  /** Groups named as listed are written under those names, in that order, one closing slash each. */
  lemma {:induction false} NamedInOrder(gs: seq<Group>, names: seq<string>)
    requires |gs| == |names| && forall i :: 0 <= i < |gs| ==> gs[i].name == names[i]
    ensures Names(gs) == names
    ensures Headers(DocLines(gs)) == names && Closers(DocLines(gs)) == |gs|
  {
    if gs != [] {
      NamedInOrder(gs[1..], names[1..]);
    }
    GroupsInOrder(gs);
  }

  /** The groups WpsGroups builds, by name. */
  lemma WpsGroupNames(data: PyValue)
    requires WpsGroups(data).Ok?
    ensures var gs := WpsGroups(data).value;
            |gs| == 4 && gs[0].name == "share" && gs[1].name == "geogrid" && gs[2] == UngribGroup && gs[3] == MetgridGroup
  {
    var share := Section(data, "time_control").value;
    var geogrid := Section(data, "domain_setup").value;
    var s := ShareGroup(share, geogrid).value;
    var g := GroupOf("geogrid", Lines(geogrid, GeogridFields)).value;
    assert WpsGroups(data).value == [s, g, UngribGroup, MetgridGroup];
  }

  /** namelist.wps is &share, &geogrid, &ungrib and &metgrid in that order, one closing slash each. */
  lemma WpsGroupOrder(data: PyValue)
    requires WpsGroups(data).Ok?
    ensures Names(WpsGroups(data).value) == ["share", "geogrid", "ungrib", "metgrid"]
    ensures Closers(DocLines(WpsGroups(data).value)) == 4
  {
    WpsGroupNames(data);
    WpsNamesInOrder(WpsGroups(data).value);
  }

  lemma WpsNamesInOrder(gs: seq<Group>)
    requires |gs| == 4 && gs[0].name == "share" && gs[1].name == "geogrid" && gs[2] == UngribGroup && gs[3] == MetgridGroup
    ensures Names(gs) == ["share", "geogrid", "ungrib", "metgrid"]
    ensures Closers(DocLines(gs)) == 4
  {
    NamedInOrder(gs, ["share", "geogrid", "ungrib", "metgrid"]);
  }

  /** The groups InputGroupsWith builds, by name. */
  lemma InputGroupNames(domains: seq<Field>, data: PyValue)
    requires InputGroupsWith(domains, data).Ok?
    ensures var gs := InputGroupsWith(domains, data).value;
            |gs| == 6 && gs[0].name == "time_control" && gs[1].name == "domains" && gs[2].name == "physics" &&
            gs[3].name == "dynamics" && gs[4].name == "bdy_control" && gs[5].name == "namelist_quilt"
  {
    var sec := Sections(data, InputSections).value;
    var start := SingleParam(sec[0], "start_date_str_arr", PyStr("2000-01-01_00:00:00")).value;
    var end := SingleParam(sec[0], "end_date_str_arr", PyStr("2000-01-01_03:00:00")).value;
    var dates := RunDates(start, end).value;
    var t := TimeControlGroup(sec[0], dates.0, dates.1).value;
    var rest := LaterGroups(domains, sec[1], sec[2], sec[3], sec[4], sec[5]).value;
    assert InputGroupsWith(domains, data).value == [t] + rest;
  }

  /**
   * namelist.input is &time_control, &domains, &physics, &dynamics, &bdy_control and
   * &namelist_quilt in that order, one closing slash each.
   */
  lemma InputGroupOrder(domains: seq<Field>, data: PyValue)
    requires InputGroupsWith(domains, data).Ok?
    ensures Names(InputGroupsWith(domains, data).value) ==
            ["time_control", "domains", "physics", "dynamics", "bdy_control", "namelist_quilt"]
    ensures Closers(DocLines(InputGroupsWith(domains, data).value)) == 6
  {
    InputGroupNames(domains, data);
    InputNamesInOrder(InputGroupsWith(domains, data).value);
  }

  lemma InputNamesInOrder(gs: seq<Group>)
    requires |gs| == 6 && gs[0].name == "time_control" && gs[1].name == "domains" && gs[2].name == "physics" &&
             gs[3].name == "dynamics" && gs[4].name == "bdy_control" && gs[5].name == "namelist_quilt"
    ensures Names(gs) == ["time_control", "domains", "physics", "dynamics", "bdy_control", "namelist_quilt"]
    ensures Closers(DocLines(gs)) == 6
  {
    NamedInOrder(gs, ["time_control", "domains", "physics", "dynamics", "bdy_control", "namelist_quilt"]);
  }

  /** A request body that is not a JSON object cannot be rendered: `data.get` raises AttributeError. */
  lemma NonObjectBody(data: PyValue)
    requires !data.PyDict?
    ensures WpsContent(data) == Err(AttributeError)
    ensures InputContent(data) == Err(AttributeError)
    ensures WrittenInputContent(data) == Err(AttributeError)
  {
  }

  /**
   * run_hours lies in [0, 24) and the run length is run_days days plus run_hours hours plus
   * less than an hour, also for a run that ends before it starts.
   */
  lemma RunLengthSplits(total: int)
    ensures 0 <= RunLength(total).1 < 24
    ensures var r := total - RunLength(total).0 * 86400 - RunLength(total).1 * 3600; 0 <= r < 3600
  {
  }

  /** The fallback run is 0 days and 3 hours. */
  lemma FallbackRun()
    ensures RunLength(PyDatetime.TotalSeconds(FallbackStart, FallbackEnd)) == (0, 3)
  {
    assert Seconds(FallbackEnd) - Seconds(FallbackStart) == 10800;
  }

  /** A start that parses is reset with the end when only the end raises ValueError. */
  lemma BothDatesReset(start: string, end: string)
    requires PyDatetime.Strptime(start).Some? && PyDatetime.Strptime(end).None?
    ensures RunDates(PyStr(start), PyStr(end)) == Ok((FallbackStart, FallbackEnd))
  {
  }

  /** A date that is not a str raises TypeError, which the fallback does not catch. */
  lemma NonStringDate(start: PyValue, end: PyValue)
    requires !start.PyStr?
    ensures RunDates(start, end) == Err(TypeError)
  {
  }

  /** With unit 'h' an integer count of hours is written in minutes. */
  lemma HistoryInMinutes(v: int)
    ensures HistoryLine(PyInt(v), PyStr("h")) ==
            Ok(Entry("history_interval", IntToString(v * 60), Some("Converted from hours to minutes")))
  {
  }

  /** With another unit the value is written as it is, its unit in the comment. */
  lemma HistoryOtherUnit(v: int, unit: string)
    requires unit != "h"
    ensures HistoryLine(PyInt(v), PyStr(unit)) == Ok(Entry("history_interval", IntToString(v), Some("Unit: " + unit)))
  {
  }

  /** A count of hours stored as a string is repeated sixty times instead of multiplied. */
  lemma HistoryStringRepeats(s: string)
    ensures HistoryLine(PyStr(s), PyStr("h")).Ok?
    ensures HistoryLine(PyStr(s), PyStr("h")).value.value == Repeat(s, 60)
  {
  }

  /** Without restart_interval_h the restart interval is 360 minutes. */
  lemma RestartDefault(tc: Dict)
    requires "restart_interval_h" !in tc
    ensures FieldEntry(PyDict(tc), RestartField) == Ok(Entry("restart_interval", "360", Some("Converted to minutes")))
  {
    assert IntToString(360) == "360" by {
      assert NatToDigits(360) == NatToDigits(36) + ['0'];
      assert NatToDigits(36) == NatToDigits(3) + ['6'];
    }
  }

  /** The float 0.0 prints as "0.0". */
  lemma ZeroFloatText()
    ensures Str(ZeroFloat) == Ok("0.0")
  {
    assert NatToDigits(0) == "0";
    assert FixedString(FromInt(0)) == "0";
    assert FloatText(FromInt(0)) == "0" + ".0" == "0.0";
  }

  /**
   * The geogrid ref_lat line reads the scalar `ref_lat`; a domain section holding only the
   * `ref_lat_arr` list that the React Domain page writes gets 0.0.
   */
  lemma RefLatIgnoresList(geogrid: Dict)
    requires "ref_lat" !in geogrid
    requires GroupOf("geogrid", Lines(PyDict(geogrid), GeogridFields)).Ok?
    ensures GroupOf("geogrid", Lines(PyDict(geogrid), GeogridFields)).value.entries[9] == Entry("ref_lat", "0.0", None)
  {
    GroupFields("geogrid", PyDict(geogrid), GeogridFields);
    assert GeogridFields[9] == Field("ref_lat", Scalar("ref_lat", ZeroFloat), None);
    ZeroFloatText();
  }

  /** grid_id repeats whatever parent_id list is stored, so both lines show the same value. */
  lemma GridIdMirrorsParentId(dom: Dict, ids: seq<PyValue>)
    requires "parent_id_arr" in dom && dom["parent_id_arr"] == PyList(ids) && |ids| > 0
    ensures FieldEntry(PyDict(dom), GridIdField).Ok? <==> FieldEntry(PyDict(dom), ParentIdField).Ok?
    ensures FieldEntry(PyDict(dom), GridIdField).Ok? ==>
              FieldEntry(PyDict(dom), GridIdField).value.value == FieldEntry(PyDict(dom), ParentIdField).value.value
  {
  }

  /**
   * As written, the React store's initial parent_id list [0] gives the outermost domain
   * grid_id 0 in namelist.input.
   */
  lemma GridIdZeroFromStore(dom: Dict)
    requires "parent_id_arr" in dom && dom["parent_id_arr"] == PyList([PyInt(0)])
    requires GroupOf("domains", Lines(PyDict(dom), WrittenDomainsFields)).Ok?
    ensures var es := GroupOf("domains", Lines(PyDict(dom), WrittenDomainsFields)).value.entries;
            |es| == 14 && es[7].key == "grid_id" && es[7].value == "0"
  {
    GroupFields("domains", PyDict(dom), WrittenDomainsFields);
    assert WrittenDomainsFields[7] == GridIdField;
  }

  /** As intended, the outermost domain's grid_id is 1 for every stored domain section. */
  lemma IntendedGridIdIsOne(dom: PyValue)
    requires GroupOf("domains", Lines(dom, DomainsFields)).Ok?
    ensures var es := GroupOf("domains", Lines(dom, DomainsFields)).value.entries;
            |es| == 14 && es[7].key == "grid_id" && es[7].value == "1"
  {
    GroupFields("domains", dom, DomainsFields);
    assert DomainsFields[7] == IntendedGridIdField;
  }

  /** The intended &domains group differs from the written one in the grid_id line alone. */
  lemma DomainsDifferInGridIdOnly(dom: PyValue)
    requires GroupOf("domains", Lines(dom, DomainsFields)).Ok?
    requires GroupOf("domains", Lines(dom, WrittenDomainsFields)).Ok?
    ensures var es := GroupOf("domains", Lines(dom, DomainsFields)).value.entries;
            var ws := GroupOf("domains", Lines(dom, WrittenDomainsFields)).value.entries;
            |es| == |ws| && forall i :: 0 <= i < |es| && i != 7 ==> es[i] == ws[i]
  {
    GroupFields("domains", dom, DomainsFields);
    GroupFields("domains", dom, WrittenDomainsFields);
    assert forall i :: 0 <= i < 14 && i != 7 ==> DomainsFields[i] == WrittenDomainsFields[i];
  }
}
