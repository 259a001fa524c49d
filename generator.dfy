/**
 * The web version's generator (web_version/generator_module.py): the map projection name,
 * the run length and interval it writes into the namelists, the per-domain value lists of
 * a multi-domain run, the canonical date text, the GFS download script's loop over the
 * 00/06/12/18 UTC cycles, and the output directory the generator settles on.
 */
module Generator {
  import opened Wrappers
  import opened Decimals
  import opened Calendar
  import opened PyValue
  import PyDatetime
  import Helpers
  import BackendApp

  const ValueError := "ValueError"
  /** What adding a day to a datetime on 9999-12-31 raises. */
  const OverflowError := "OverflowError"

  // ----- map projection -----

  /** `proj_map.get(code, "lambert")`: a list or dict is unhashable and raises TypeError. */
  function ProjName(code: PyValue): (r: Result<string, string>)
    ensures r.Err? <==> code.PyList? || code.PyDict?
    ensures r.Ok? ==> r.value == "lambert" || r.value == "polar" || r.value == "mercator" || r.value == "lat-lon"
  {
    if code.PyList? || code.PyDict? then Err(TypeError)
    else
      match AsInteger(code)
      case Some(2) => Ok("polar")
      case Some(3) => Ok("mercator")
      case Some(6) => Ok("lat-lon")
      case _ => Ok("lambert")
  }

  /** `sub in s` on strings: sub occurs somewhere in s. */
  predicate Occurs(sub: string, s: string)
    decreases |s|
  {
    (|sub| <= |s| && s[..|sub|] == sub) || (s != [] && Occurs(sub, s[1..]))
  }

  /** `key in container`: a dict's keys, a list's elements, a string's substrings; anything else raises TypeError. */
  function Contains(container: PyValue, key: string): Result<bool, string>
  {
    match container
    case PyDict(m) => Ok(key in m)
    case PyList(xs) => Ok(PyStr(key) in xs)
    case PyStr(s) => Ok(Occurs(key, s))
    case _ => Err(TypeError)
  }

  /** The projection code: the top-level `projection`, else the domain's, else 1. */
  function ProjectionCode(config: Dict): Result<PyValue, string>
  {
    if "projection" in config then Ok(config["projection"])
    else
      var domain := if "domain" in config then config["domain"] else PyDict(map[]);
      match Contains(domain, "projection")
      case Err(e) => Err(e)
      case Ok(false) => Ok(PyInt(1))
      case Ok(true) => Subscript(domain, "projection")
  }

  /** get_map_proj_name */
  function MapProjName(config: Dict): Result<string, string>
  {
    match ProjectionCode(config)
    case Ok(code) => ProjName(code)
    case Err(e) => Err(e)
  }

  // ----- interval and run length -----

  /** interval_seconds: hourly for ERA5, three-hourly for every other source. */
  function IntervalSeconds(dataSource: PyValue): (r: int)
    ensures r == 3600 || r == 10800
    ensures r == 3600 <==> dataSource == PyStr("ERA5")
  {
    if dataSource == PyStr("ERA5") then 3600 else 10800
  }

  /** `int(a / b)` for b > 0: the quotient truncated toward zero. */
  function TruncDiv(a: int, b: int): int
    requires b > 0
  {
    if a >= 0 then a / b else -((-a) / b)
  }

  /** `duration_hours = int(total / 3600)`, then `run_days = h // 24` and `run_hours = h % 24`. */
  function RunLength(total: int): (int, int)
  {
    var h := TruncDiv(total, 3600);
    (h / 24, h % 24)
  }

  // ----- per-domain value lists -----

  /** `", ".join(items)` */
  function JoinList(items: seq<string>): string
  {
    if items == [] then "" else if |items| == 1 then items[0] else items[0] + ", " + JoinList(items[1..])
  }

  /** The position of the first ", " in s. */
  function FindSep(s: string): (r: Option<nat>)
    ensures r.Some? ==> r.value + 2 <= |s| && s[r.value] == ',' && s[r.value + 1] == ' '
  {
    if |s| < 2 then None
    else if s[0] == ',' && s[1] == ' ' then Some(0)
    else
      match FindSep(s[1..])
      case None => None
      case Some(i) => Some(i + 1)
  }

  /** The items of a list line, read back by splitting at every ", ". */
  function ReadList(s: string): seq<string>
    decreases |s|
  {
    match FindSep(s)
    case None => [s]
    case Some(i) => [s[..i]] + ReadList(s[i + 2..])
  }

  predicate NoComma(s: string)
  {
    forall j :: 0 <= j < |s| ==> s[j] != ','
  }

  /** n copies of t: `[t for _ in range(n)]` */
  function Copies(t: string, n: nat): (r: seq<string>)
    ensures |r| == n
  {
    seq(n, _ => t)
  }

  /** A value written once per domain: repeated max_dom times when there are nests, once otherwise. */
  function PerDomain(t: string, maxDom: int): string
  {
    if maxDom > 1 then JoinList(Copies(t, maxDom)) else t
  }

  /** parent_id of a multi-domain run: `['1'] + [str(i) for i in range(1, max_dom)]`. */
  function ParentIds(maxDom: int): seq<string>
  {
    ["1"] + seq(if maxDom > 1 then maxDom - 1 else 0, i => IntToString(i + 1))
  }

  /** grid_id of a multi-domain run: `[str(i + 1) for i in range(max_dom)]`. */
  function GridIds(maxDom: int): seq<string>
  {
    seq(if maxDom > 0 then maxDom else 0, i => IntToString(i + 1))
  }

  /** gwd_opt of a multi-domain run: on for the outermost domain only. */
  function GwdOpt(maxDom: int): seq<string>
  {
    ["1"] + Copies("0", if maxDom > 1 then maxDom - 1 else 0)
  }

  /** `[str(r) for r in xs[:n]]` */
  function StrItems(xs: seq<PyValue>, n: nat): (r: Result<seq<string>, string>)
    ensures r.Ok? ==> |r.value| == (if n < |xs| then n else |xs|)
  {
    if xs == [] || n == 0 then Ok([])
    else
      match Str(xs[0])
      case Err(e) => Err(e)
      case Ok(t) =>
        match StrItems(xs[1..], n - 1)
        case Err(e) => Err(e)
        case Ok(ts) => Ok([t] + ts)
  }

  /** dx and dy: the kilometre value times 1000, as written. */
  function MetresText(km: PyValue): Result<string, string>
  {
    StrOf(Times(km, 1000))
  }

  // ----- dates -----

  /** `strptime(s, fmt).strftime(fmt)`: the date text the namelists carry; ValueError when s does not parse. */
  function NormalizedDate(s: string): Result<string, string>
  {
    match PyDatetime.Strptime(s)
    case None => Err(ValueError)
    case Some(t) => Ok(Helpers.DateToWrfString(t))
  }

  /** The start_date and end_date values of namelist.wps: the quoted date once per domain. */
  function WpsDateList(s: string, maxDom: int): Result<string, string>
  {
    match NormalizedDate(s)
    case Err(e) => Err(e)
    case Ok(t) => Ok(PerDomain("'" + t + "'", maxDom))
  }

  // ----- GFS download slots -----

  /** A GFS cycle to fetch: a calendar day and an hour of 0, 6, 12 or 18. */
  datatype Slot = Slot(day: Date, hour: int)

  const CycleHours: seq<int> := [0, 6, 12, 18]

  /** `current_date.replace(hour=0)` in seconds: day d at the start's minute and second. */
  function DayBase(start: DateTime, d: Date): int
    requires 1 <= d.month <= 12
  {
    Days(d) * 86400 + start.minute * 60 + start.second
  }

  /** `current_date.replace(hour=hour)` in seconds. */
  function SlotTime(start: DateTime, s: Slot): int
    requires 1 <= s.day.month <= 12
  {
    DayBase(start, s.day) + s.hour * 3600
  }

  predicate InWindow(start: DateTime, end: DateTime, s: Slot)
    requires ValidDateTime(start) && ValidDateTime(end) && 1 <= s.day.month <= 12
  {
    Seconds(start) <= SlotTime(start, s) <= Seconds(end)
  }

  /**
   * The slots of day d among its first n cycle hours, in order: those whose time, base plus
   * the hour, lies in [lo, hi].
   */
  function Cycles(d: Date, base: int, lo: int, hi: int, n: nat): seq<Slot>
    requires n <= 4
  {
    if n == 0 then []
    else
      var h := 6 * (n - 1);
      Cycles(d, base, lo, hi, n - 1) + (if lo <= base + h * 3600 <= hi then [Slot(d, h)] else [])
  }

  /** One day's slots, within [lo, hi] and on the hours below bound. */
  predicate CyclesOf(slots: seq<Slot>, d: Date, base: int, lo: int, hi: int, bound: int)
  {
    forall i :: 0 <= i < |slots| ==>
      slots[i].day == d && slots[i].hour in CycleHours && slots[i].hour < bound && lo <= base + slots[i].hour * 3600 <= hi
  }

  predicate HoursAscending(slots: seq<Slot>)
  {
    forall i, j :: 0 <= i < j < |slots| ==> slots[i].hour < slots[j].hour
  }

  /** The slots the inner loop emits for day d. */
  function DaySlots(start: DateTime, end: DateTime, d: Date): seq<Slot>
    requires ValidDateTime(start) && ValidDateTime(end) && ValidDate(d)
  {
    Cycles(d, DayBase(start, d), Seconds(start), Seconds(end), 4)
  }

  /**
   * The loop from day d on. As written (byDate false) it runs while the day at the start's
   * time of day is not after end; as intended (byDate true) while the day is not after
   * end's day.
   */
  function Visit(start: DateTime, end: DateTime, d: Date, byDate: bool): seq<Slot>
    requires ValidDateTime(start) && ValidDateTime(end) && ValidDate(d)
    decreases Days(end.date) - Days(d)
  {
    var goOn := if byDate then Days(d) <= Days(end.date)
                else DayBase(start, d) + start.hour * 3600 <= Seconds(end);
    if !goOn then []
    else
      NextDayNumber(d);
      DaySlots(start, end, d) + Visit(start, end, NextDay(d), byDate)
  }

  /**
   * The slots the download script fetches, as written: real cycles inside [start, end], each
   * once and in increasing time.
   */
  function GfsSlots(start: DateTime, end: DateTime): (r: seq<Slot>)
    requires ValidDateTime(start) && ValidDateTime(end)
    ensures Sound(start, end, r) && Ascending(start, r)
  {
    VisitShape(start, end, start.date, false);
    Visit(start, end, start.date, false)
  }

  /** The slots the download script is meant to fetch: every cycle of every day from start's to end's. */
  function IntendedGfsSlots(start: DateTime, end: DateTime): (r: seq<Slot>)
    requires ValidDateTime(start) && ValidDateTime(end)
    ensures Sound(start, end, r) && Ascending(start, r)
  {
    VisitShape(start, end, start.date, true);
    Visit(start, end, start.date, true)
  }

  /** `os.path.join(a, b)` on POSIX. */
  function PathJoin(a: string, b: string): string
  {
    if |b| > 0 && b[0] == '/' then b
    else if a == [] || a[|a| - 1] == '/' then a + b
    else a + "/" + b
  }

  /** `strftime("%Y%m%d")` */
  function DateStamp(d: Date): string
    requires ValidDate(d)
  {
    IntToString(d.year) + Helpers.Pad2(d.month) + Helpers.Pad2(d.day)
  }

  const ScriptIntro: string := "#!/bin/bash\n\n# Script to download GFS data for WRF\n# Created by WRF Setup GUI\n\n"
  const NomadsGfs: string := "https://nomads.ncep.noaa.gov/pub/data/nccf/com/gfs/prod/gfs."

  /** The opening of the Unix GFS script. */
  function GfsHeader(outDir: string): string
  {
    ScriptIntro + "OUTDIR=\"" + PathJoin(outDir, "gfs_data") + "\"\nmkdir -p $OUTDIR\n\n# Download GFS data\n"
  }

  /** A piece of a format string: fixed text, or the place of the date stamp or of the cycle hour. */
  datatype Piece = Text(t: string) | StampHere | HourHere

  /** The two format strings of one fetch: an echo, then a wget of the cycle's analysis file. */
  const FetchTemplate: seq<Piece> :=
    [Text("echo \"Downloading GFS data for "), StampHere, Text(" "), HourHere, Text("Z\"\n"),
     Text("wget -c -P $OUTDIR \""), Text(NomadsGfs), StampHere, Text("/"), HourHere,
     Text("/atmos/gfs.t"), HourHere, Text("z.pgrb2.0p25.f000\"\n")]

  /** The pieces with stamp and hh put in their places. */
  function Fill(pieces: seq<Piece>, stamp: string, hh: string): string
  {
    if pieces == [] then ""
    else
      var last := match pieces[|pieces| - 1]
        case Text(t) => t
        case StampHere => stamp
        case HourHere => hh;
      Fill(pieces[..|pieces| - 1], stamp, hh) + last
  }

  /** The two lines that fetch cycle hh of the day stamp. */
  function FetchText(stamp: string, hh: string): string
  {
    Fill(FetchTemplate, stamp, hh)
  }

  /** The fetch lines of one slot. */
  function SlotText(s: Slot): string
    requires ValidDate(s.day) && 0 <= s.hour < 100
  {
    FetchText(DateStamp(s.day), Helpers.Pad2(s.hour))
  }

  predicate Printable(slots: seq<Slot>)
  {
    forall i :: 0 <= i < |slots| ==> ValidDate(slots[i].day) && 0 <= slots[i].hour < 100
  }

  /** The fetch lines of the slots, one after another. */
  function SlotsText(slots: seq<Slot>): string
    requires Printable(slots)
  {
    if slots == [] then "" else SlotsText(slots[..|slots| - 1]) + SlotText(slots[|slots| - 1])
  }

  /** Every slot is a real day's cycle hour inside [start, end]. */
  predicate Sound(start: DateTime, end: DateTime, slots: seq<Slot>)
    requires ValidDateTime(start) && ValidDateTime(end)
  {
    Printable(slots) &&
    forall i :: 0 <= i < |slots| ==> slots[i].hour in CycleHours && InWindow(start, end, slots[i])
  }

  /** Slots in strictly increasing time, so none repeats. */
  predicate Ascending(start: DateTime, slots: seq<Slot>)
  {
    forall i, j :: 0 <= i < j < |slots| ==>
      1 <= slots[i].day.month <= 12 && 1 <= slots[j].day.month <= 12 && SlotTime(start, slots[i]) < SlotTime(start, slots[j])
  }

  /**
   * The text the inner loop writes for the day stamp over its first n cycle hours: the fetch
   * lines of each hour whose time, base plus the hour, lies in [lo, hi].
   */
  function DayText(stamp: string, base: int, lo: int, hi: int, n: nat): string
    requires n <= 4
  {
    if n == 0 then ""
    else
      var h := 6 * (n - 1);
      DayText(stamp, base, lo, hi, n - 1) + (if lo <= base + h * 3600 <= hi then FetchText(stamp, Helpers.Pad2(h)) else "")
  }

  /** The text the loop writes from day d on, day by day as Visit runs. */
  function VisitText(start: DateTime, end: DateTime, d: Date, byDate: bool): string
    requires ValidDateTime(start) && ValidDateTime(end) && ValidDate(d)
    decreases Days(end.date) - Days(d)
  {
    var goOn := if byDate then Days(d) <= Days(end.date)
                else DayBase(start, d) + start.hour * 3600 <= Seconds(end);
    if !goOn then ""
    else
      NextDayNumber(d);
      DayText(DateStamp(d), DayBase(start, d), Seconds(start), Seconds(end), 4) + VisitText(start, end, NextDay(d), byDate)
  }

  /** The inner loop over the hours 0, 6, 12 and 18 of the day whose `date_str` is stamp. */
  method DayLines(stamp: string, base: int, lo: int, hi: int) returns (lines: string)
    ensures lines == DayText(stamp, base, lo, hi, 4)
  {
    lines := "";
    var hour := 0;
    ghost var n := 0;
    while hour < 24
      invariant 0 <= n <= 4 && hour == 6 * n
      invariant lines == DayText(stamp, base, lo, hi, n)
    {
      if lo <= base + hour * 3600 <= hi {
        var hourStr := Helpers.Pad2(hour);
        lines := lines + FetchText(stamp, hourStr);
      }
      hour := hour + 6;
      n := n + 1;
    }
  }

  /** The loop reaches 9999-12-31: the last day at the start's time of day is not after end. */
  predicate ReachesMaxDate(start: DateTime, end: DateTime)
    requires ValidDateTime(end)
  {
    DayBase(start, MaxDate) + start.hour * 3600 <= Seconds(end)
  }

  /**
   * The GFS branch of generate_download_script on a Unix system: the header, then for each
   * day from the start while the day at the start's time is not after end, the fetch lines
   * of each cycle hour that lies in [start, end]; that is, the fetch lines of GfsSlots.
   * Stepping on from 9999-12-31 raises OverflowError, so a run that reaches that day fails.
   * start is a Python datetime, so its year is at most 9999.
   */
  method GfsScript(outDir: string, start: DateTime, end: DateTime) returns (r: Result<string, string>)
    requires ValidDateTime(start) && ValidDateTime(end) && start.date.year <= 9999
    ensures r.Err? <==> ReachesMaxDate(start, end)
    ensures r.Err? ==> r.error == OverflowError
    ensures r.Ok? ==> r.value == GfsHeader(outDir) + SlotsText(GfsSlots(start, end))
  {
    var content := GfsHeader(outDir);
    ghost var total := content + VisitText(start, end, start.date, false);
    var current := start;
    while Seconds(current) <= Seconds(end)
      invariant ValidDateTime(current) && current.hour == start.hour
      invariant current.minute == start.minute && current.second == start.second
      invariant current.date.year <= 9999
      invariant content + VisitText(start, end, current.date, false) == total
      decreases Days(end.date) - Days(current.date)
    {
      var dateStr := DateStamp(current.date);
      var lines := DayLines(dateStr, DayBase(start, current.date), Seconds(start), Seconds(end));
      ghost var before := content;
      content := content + lines;
      if current.date == MaxDate {
        AtMaxDate(start, end, current);
        return Err(OverflowError);
      }
      NextDayBeforeMax(current.date);
      VisitStep(start, end, current, before, lines, total);
      current := DateTime(NextDay(current.date), current.hour, current.minute, current.second);
    }
    StopsBeforeMaxDate(start, end, current);
    VisitDone(start, end, current);
    VisitTextOfSlots(start, end, start.date, false);
    r := Ok(content);
  }

  /** A day the loop enters writes its lines ahead of the text of the days after it. */
  lemma VisitDay(start: DateTime, end: DateTime, current: DateTime)
    requires ValidDateTime(start) && ValidDateTime(end) && ValidDateTime(current)
    requires current.hour == start.hour && current.minute == start.minute && current.second == start.second
    requires Seconds(current) <= Seconds(end)
    ensures ValidDate(NextDay(current.date)) && Days(NextDay(current.date)) == Days(current.date) + 1
    ensures VisitText(start, end, current.date, false)
         == DayText(DateStamp(current.date), DayBase(start, current.date), Seconds(start), Seconds(end), 4)
            + VisitText(start, end, NextDay(current.date), false)
  {
    NextDayNumber(current.date);
  }

  /** The loop's text keeps its total once a day's lines are written and the day moves on. */
  lemma VisitStep(start: DateTime, end: DateTime, current: DateTime, before: string, lines: string, total: string)
    requires ValidDateTime(start) && ValidDateTime(end) && ValidDateTime(current)
    requires current.hour == start.hour && current.minute == start.minute && current.second == start.second
    requires Seconds(current) <= Seconds(end)
    requires lines == DayText(DateStamp(current.date), DayBase(start, current.date), Seconds(start), Seconds(end), 4)
    requires before + VisitText(start, end, current.date, false) == total
    ensures ValidDate(NextDay(current.date)) && Days(NextDay(current.date)) == Days(current.date) + 1
    ensures Days(current.date) <= Days(end.date)
    ensures (before + lines) + VisitText(start, end, NextDay(current.date), false) == total
  {
    VisitDay(start, end, current);
    var rest := VisitText(start, end, NextDay(current.date), false);
    assert (before + lines) + rest == before + (lines + rest);
  }

  /** A day past the end writes nothing more. */
  lemma VisitDone(start: DateTime, end: DateTime, current: DateTime)
    requires ValidDateTime(start) && ValidDateTime(end) && ValidDateTime(current)
    requires current.hour == start.hour && current.minute == start.minute && current.second == start.second
    requires Seconds(current) > Seconds(end)
    ensures VisitText(start, end, current.date, false) == ""
  {
  }

  /** A run that ends before 9999-12-31 never steps past it. */
  lemma NoOverflowBeforeLastDay(start: DateTime, end: DateTime)
    requires ValidDateTime(start) && ValidDateTime(end)
    requires end.date.year <= 9999 && end.date != MaxDate
    ensures !ReachesMaxDate(start, end)
  {
    DaysUpToMax(end.date);
  }

  /** The loop visiting 9999-12-31 means it reaches that day. */
  lemma AtMaxDate(start: DateTime, end: DateTime, current: DateTime)
    requires ValidDateTime(end) && current.date == MaxDate
    requires current.hour == start.hour && current.minute == start.minute && current.second == start.second
    requires Seconds(current) <= Seconds(end)
    ensures ReachesMaxDate(start, end)
  {
  }

  /** The loop stopping at a day of a year up to 9999 means it never reaches 9999-12-31. */
  lemma StopsBeforeMaxDate(start: DateTime, end: DateTime, current: DateTime)
    requires ValidDateTime(end) && ValidDateTime(current) && current.date.year <= 9999
    requires current.hour == start.hour && current.minute == start.minute && current.second == start.second
    requires Seconds(current) > Seconds(end)
    ensures !ReachesMaxDate(start, end)
  {
    DaysUpToMax(current.date);
  }

  /** One more cycle hour adds its fetch lines exactly when its time lies in [lo, hi]. */
  lemma CyclesStep(d: Date, base: int, lo: int, hi: int, n: nat)
    requires ValidDate(d) && n < 4
    ensures Printable(Cycles(d, base, lo, hi, n)) && Printable(Cycles(d, base, lo, hi, n + 1))
    ensures SlotsText(Cycles(d, base, lo, hi, n + 1))
         == SlotsText(Cycles(d, base, lo, hi, n)) + (if lo <= base + 6 * n * 3600 <= hi then SlotText(Slot(d, 6 * n)) else "")
  {
    CyclesPrintable(d, base, lo, hi, n);
    CyclesPrintable(d, base, lo, hi, n + 1);
    var prev := Cycles(d, base, lo, hi, n);
    if lo <= base + 6 * n * 3600 <= hi {
      assert Cycles(d, base, lo, hi, n + 1) == prev + [Slot(d, 6 * n)];
      SlotsTextPush(prev, Slot(d, 6 * n));
    } else {
      assert Cycles(d, base, lo, hi, n + 1) == prev;
    }
  }

  /** A day's text is the fetch lines of its slots. */
  lemma {:induction false} DayTextOfSlots(d: Date, base: int, lo: int, hi: int, n: nat)
    requires ValidDate(d) && n <= 4
    ensures Printable(Cycles(d, base, lo, hi, n))
    ensures DayText(DateStamp(d), base, lo, hi, n) == SlotsText(Cycles(d, base, lo, hi, n))
  {
    CyclesPrintable(d, base, lo, hi, n);
    if n > 0 {
      DayTextOfSlots(d, base, lo, hi, n - 1);
      CyclesStep(d, base, lo, hi, n - 1);
    }
  }

  /** The loop's text is the fetch lines of its slots. */
  lemma {:induction false} VisitTextOfSlots(start: DateTime, end: DateTime, d: Date, byDate: bool)
    requires ValidDateTime(start) && ValidDateTime(end) && ValidDate(d)
    ensures Printable(Visit(start, end, d, byDate))
    ensures VisitText(start, end, d, byDate) == SlotsText(Visit(start, end, d, byDate))
    decreases Days(end.date) - Days(d)
  {
    VisitShape(start, end, d, byDate);
    var goOn := if byDate then Days(d) <= Days(end.date)
                else DayBase(start, d) + start.hour * 3600 <= Seconds(end);
    if goOn {
      NextDayNumber(d);
      var today := DaySlots(start, end, d);
      var rest := Visit(start, end, NextDay(d), byDate);
      DayTextOfSlots(d, DayBase(start, d), Seconds(start), Seconds(end), 4);
      VisitTextOfSlots(start, end, NextDay(d), byDate);
      SlotsTextAppend(today, rest);
      assert Visit(start, end, d, byDate) == today + rest;
    }
  }

  lemma PrintableAppend(a: seq<Slot>, b: seq<Slot>)
    requires Printable(a) && Printable(b)
    ensures Printable(a + b)
  {
    forall i | 0 <= i < |a + b|
      ensures ValidDate((a + b)[i].day) && 0 <= (a + b)[i].hour < 100
    {
      if i >= |a| {
        assert (a + b)[i] == b[i - |a|];
      }
    }
  }

  /** The text of two runs of slots is the text of the first followed by that of the second. */
  lemma {:induction false} SlotsTextAppend(a: seq<Slot>, b: seq<Slot>)
    requires Printable(a) && Printable(b)
    ensures Printable(a + b) && SlotsText(a + b) == SlotsText(a) + SlotsText(b)
  {
    PrintableAppend(a, b);
    if b == [] {
      assert a + b == a;
    } else {
      var b' := b[..|b| - 1];
      assert Printable(b');
      assert b == b' + [b[|b| - 1]];
      SlotsTextAppend(a, b');
      SlotsTextAppendStep(a, b', b[|b| - 1]);
    }
  }

  /** One more slot at the end of the second run keeps the text of the two runs joined. */
  lemma SlotsTextAppendStep(a: seq<Slot>, b: seq<Slot>, last: Slot)
    requires Printable(a) && Printable(b) && ValidDate(last.day) && 0 <= last.hour < 100
    requires Printable(a + b) && SlotsText(a + b) == SlotsText(a) + SlotsText(b)
    ensures Printable(a + (b + [last])) && SlotsText(a + (b + [last])) == SlotsText(a) + SlotsText(b + [last])
  {
    assert a + (b + [last]) == (a + b) + [last];
    SlotsTextPush(a + b, last);
    SlotsTextPush(b, last);
    JoinAssociates(SlotsText(a), SlotsText(b), SlotText(last));
  }

  lemma JoinAssociates(x: string, y: string, z: string)
    ensures (x + y) + z == x + (y + z)
  {
  }

  lemma SlotsTextPush(a: seq<Slot>, s: Slot)
    requires Printable(a) && ValidDate(s.day) && 0 <= s.hour < 100
    ensures Printable(a + [s]) && SlotsText(a + [s]) == SlotsText(a) + SlotText(s)
  {
    assert (a + [s])[..|a|] == a;
  }

  // ----- output directory -----

  /** Python's `str.isspace` characters. */
  predicate IsPySpace(c: char)
  {
    ('\t' <= c <= '\r') || ('\U{001C}' <= c <= ' ') || c == '\U{0085}' || c == '\U{00A0}' || c == '\U{1680}'
    || ('\U{2000}' <= c <= '\U{200A}') || c == '\U{2028}' || c == '\U{2029}' || c == '\U{202F}'
    || c == '\U{205F}' || c == '\U{3000}'
  }

  /** `s.strip() == ""` */
  predicate Blank(s: string)
  {
    forall j :: 0 <= j < |s| ==> IsPySpace(s[j])
  }

  /** `os.path.isabs` on POSIX. */
  predicate IsAbs(s: string)
  {
    |s| > 0 && s[0] == '/'
  }

  /** Python truthiness. */
  predicate PyTruthy(v: PyValue)
  {
    match v
    case PyNone => false
    case PyBool(b) => b
    case PyInt(i) => i != 0
    case PyFloat(d) => d.mant != 0
    case PyStr(s) => s != ""
    case PyList(xs) => xs != []
    case PyDict(m) => m != map[]
  }

  /**
   * The output_dir the generator keeps, given `config.get("output_dir")`: a missing, falsy
   * or blank value becomes the default directory, a relative path its absolute form (the
   * `absolute` argument, what `os.path.abspath` returns for it), and a truthy value that is
   * not a str raises AttributeError at `.strip()`.
   */
  function OutputDir(v: PyValue, defaultDir: string, absolute: string): (r: Result<string, string>)
    ensures r.Err? <==> PyTruthy(v) && !v.PyStr?
    ensures r.Err? ==> r.error == AttributeError
  {
    if !PyTruthy(v) then Ok(defaultDir)
    else if !v.PyStr? then Err(AttributeError)
    else if Blank(v.s) then Ok(defaultDir)
    else if !IsAbs(v.s) then Ok(absolute)
    else Ok(v.s)
  }

  /** `config.get("output_dir")` */
  function GivenOutputDir(config: Dict): PyValue
  {
    if "output_dir" in config then config["output_dir"] else PyNone
  }

  /** The generator and the configuration it owns. */
  class WrfGenerator {
    var config: Dict

    /**
     * The output_dir step of __init__: the configuration's output_dir becomes the directory
     * OutputDir settles on. When OutputDir raises, __init__ raises with it and no generator
     * exists, so a caller must give a configuration OutputDir accepts.
     */
    constructor (config: Dict, defaultDir: string, absolute: string)
      requires OutputDir(GivenOutputDir(config), defaultDir, absolute).Ok?
      ensures this.config == config["output_dir" := PyStr(OutputDir(GivenOutputDir(config), defaultDir, absolute).value)]
    {
      var dir := OutputDir(GivenOutputDir(config), defaultDir, absolute).value;
      this.config := config["output_dir" := PyStr(dir)];
    }

    /** The output directory the generator writes into. */
    function OutputDirectory(): (r: PyValue)
      reads this
    {
      if "output_dir" in config then config["output_dir"] else PyNone
    }
  }

  // ----- properties: projection -----

  /** A top-level projection is used even when the domain holds one too. */
  lemma TopLevelProjectionWins(config: Dict)
    requires "projection" in config
    ensures MapProjName(config) == ProjName(config["projection"])
  {
  }

  /** Without a top-level projection, the domain's is used. */
  lemma DomainProjectionUsed(config: Dict, domain: Dict)
    requires "projection" !in config && "domain" in config && config["domain"] == PyDict(domain)
    requires "projection" in domain
    ensures MapProjName(config) == ProjName(domain["projection"])
  {
  }

  /** With no projection anywhere the map is Lambert. */
  lemma AbsentProjectionIsLambert(config: Dict)
    requires "projection" !in config
    requires "domain" in config ==> config["domain"].PyDict? && "projection" !in config["domain"].entries
    ensures MapProjName(config) == Ok("lambert")
  {
  }

  /** A domain that is None or a number cannot be searched: TypeError. */
  lemma ScalarDomainRaises(config: Dict)
    requires "projection" !in config && "domain" in config
    requires config["domain"].PyNone? || config["domain"].PyBool? || config["domain"].PyInt? || config["domain"].PyFloat?
    ensures MapProjName(config) == Err(TypeError)
  {
  }

  /** The code table, with codes compared as dictionary keys: 2.0 is 2 and True is 1. */
  lemma ProjectionTable()
    ensures ProjName(PyInt(1)) == Ok("lambert") && ProjName(PyInt(2)) == Ok("polar")
    ensures ProjName(PyInt(3)) == Ok("mercator") && ProjName(PyInt(6)) == Ok("lat-lon")
    ensures ProjName(PyInt(4)) == Ok("lambert") && ProjName(PyStr("2")) == Ok("lambert")
    ensures ProjName(PyBool(true)) == Ok("lambert") && ProjName(PyFloat(FromInt(2))) == Ok("polar")
  {
  }

  // ----- properties: run length -----

  /** The whole hours of a run: truncated toward zero, so never further from zero than the run itself. */
  lemma HoursTruncate(total: int)
    ensures var h := TruncDiv(total, 3600);
            (total >= 0 ==> 0 <= total - h * 3600 < 3600) && (total < 0 ==> -3600 < total - h * 3600 <= 0)
  {
  }

  /** run_days and run_hours split the whole hours into days and hours of a day. */
  lemma RunLengthSplits(total: int)
    ensures RunLength(total).0 * 24 + RunLength(total).1 == TruncDiv(total, 3600)
    ensures 0 <= RunLength(total).1 < 24
  {
  }

  /** For a run that does not end before it starts, both generators agree on days and hours. */
  lemma {:induction false} AgreesWithBackend(total: int)
    requires total >= 0
    ensures RunLength(total) == BackendApp.RunLength(total)
  {
    var q, r := total / 86400, total % 86400;
    assert total == 86400 * q + r && 0 <= r < 86400;
    var u := r / 3600;
    assert total == 3600 * (24 * q + u) + r % 3600;
    assert total / 3600 == 24 * q + u;
    assert 0 <= u < 24;
  }

  /** Half an hour before the start: the generator writes 0 days 0 hours, the backend -1 days 23 hours. */
  lemma NegativeRunDiffers()
    ensures RunLength(-1800) == (0, 0)
    ensures BackendApp.RunLength(-1800) == (-1, 23)
  {
  }

  // ----- properties: per-domain lists -----

  lemma NoCommaOfDigits(s: string)
    requires AllDigits(s)
    ensures NoComma(s)
  {
  }

  lemma NoCommaOfInt(i: int)
    ensures NoComma(IntToString(i))
  {
    if i < 0 {
      NoCommaOfDigits(NatToDigits(-i));
      assert IntToString(i) == "-" + NatToDigits(-i);
    } else {
      NoCommaOfDigits(NatToDigits(i));
    }
  }

  lemma {:induction false} FindSepAbsent(a: string)
    requires NoComma(a)
    ensures FindSep(a) == None
  {
    if |a| >= 2 {
      FindSepAbsent(a[1..]);
    }
  }

  lemma {:induction false} FindSepAfter(a: string, b: string)
    requires NoComma(a)
    ensures FindSep(a + ", " + b) == Some(|a|)
  {
    if a != [] {
      assert (a + ", " + b)[1..] == a[1..] + ", " + b;
      FindSepAfter(a[1..], b);
    }
  }

  /** A list line reads back as its items when none of them holds a comma. */
  lemma {:induction false} ReadJoin(items: seq<string>)
    requires |items| >= 1
    requires forall i :: 0 <= i < |items| ==> NoComma(items[i])
    ensures ReadList(JoinList(items)) == items
  {
    if |items| == 1 {
      FindSepAbsent(items[0]);
    } else {
      var s := items[0] + ", " + JoinList(items[1..]);
      FindSepAfter(items[0], JoinList(items[1..]));
      assert s[..|items[0]|] == items[0];
      assert s[|items[0]| + 2..] == JoinList(items[1..]);
      ReadJoin(items[1..]);
    }
  }

  /** With nests a per-domain value is written exactly max_dom times, otherwise once. */
  lemma PerDomainRepeats(t: string, maxDom: int)
    requires NoComma(t)
    ensures ReadList(PerDomain(t, maxDom)) == Copies(t, if maxDom > 1 then maxDom else 1)
  {
    if maxDom > 1 {
      ReadJoin(Copies(t, maxDom));
    } else {
      FindSepAbsent(t);
    }
  }

  /** A number in the per-domain date lists of namelist.input repeats max_dom times. */
  lemma InputDateListRepeats(n: int, maxDom: int)
    requires maxDom > 1
    ensures ReadList(PerDomain(IntToString(n), maxDom)) == Copies(IntToString(n), maxDom)
  {
    NoCommaOfInt(n);
    PerDomainRepeats(IntToString(n), maxDom);
  }

  /** Every domain's parent is the domain before it, the outermost being its own parent, and the ids count from 1. */
  lemma NestIds(maxDom: int)
    requires maxDom > 1
    ensures |ParentIds(maxDom)| == maxDom && |GridIds(maxDom)| == maxDom
    ensures ParentIds(maxDom)[0] == "1" && GridIds(maxDom)[0] == "1"
    ensures forall i :: 1 <= i < maxDom ==> ParentIds(maxDom)[i] == GridIds(maxDom)[i - 1]
    ensures forall i :: 0 <= i < maxDom ==> GridIds(maxDom)[i] == IntToString(i + 1)
  {
    assert IntToString(1) == "1";
  }

  /** The parent_id and grid_id lines read back as those lists. */
  lemma NestIdLines(maxDom: int)
    requires maxDom > 1
    ensures ReadList(JoinList(ParentIds(maxDom))) == ParentIds(maxDom)
    ensures ReadList(JoinList(GridIds(maxDom))) == GridIds(maxDom)
  {
    forall i | 0 <= i < |ParentIds(maxDom)|
      ensures NoComma(ParentIds(maxDom)[i])
    {
      if i == 0 {
        NoCommaOfInt(1);
        assert IntToString(1) == "1";
      } else {
        NoCommaOfInt(i);
      }
    }
    forall i | 0 <= i < |GridIds(maxDom)|
      ensures NoComma(GridIds(maxDom)[i])
    {
      NoCommaOfInt(i + 1);
    }
    ReadJoin(ParentIds(maxDom));
    ReadJoin(GridIds(maxDom));
  }

  /** Gravity-wave drag is on for the outermost domain and off for every nest. */
  lemma GwdOptOuterOnly(maxDom: int)
    requires maxDom > 1
    ensures |GwdOpt(maxDom)| == maxDom && GwdOpt(maxDom)[0] == "1"
    ensures forall i :: 1 <= i < maxDom ==> GwdOpt(maxDom)[i] == "0"
  {
  }

  predicate AllInts(xs: seq<PyValue>)
  {
    forall i :: 0 <= i < |xs| ==> xs[i].PyInt?
  }

  /** A slice of integers is written as their decimal texts, in order. */
  lemma {:induction false} StrItemsOfInts(xs: seq<PyValue>, n: nat)
    requires AllInts(xs)
    ensures StrItems(xs, n).Ok?
    ensures forall i :: 0 <= i < |StrItems(xs, n).value| ==> StrItems(xs, n).value[i] == IntToString(xs[i].i)
  {
    if xs != [] && n != 0 {
      assert AllInts(xs[1..]) by {
        forall i | 0 <= i < |xs| - 1
          ensures xs[1..][i] == xs[i + 1]
        {
        }
      }
      StrItemsOfInts(xs[1..], n - 1);
    }
  }

  /** dx of an integer kilometre value is the metre value. */
  lemma MetresOfInt(k: int)
    ensures MetresText(PyInt(k)) == Ok(IntToString(k * 1000))
  {
  }

  /** dx given as text is the text repeated a thousand times, and a missing one raises TypeError. */
  lemma MetresOfOthers(s: string)
    ensures MetresText(PyStr(s)) == Ok(Repeat(s, 1000))
    ensures MetresText(PyNone) == Err(TypeError)
  {
  }

  // ----- properties: dates -----

  /** A date already in WRF form comes back unchanged. */
  lemma NormalizedKeepsWrfText(t: DateTime)
    requires ValidDateTime(t) && 1000 <= t.date.year <= 9999
    ensures NormalizedDate(Helpers.DateToWrfString(t)) == Ok(Helpers.DateToWrfString(t))
  {
    PyDatetime.StrptimeRoundTrip(t);
  }

  lemma WrfTextNoComma(t: DateTime)
    requires ValidDateTime(t) && 1000 <= t.date.year <= 9999
    ensures NoComma("'" + Helpers.DateToWrfString(t) + "'")
  {
    var g := PyDatetime.WrfGroups(t);
    PyDatetime.WrfTextInterleaved(t);
    PyDatetime.WrfGroupsFit(t);
    PyDatetime.InterleaveSix(g[0], g[1], g[2], g[3], g[4], g[5]);
    assert g == [g[0], g[1], g[2], g[3], g[4], g[5]];
    forall i | 0 <= i < 6
      ensures NoComma(g[i])
    {
      NoCommaOfDigits(g[i]);
    }
  }

  /** The start_date list of namelist.wps holds the quoted date once per domain. */
  lemma WpsDatesRepeat(t: DateTime, maxDom: int)
    requires ValidDateTime(t) && 1000 <= t.date.year <= 9999
    ensures WpsDateList(Helpers.DateToWrfString(t), maxDom).Ok?
    ensures ReadList(WpsDateList(Helpers.DateToWrfString(t), maxDom).value)
         == Copies("'" + Helpers.DateToWrfString(t) + "'", if maxDom > 1 then maxDom else 1)
  {
    NormalizedKeepsWrfText(t);
    WrfTextNoComma(t);
    PerDomainRepeats("'" + Helpers.DateToWrfString(t) + "'", maxDom);
  }

  // ----- properties: GFS slots -----

  /** The cycles of one day: its cycle hours below 6n whose time lies in [lo, hi], in increasing hour. */
  lemma {:induction false} CyclesShape(d: Date, base: int, lo: int, hi: int, n: nat)
    requires n <= 4
    ensures CyclesOf(Cycles(d, base, lo, hi, n), d, base, lo, hi, 6 * n)
    ensures HoursAscending(Cycles(d, base, lo, hi, n))
  {
    if n > 0 {
      CyclesShape(d, base, lo, hi, n - 1);
      assert 6 * (n - 1) in CycleHours by {
        assert n == 1 || n == 2 || n == 3 || n == 4;
      }
    }
  }

  lemma CyclesPrintable(d: Date, base: int, lo: int, hi: int, n: nat)
    requires ValidDate(d) && n <= 4
    ensures Printable(Cycles(d, base, lo, hi, n))
  {
    CyclesShape(d, base, lo, hi, n);
  }

  /** Every cycle hour below 6n whose time lies in [lo, hi] is among them. */
  lemma {:induction false} CyclesComplete(d: Date, base: int, lo: int, hi: int, n: nat, h: int)
    requires n <= 4
    requires h in CycleHours && h < 6 * n && lo <= base + h * 3600 <= hi
    ensures Slot(d, h) in Cycles(d, base, lo, hi, n)
  {
    if h < 6 * (n - 1) {
      CyclesComplete(d, base, lo, hi, n - 1, h);
    }
  }

  /** Every slot lies on day d or later. */
  predicate FromDay(slots: seq<Slot>, d: Date)
    requires 1 <= d.month <= 12
  {
    forall i :: 0 <= i < |slots| ==> 1 <= slots[i].day.month <= 12 && Days(d) <= Days(slots[i].day)
  }

  /** A day's slots are sound and ascending, on that day. */
  lemma DaySlotsShape(start: DateTime, end: DateTime, d: Date)
    requires ValidDateTime(start) && ValidDateTime(end) && ValidDate(d)
    ensures Sound(start, end, DaySlots(start, end, d)) && Ascending(start, DaySlots(start, end, d))
    ensures forall i :: 0 <= i < |DaySlots(start, end, d)| ==> DaySlots(start, end, d)[i].day == d
  {
    CyclesShape(d, DayBase(start, d), Seconds(start), Seconds(end), 4);
  }

  /** The loop's slots are real cycles inside the window, on days from d on, in increasing time. */
  lemma {:induction false} VisitShape(start: DateTime, end: DateTime, d: Date, byDate: bool)
    requires ValidDateTime(start) && ValidDateTime(end) && ValidDate(d)
    ensures Sound(start, end, Visit(start, end, d, byDate))
    ensures Ascending(start, Visit(start, end, d, byDate))
    ensures FromDay(Visit(start, end, d, byDate), d)
    decreases Days(end.date) - Days(d)
  {
    var goOn := if byDate then Days(d) <= Days(end.date)
                else DayBase(start, d) + start.hour * 3600 <= Seconds(end);
    if goOn {
      NextDayNumber(d);
      var c := DaySlots(start, end, d);
      var rest := Visit(start, end, NextDay(d), byDate);
      DaySlotsShape(start, end, d);
      VisitShape(start, end, NextDay(d), byDate);
      assert Visit(start, end, d, byDate) == c + rest;
      ConcatShape(start, end, d, c, rest);
    }
  }

  /** A day's slots followed by slots of later days stay sound and ascending. */
  lemma ConcatShape(start: DateTime, end: DateTime, d: Date, c: seq<Slot>, rest: seq<Slot>)
    requires ValidDateTime(start) && ValidDateTime(end) && ValidDate(d)
    requires Sound(start, end, c) && Ascending(start, c) && forall i :: 0 <= i < |c| ==> c[i].day == d
    requires Sound(start, end, rest) && Ascending(start, rest) && FromDay(rest, NextDay(d))
    requires Days(NextDay(d)) == Days(d) + 1
    ensures Sound(start, end, c + rest) && Ascending(start, c + rest) && FromDay(c + rest, d)
  {
    forall i, j | 0 <= i < j < |c + rest|
      ensures 1 <= (c + rest)[i].day.month <= 12 && 1 <= (c + rest)[j].day.month <= 12
      ensures SlotTime(start, (c + rest)[i]) < SlotTime(start, (c + rest)[j])
    {
      if j >= |c| && i < |c| {
        assert (c + rest)[j] == rest[j - |c|];
        assert c[i].hour in CycleHours;
      }
    }
  }

  /** The day k days after d. */
  function NthDay(d: Date, k: nat): (r: Date)
    requires ValidDate(d)
    ensures ValidDate(r)
    decreases k
  {
    if k == 0 then d else NthDay(NextDay(d), k - 1)
  }

  /** A slot of day d inside the window is fetched in the intended loop's round for d. */
  lemma DayComplete(start: DateTime, end: DateTime, d: Date, h: int)
    requires ValidDateTime(start) && ValidDateTime(end) && ValidDate(d)
    requires Days(d) <= Days(end.date)
    requires h in CycleHours && InWindow(start, end, Slot(d, h))
    ensures Slot(d, h) in Visit(start, end, d, true)
  {
    CyclesComplete(d, DayBase(start, d), Seconds(start), Seconds(end), 4, h);
    assert Slot(d, h) in DaySlots(start, end, d);
  }

  /** What the intended loop fetches from the next day on, it fetches from day d on. */
  lemma LaterComplete(start: DateTime, end: DateTime, d: Date, s: Slot)
    requires ValidDateTime(start) && ValidDateTime(end) && ValidDate(d)
    requires Days(d) <= Days(end.date)
    requires s in Visit(start, end, NextDay(d), true)
    ensures s in Visit(start, end, d, true)
  {
    NextDayNumber(d);
  }

  /** The intended loop from day d fetches every cycle of day e, k days on, that lies in the window. */
  lemma {:induction false} VisitComplete(start: DateTime, end: DateTime, d: Date, k: nat, e: Date, h: int)
    requires ValidDateTime(start) && ValidDateTime(end) && ValidDate(d)
    requires e == NthDay(d, k) && Days(d) + k <= Days(end.date)
    ensures h in CycleHours && InWindow(start, end, Slot(e, h)) ==> Slot(e, h) in Visit(start, end, d, true)
    decreases k
  {
    if h in CycleHours && InWindow(start, end, Slot(e, h)) {
      if k == 0 {
        DayComplete(start, end, d, h);
      } else {
        NextDayNumber(d);
        VisitComplete(start, end, NextDay(d), k - 1, e, h);
        LaterComplete(start, end, d, Slot(e, h));
      }
    }
  }

  /** The intended loop fetches every cycle of every day from start's to end's that lies in [start, end]. */
  lemma IntendedGfsComplete(start: DateTime, end: DateTime, k: nat, h: int)
    requires ValidDateTime(start) && ValidDateTime(end)
    requires Days(start.date) + k <= Days(end.date)
    requires h in CycleHours && InWindow(start, end, Slot(NthDay(start.date, k), h))
    ensures Slot(NthDay(start.date, k), h) in IntendedGfsSlots(start, end)
  {
    VisitComplete(start, end, start.date, k, NthDay(start.date, k), h);
  }

  lemma {:induction false} VisitPrefix(start: DateTime, end: DateTime, d: Date)
    requires ValidDateTime(start) && ValidDateTime(end) && ValidDate(d)
    ensures Visit(start, end, d, false) <= Visit(start, end, d, true)
    decreases Days(end.date) - Days(d)
  {
    if DayBase(start, d) + start.hour * 3600 <= Seconds(end) {
      NextDayNumber(d);
      VisitPrefix(start, end, NextDay(d));
    }
  }

  /** The script as written fetches a leading part of what it is meant to fetch. */
  lemma GfsSlotsPrefix(start: DateTime, end: DateTime)
    requires ValidDateTime(start) && ValidDateTime(end)
    ensures GfsSlots(start, end) <= IntendedGfsSlots(start, end)
  {
    VisitPrefix(start, end, start.date);
  }

  function TimeOfDay(t: DateTime): int
  {
    t.hour * 3600 + t.minute * 60 + t.second
  }

  lemma {:induction false} VisitAgree(start: DateTime, end: DateTime, d: Date)
    requires ValidDateTime(start) && ValidDateTime(end) && ValidDate(d)
    requires TimeOfDay(start) <= TimeOfDay(end)
    ensures Visit(start, end, d, false) == Visit(start, end, d, true)
    decreases Days(end.date) - Days(d)
  {
    if Days(d) <= Days(end.date) {
      NextDayNumber(d);
      VisitAgree(start, end, NextDay(d));
    }
  }

  /** When the run ends at a time of day no earlier than it starts, the loop misses nothing. */
  lemma GfsSlotsCompleteWhenEndLater(start: DateTime, end: DateTime)
    requires ValidDateTime(start) && ValidDateTime(end)
    requires TimeOfDay(start) <= TimeOfDay(end)
    ensures GfsSlots(start, end) == IntendedGfsSlots(start, end)
  {
    VisitAgree(start, end, start.date);
  }

  /**
   * A run from 2024-01-01 12:00 to 2024-01-02 06:00: the loop stops before the second day,
   * whose 00 UTC cycle lies inside the run, because that day at 12:00 is after the end.
   */
  lemma GfsMissesLastMorning()
    ensures var start := DateTime(Date(2024, 1, 1), 12, 0, 0);
            var end := DateTime(Date(2024, 1, 2), 6, 0, 0);
            var s := Slot(Date(2024, 1, 2), 0);
            ValidDateTime(start) && ValidDateTime(end) && InWindow(start, end, s)
            && s !in GfsSlots(start, end) && s in IntendedGfsSlots(start, end)
  {
    var d1, d2 := Date(2024, 1, 1), Date(2024, 1, 2);
    var start := DateTime(d1, 12, 0, 0);
    var end := DateTime(d2, 6, 0, 0);
    assert NextDay(d1) == d2;
    NextDayNumber(d1);
    assert Visit(start, end, d2, false) == [];
    assert GfsSlots(start, end) == DaySlots(start, end, d1);
    DaySlotsShape(start, end, d1);
    assert NthDay(d1, 1) == d2;
    VisitComplete(start, end, d1, 1, d2, 0);
  }

  // ----- properties: output directory -----

  /** A missing, empty or blank output_dir becomes the default. */
  lemma BlankOutputDirDefaults(s: string, defaultDir: string, absolute: string)
    requires Blank(s)
    ensures OutputDir(PyStr(s), defaultDir, absolute) == Ok(defaultDir)
    ensures OutputDir(PyNone, defaultDir, absolute) == Ok(defaultDir)
  {
  }

  /** An absolute output_dir is kept as it is; a relative one is replaced by its absolute form. */
  lemma OutputDirPaths(s: string, defaultDir: string, absolute: string)
    requires !Blank(s)
    ensures IsAbs(s) ==> OutputDir(PyStr(s), defaultDir, absolute) == Ok(s)
    ensures !IsAbs(s) ==> OutputDir(PyStr(s), defaultDir, absolute) == Ok(absolute)
  {
  }

  /** With an absolute default and absolute form, the directory settled on is absolute and settles on itself. */
  lemma OutputDirSettles(v: PyValue, defaultDir: string, absolute: string)
    requires IsAbs(defaultDir) && IsAbs(absolute)
    requires OutputDir(v, defaultDir, absolute).Ok?
    ensures var r := OutputDir(v, defaultDir, absolute).value;
            IsAbs(r) && OutputDir(PyStr(r), defaultDir, absolute) == Ok(r)
  {
    var r := OutputDir(v, defaultDir, absolute).value;
    assert !IsPySpace(r[0]);
  }
}
