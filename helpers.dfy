/**
 * The React wizard's date and validation helpers: splitting a WRF date string
 * "YYYY-MM-DD_HH:MM:SS" into its numbers, printing a date in that form, reading it
 * back as a JavaScript Date, the whole hours between two such dates, and the
 * configuration check that reports every problem it finds.
 */
module Helpers {
  import opened Wrappers
  import opened Decimals
  import opened JsValue
  import opened Calendar

  // ----- date strings -----

  /**
   * Element i of a destructured array as parseInt sees it: past the array's end the element
   * is undefined, which parseInt first turns into the string "undefined".
   */
  function Part(parts: seq<string>, i: nat): string
  {
    if i < |parts| then parts[i] else ToJsString(Undef)
  }

  /** The six numbers formatDateString returns; each is an integer or NaN. */
  datatype Components = Components(year: Value, month: Value, day: Value, hour: Value, minute: Value, second: Value)

  /**
   * Splits at '_', the date part at '-' and the time part at ':', and reads every piece
   * with parseInt. Without a '_' the time part is undefined and splitting it throws.
   */
  function FormatDateString(s: string): (r: Result<Components, string>)
    ensures r.Err? <==> Find(s, '_').None?
    ensures r.Err? ==> r.error == TypeError
  {
    var halves := Split(s, '_');
    if |halves| == 1 then Err(TypeError)
    else
      var date := ParseFirst(Split(halves[0], '-'), 3);
      var time := ParseFirst(Split(halves[1], ':'), 3);
      Ok(Components(date[0], date[1], date[2], time[0], time[1], time[2]))
  }

  /** The first n elements destructured from `parts`, each read with parseInt. */
  function ParseFirst(parts: seq<string>, n: nat): (r: seq<Value>)
    ensures |r| == n
  {
    if n == 0 then [] else ParseFirst(parts, n - 1) + [ParseInt(Part(parts, n - 1))]
  }

  /** The first three pieces are read one by one. */
  lemma ParseFirstThree(parts: seq<string>)
    ensures ParseFirst(parts, 3) == [ParseInt(Part(parts, 0)), ParseInt(Part(parts, 1)), ParseInt(Part(parts, 2))]
  {
    assert ParseFirst(parts, 1) == [ParseInt(Part(parts, 0))];
    assert ParseFirst(parts, 2) == [ParseInt(Part(parts, 0)), ParseInt(Part(parts, 1))];
  }

  /** `String(n).padStart(2, '0')` for a non-negative n. */
  function Pad2(n: nat): (s: string)
    ensures AllDigits(s) && DigitsValue(s) == n
  {
    PadLeftValue(NatToDigits(n), 2);
    DigitsRoundTrip(n);
    PadLeft(NatToDigits(n), 2)
  }

  /** `${getFullYear()}-${pad(getMonth() + 1)}-${pad(getDate())}` */
  function DatePart(t: DateTime): string
    requires ValidDateTime(t)
  {
    IntToString(t.date.year) + "-" + Pad2(t.date.month) + "-" + Pad2(t.date.day)
  }

  /** `${pad(getHours())}:${pad(getMinutes())}:${pad(getSeconds())}` */
  function TimePart(t: DateTime): string
    requires ValidDateTime(t)
  {
    Pad2(t.hour) + ":" + Pad2(t.minute) + ":" + Pad2(t.second)
  }

  /** dateToWrfString: the date and time a JavaScript Date's getters return, in WRF form. */
  function DateToWrfString(t: DateTime): string
    requires ValidDateTime(t)
  {
    DatePart(t) + "_" + TimePart(t)
  }

  /** Every number below 100 is printed with exactly two digits. */
  lemma Pad2Width(n: nat)
    requires n < 100
    ensures |Pad2(n)| == 2
  {
    if n >= 10 {
      assert NatToDigits(n) == NatToDigits(n / 10) + [DigitChar(n % 10)];
    }
  }

  /** Splitting at the first separator. */
  lemma SplitFirst(a: string, c: char, b: string)
    requires forall j :: 0 <= j < |a| ==> a[j] != c
    ensures Split(a + [c] + b, c) == [a] + Split(b, c)
  {
    var s := a + [c] + b;
    FindAfter(a, c, b);
    assert s[..|a|] == a;
    assert s[|a| + 1..] == b;
  }

  /** A digit string holds no separator that is not a digit. */
  lemma Avoids(a: string, sep: char)
    requires AllDigits(a) && !IsDigit(sep)
    ensures forall j :: 0 <= j < |a| ==> a[j] != sep
  {
  }

  /** Digit groups joined by sep hold no other non-digit x. */
  lemma JoinedAvoids(a: string, b: string, c: string, sep: char, x: char)
    requires AllDigits(a) && AllDigits(b) && AllDigits(c) && !IsDigit(x) && sep != x
    ensures forall j :: 0 <= j < |a + [sep] + b + [sep] + c| ==> (a + [sep] + b + [sep] + c)[j] != x
  {
    Avoids(a, x);
    Avoids(b, x);
    Avoids(c, x);
  }

  /** Three digit groups joined by a separator that is not a digit split back into the groups. */
  lemma SplitThree(a: string, b: string, c: string, sep: char)
    requires AllDigits(a) && AllDigits(b) && AllDigits(c) && !IsDigit(sep)
    ensures Split(a + [sep] + b + [sep] + c, sep) == [a, b, c]
  {
    assert a + [sep] + b + [sep] + c == a + [sep] + (b + [sep] + c);
    Avoids(a, sep);
    Avoids(b, sep);
    Avoids(c, sep);
    SplitFirst(a, sep, b + [sep] + c);
    SplitFirst(b, sep, c);
    FindAbsent(c, sep);
  }

  /** formatDateString on a date part and a time part joined by the only '_' reads each part's pieces. */
  lemma FormatOfHalves(date: string, time: string)
    requires forall j :: 0 <= j < |date| ==> date[j] != '_'
    requires forall j :: 0 <= j < |time| ==> time[j] != '_'
    ensures var d, t := ParseFirst(Split(date, '-'), 3), ParseFirst(Split(time, ':'), 3);
      FormatDateString(date + "_" + time) == Ok(Components(d[0], d[1], d[2], t[0], t[1], t[2]))
  {
    SplitFirst(date, '_', time);
    FindAbsent(time, '_');
  }

  /** formatDateString on digit groups in WRF layout reads each group with parseInt. */
  lemma FormatOfDigitGroups(y: string, mo: string, d: string, h: string, mi: string, se: string)
    requires AllDigits(y) && AllDigits(mo) && AllDigits(d)
    requires AllDigits(h) && AllDigits(mi) && AllDigits(se)
    ensures FormatDateString((y + "-" + mo + "-" + d) + "_" + (h + ":" + mi + ":" + se)) ==
      Ok(Components(ParseInt(y), ParseInt(mo), ParseInt(d), ParseInt(h), ParseInt(mi), ParseInt(se)))
  {
    SplitThree(y, mo, d, '-');
    SplitThree(h, mi, se, ':');
    JoinedAvoids(y, mo, d, '-', '_');
    JoinedAvoids(h, mi, se, ':', '_');
    FormatOfHalves(y + "-" + mo + "-" + d, h + ":" + mi + ":" + se);
    ParseFirstThree([y, mo, d]);
    ParseFirstThree([h, mi, se]);
  }

  /** parseInt reads back the digits of n, padded or not. */
  lemma ReadPadded(n: nat)
    ensures ParseInt(Pad2(n)) == Int(n)
    ensures ParseInt(NatToDigits(n)) == Int(n)
  {
    ParseIntOfDigits(Pad2(n));
    ParseIntOfDigits(NatToDigits(n));
    DigitsRoundTrip(n);
  }

  /** formatDateString reads back every field that dateToWrfString prints. */
  lemma FormatOfWrfString(t: DateTime)
    requires ValidDateTime(t) && t.date.year >= 0
    ensures FormatDateString(DateToWrfString(t)) ==
      Ok(Components(Int(t.date.year), Int(t.date.month), Int(t.date.day), Int(t.hour), Int(t.minute), Int(t.second)))
  {
    assert IntToString(t.date.year) == NatToDigits(t.date.year);
    FormatOfDigitGroups(NatToDigits(t.date.year), Pad2(t.date.month), Pad2(t.date.day),
                        Pad2(t.hour), Pad2(t.minute), Pad2(t.second));
    ReadPadded(t.date.year);
    ReadPadded(t.date.month);
    ReadPadded(t.date.day);
    ReadPadded(t.hour);
    ReadPadded(t.minute);
    ReadPadded(t.second);
  }

  // ----- JavaScript Date values -----

  /** The integer a parseInt result holds, or None for NaN. */
  function Whole(v: Value): Option<int>
  {
    if v.Num? && IsIntegral(v.n) then Some(v.n.mant) else None
  }

  /** 1970-01-01 in seconds since 0001-01-01. */
  const UnixEpoch := 719162 * 86400

  /** A Date holds at most 8.64e15 milliseconds either side of 1970-01-01. */
  const MaxTime := 8_640_000_000_000

  /**
   * The time value of `new Date(y, m, d, h, mi, s)` in seconds since 0001-01-01, or None for
   * an invalid Date: years 0-99 mean 1900-1999, a month outside 0-11 carries into the year,
   * and days, hours, minutes and seconds past their range carry into the next unit.
   */
  function MakeTime(y: int, m: int, d: int, h: int, mi: int, s: int): Option<int>
  {
    var year := if 0 <= y <= 99 then 1900 + y else y;
    var t := (DayNumber(year + m / 12, m % 12 + 1, 1) + d - 1) * 86400 + h * 3600 + mi * 60 + s;
    if Abs(t - UnixEpoch) > MaxTime then None else Some(t)
  }

  /** The Date built from formatDateString's numbers, the month shifted to count from 0. */
  function DateOf(c: Components): Option<int>
  {
    var y, m, d := Whole(c.year), Whole(c.month), Whole(c.day);
    var h, mi, s := Whole(c.hour), Whole(c.minute), Whole(c.second);
    if y.Some? && m.Some? && d.Some? && h.Some? && mi.Some? && s.Some? then
      MakeTime(y.value, m.value - 1, d.value, h.value, mi.value, s.value)
    else None
  }

  /** wrfStringToDate: the time value of the Date it builds, or the TypeError its split throws. */
  function WrfStringToDate(s: string): (r: Result<Option<int>, string>)
    ensures r.Err? <==> Find(s, '_').None?
    ensures r.Err? ==> r.error == TypeError
  {
    match FormatDateString(s)
    case Err(e) => Err(e)
    case Ok(c) => Ok(DateOf(c))
  }

  lemma DaysInRange(t: DateTime)
    requires ValidDateTime(t) && 100 <= t.date.year <= 9999
    ensures 0 <= Seconds(t) <= 4_000_000 * 86400
  {
    var y := t.date.year;
    assert 0 <= DaysBeforeYear(y) <= 3_700_000;
  }

  lemma WholeInt(n: int)
    ensures Whole(Int(n)) == Some(n)
  {
  }

  /** `new Date(y, m - 1, d, h, mi, s)` for a valid date and time is that instant, for years 100-9999. */
  lemma MakeTimeOfDateTime(t: DateTime)
    requires ValidDateTime(t) && 100 <= t.date.year <= 9999
    ensures MakeTime(t.date.year, t.date.month - 1, t.date.day, t.hour, t.minute, t.second) == Some(Seconds(t))
  {
    DaysInRange(t);
    var m := t.date.month - 1;
    assert m / 12 == 0 && m % 12 == m;
  }

  lemma DateOfComponents(t: DateTime)
    requires ValidDateTime(t) && 100 <= t.date.year <= 9999
    ensures DateOf(Components(Int(t.date.year), Int(t.date.month), Int(t.date.day), Int(t.hour), Int(t.minute), Int(t.second)))
      == Some(Seconds(t))
  {
    WholeInt(t.date.year);
    WholeInt(t.date.month);
    WholeInt(t.date.day);
    WholeInt(t.hour);
    WholeInt(t.minute);
    WholeInt(t.second);
    MakeTimeOfDateTime(t);
  }

  /** Reading back a printed date gives the same instant, for years 100-9999. */
  lemma DateOfWrfString(t: DateTime)
    requires ValidDateTime(t) && 100 <= t.date.year <= 9999
    ensures WrfStringToDate(DateToWrfString(t)) == Ok(Some(Seconds(t)))
  {
    FormatOfWrfString(t);
    DateOfComponents(t);
  }

  /** Years 0-99 are read as 1900-1999. */
  lemma TwoDigitYears(y: int, m: int, d: int, h: int, mi: int, s: int)
    requires 0 <= y <= 99
    ensures MakeTime(y, m, d, h, mi, s) == MakeTime(y + 1900, m, d, h, mi, s)
  {
  }

  /**
   * `Math.floor((end - start) / 3600000)` on two Dates: their difference in whole hours,
   * rounded down, NaN when either is invalid. A throw while building the first Date
   * comes first.
   */
  function HoursBetween(start: Result<Option<int>, string>, end: Result<Option<int>, string>): Result<Value, string>
  {
    if start.Err? then Err(start.error)
    else if end.Err? then Err(end.error)
    else if start.value.Some? && end.value.Some? then Ok(Int((end.value.value - start.value.value) / 3600))
    else Ok(NaN)
  }

  /** calculateHoursBetweenDates */
  function CalculateHoursBetweenDates(startDate: string, endDate: string): Result<Value, string>
  {
    HoursBetween(WrfStringToDate(startDate), WrfStringToDate(endDate))
  }

  lemma FloorUnique(x: int, h: int)
    requires h * 3600 <= x < (h + 1) * 3600
    ensures x / 3600 == h
  {
  }

  /**
   * Between the instants x and y lie h hours exactly when h is the floor of their distance
   * in hours; DateOfWrfString says which instant a printed date is read as.
   */
  lemma HoursBetweenIsFloor(x: int, y: int, h: int)
    ensures HoursBetween(Ok(Some(x)), Ok(Some(y))) == Ok(Int(h)) <==> h * 3600 <= y - x < (h + 1) * 3600
  {
    if h * 3600 <= y - x < (h + 1) * 3600 {
      FloorUnique(y - x, h);
    }
  }

  /** An invalid Date on either side gives NaN, not an exception. */
  lemma HoursBetweenInvalid(start: Option<int>, end: Option<int>)
    requires start.None? || end.None?
    ensures HoursBetween(Ok(start), Ok(end)) == Ok(NaN)
  {
  }

  // ----- validateConfig -----

  /** The checks validateConfig makes, each reporting under its own key of `errors`. */
  datatype Check = StartDate | EndDate | DateRange | Domain | EWe | ESn | Dx | Dy | MaxDom | OutputDir

  const AllChecks: set<Check> := {StartDate, EndDate, DateRange, Domain, EWe, ESn, Dx, Dy, MaxDom, OutputDir}

  /** The key a check reports under. */
  function Key(c: Check): string
  {
    match c
    case StartDate => "start_date"
    case EndDate => "end_date"
    case DateRange => "date_range"
    case Domain => "domain"
    case EWe => "e_we"
    case ESn => "e_sn"
    case Dx => "dx"
    case Dy => "dy"
    case MaxDom => "max_dom"
    case OutputDir => "output_dir"
  }

  /** The message a failing check records. */
  function Message(c: Check): string
  {
    match c
    case StartDate => "开始日期不能为空"
    case EndDate => "结束日期不能为空"
    case DateRange => "结束日期必须晚于开始日期"
    case Domain => "缺少domain配置"
    case EWe => "e_we必须大于等于3"
    case ESn => "e_sn必须大于等于3"
    case Dx => "dx必须大于0"
    case Dy => "dy必须大于0"
    case MaxDom => "max_dom必须在1-10之间"
    case OutputDir => "输出目录不能为空"
  }

  /** `{isValid, errors}`, the errors keyed by check (see Key). */
  datatype Validation = Validation(isValid: bool, errors: map<Check, string>)

  /** wrfStringToDate on a configuration value: only strings can be split. */
  function ReadDate(v: Value): (r: Result<Option<int>, string>)
    ensures r.Err? <==> !v.Str? || Find(v.s, '_').None?
    ensures r.Err? ==> r.error == TypeError
  {
    if v.Str? then WrfStringToDate(v.s) else Err(TypeError)
  }

  /** The configuration properties validateConfig reads (the domain's own only when the domain is present). */
  datatype Fields = Fields(startDate: Value, endDate: Value, domain: Value, eWe: Value, eSn: Value,
                           dx: Value, dy: Value, maxDom: Value, outputDir: Value)

  function FieldsOf(config: Value): Fields
  {
    var domain := Prop(config, "domain");
    Fields(Prop(config, "start_date"), Prop(config, "end_date"), domain, Prop(domain, "e_we"),
           Prop(domain, "e_sn"), Prop(domain, "dx"), Prop(domain, "dy"), Prop(domain, "max_dom"),
           Prop(config, "output_dir"))
  }

  /** The two Dates the date-range check builds (it builds them only when both dates are present). */
  datatype DateReads = DateReads(start: Result<Option<int>, string>, end: Result<Option<int>, string>)

  function ReadDates(f: Fields): DateReads
  {
    DateReads(ReadDate(f.startDate), ReadDate(f.endDate))
  }

  /** Both dates are present. */
  predicate BothDates(f: Fields)
  {
    Truthy(f.startDate) && Truthy(f.endDate)
  }

  /** Building one of the two Dates throws. */
  predicate Throws(dr: DateReads)
  {
    dr.start.Err? || dr.end.Err?
  }

  /** `start >= end` on two Dates: false when either is invalid. */
  predicate NotBefore(start: Option<int>, end: Option<int>)
  {
    start.Some? && end.Some? && start.value >= end.value
  }

  /** `!v || v < 3` */
  predicate TooFewPoints(v: Value)
  {
    !Truthy(v) || LessThan(v, 3)
  }

  /** `!v || v <= 0` */
  predicate NotPositive(v: Value)
  {
    !Truthy(v) || AtMost(v, 0)
  }

  /** `v < 1 || v > 10` */
  predicate OutsideOneToTen(v: Value)
  {
    LessThan(v, 1) || GreaterThan(v, 10)
  }

  /**
   * The date-range check fails: both dates are present and build Dates, and the end is not
   * after the start.
   */
  predicate OutOfOrder(f: Fields)
  {
    var dr := ReadDates(f);
    BothDates(f) && !Throws(dr) && NotBefore(dr.start.value, dr.end.value)
  }

  /** The checks in the order validateConfig runs them. */
  const CheckOrder: seq<Check> := [StartDate, EndDate, DateRange, Domain, EWe, ESn, Dx, Dy, MaxDom, OutputDir]

  /** Where a check stands in CheckOrder. */
  function Position(c: Check): (i: nat)
    ensures i < |CheckOrder| && CheckOrder[i] == c
  {
    match c
    case StartDate => 0
    case EndDate => 1
    case DateRange => 2
    case Domain => 3
    case EWe => 4
    case ESn => 5
    case Dx => 6
    case Dy => 7
    case MaxDom => 8
    case OutputDir => 9
  }

  /**
   * Whether each check fails, in CheckOrder, given whether the dates are out of order: the
   * dates must be present, the domain present with at least 3 grid points each way,
   * positive spacings and a max_dom not outside 1-10 (checked only when the domain is
   * present), and an output directory given.
   */
  function Failures(f: Fields, outOfOrder: bool): (flags: seq<bool>)
    ensures |flags| == |CheckOrder|
  {
    [!Truthy(f.startDate), !Truthy(f.endDate), outOfOrder, !Truthy(f.domain),
     Truthy(f.domain) && TooFewPoints(f.eWe), Truthy(f.domain) && TooFewPoints(f.eSn),
     Truthy(f.domain) && NotPositive(f.dx), Truthy(f.domain) && NotPositive(f.dy),
     Truthy(f.domain) && OutsideOneToTen(f.maxDom), !Truthy(f.outputDir)]
  }

  /** The error object after the first n checks: each failing one adds its message. */
  function ErrorsUpTo(flags: seq<bool>, n: nat): map<Check, string>
    requires n <= |flags| == |CheckOrder|
  {
    if n == 0 then map[]
    else
      var errors := ErrorsUpTo(flags, n - 1);
      var c := CheckOrder[n - 1];
      if flags[n - 1] then errors[c := Message(c)] else errors
  }

  /** Every failing check's message. */
  function Errors(config: Value): map<Check, string>
  {
    var f := FieldsOf(config);
    ErrorsUpTo(Failures(f, OutOfOrder(f)), |CheckOrder|)
  }

  /** After n checks, a check has an error exactly when it is among them and fails, and its error is its message. */
  lemma {:induction false} ErrorsUpToReports(flags: seq<bool>, n: nat, c: Check)
    requires n <= |flags| == |CheckOrder|
    ensures c in ErrorsUpTo(flags, n) <==> Position(c) < n && flags[Position(c)]
    ensures c in ErrorsUpTo(flags, n) ==> ErrorsUpTo(flags, n)[c] == Message(c)
  {
    if n > 0 {
      ErrorsUpToReports(flags, n - 1, c);
      if CheckOrder[n - 1] == c {
        assert Position(c) == n - 1 by {
          CheckOrderDistinct(Position(c), n - 1);
        }
      }
    }
  }

  /** No check appears twice in CheckOrder. */
  lemma CheckOrderDistinct(i: nat, j: nat)
    requires i < |CheckOrder| && j < |CheckOrder| && CheckOrder[i] == CheckOrder[j]
    ensures i == j
  {
  }

  /** The error object holds the message of every failing check and nothing else. */
  lemma ErrorsReportFailures(flags: seq<bool>, c: Check)
    requires |flags| == |CheckOrder|
    ensures c in ErrorsUpTo(flags, |CheckOrder|) <==> flags[Position(c)]
    ensures c in ErrorsUpTo(flags, |CheckOrder|) ==> ErrorsUpTo(flags, |CheckOrder|)[c] == Message(c)
  {
    ErrorsUpToReports(flags, |CheckOrder|, c);
  }

  /** The first checks of validateConfig: both dates present. */
  method CheckDatesPresent(f: Fields, ghost outOfOrder: bool) returns (errors: map<Check, string>)
    ensures errors == ErrorsUpTo(Failures(f, outOfOrder), 2)
  {
    ghost var flags := Failures(f, outOfOrder);
    errors := map[];
    if !Truthy(f.startDate) {
      errors := errors[StartDate := Message(StartDate)];
    }
    assert errors == ErrorsUpTo(flags, 1);
    if !Truthy(f.endDate) {
      errors := errors[EndDate := Message(EndDate)];
    }
  }

  /** When both dates are present, builds a Date from each and compares them with `>=`. */
  method CompareDates(f: Fields) returns (r: Result<bool, string>)
    ensures r.Err? <==> BothDates(f) && Throws(ReadDates(f))
    ensures r.Err? ==> r.error == TypeError
    ensures r.Ok? ==> r.value == OutOfOrder(f)
  {
    if Truthy(f.startDate) && Truthy(f.endDate) {
      var start := ReadDate(f.startDate);
      if start.Err? {
        return Err(start.error);
      }
      var end := ReadDate(f.endDate);
      if end.Err? {
        return Err(end.error);
      }
      return Ok(NotBefore(start.value, end.value));
    }
    return Ok(false);
  }

  /** The date-range check of validateConfig: a throw while building the Dates ends validation. */
  method CheckDateOrder(f: Fields, ghost flags: seq<bool>, errors: map<Check, string>) returns (r: Result<map<Check, string>, string>)
    requires |flags| == |CheckOrder| && flags[2] == OutOfOrder(f)
    requires errors == ErrorsUpTo(flags, 2)
    ensures r.Err? <==> BothDates(f) && Throws(ReadDates(f))
    ensures r.Err? ==> r.error == TypeError
    ensures r.Ok? ==> r.value == ErrorsUpTo(flags, 3)
  {
    var outOfOrder := CompareDates(f);
    if outOfOrder.Err? {
      return Err(outOfOrder.error);
    }
    var after := errors;
    if outOfOrder.value {
      after := after[DateRange := Message(DateRange)];
    }
    assert CheckOrder[2] == DateRange;
    r := Ok(after);
  }

  /** The domain checks of validateConfig: the domain present and, when it is, its fields in range. */
  method CheckDomain(f: Fields, ghost outOfOrder: bool, errors: map<Check, string>) returns (after: map<Check, string>)
    requires errors == ErrorsUpTo(Failures(f, outOfOrder), 3)
    ensures after == ErrorsUpTo(Failures(f, outOfOrder), 9)
  {
    ghost var flags := Failures(f, outOfOrder);
    after := errors;
    if !Truthy(f.domain) {
      after := after[Domain := Message(Domain)];
      assert after == ErrorsUpTo(flags, 4);
      assert after == ErrorsUpTo(flags, 5);
      assert after == ErrorsUpTo(flags, 6);
      assert after == ErrorsUpTo(flags, 7);
      assert after == ErrorsUpTo(flags, 8);
    } else {
      assert after == ErrorsUpTo(flags, 4);
      if TooFewPoints(f.eWe) {
        after := after[EWe := Message(EWe)];
      }
      assert after == ErrorsUpTo(flags, 5);
      if TooFewPoints(f.eSn) {
        after := after[ESn := Message(ESn)];
      }
      assert after == ErrorsUpTo(flags, 6);
      if NotPositive(f.dx) {
        after := after[Dx := Message(Dx)];
      }
      assert after == ErrorsUpTo(flags, 7);
      if NotPositive(f.dy) {
        after := after[Dy := Message(Dy)];
      }
      assert after == ErrorsUpTo(flags, 8);
      if OutsideOneToTen(f.maxDom) {
        after := after[MaxDom := Message(MaxDom)];
      }
    }
  }

  /** The last check of validateConfig: an output directory given. */
  method CheckOutputDir(f: Fields, ghost outOfOrder: bool, errors: map<Check, string>) returns (after: map<Check, string>)
    requires errors == ErrorsUpTo(Failures(f, outOfOrder), 9)
    ensures after == ErrorsUpTo(Failures(f, outOfOrder), 10)
  {
    after := errors;
    if !Truthy(f.outputDir) {
      after := after[OutputDir := Message(OutputDir)];
    }
    assert CheckOrder[9] == OutputDir;
  }

  /**
   * validateConfig: runs every check in turn, recording each failure in `errors`; the
   * configuration is valid when nothing was recorded. Reading a property of a null or
   * undefined configuration, or splitting a date that is not a string with a '_', throws.
   */
  method ValidateConfig(config: Value) returns (r: Result<Validation, string>)
    ensures Nullish(config) || (BothDates(FieldsOf(config)) && Throws(ReadDates(FieldsOf(config)))) ==> r == Err(TypeError)
    ensures !Nullish(config) && !(BothDates(FieldsOf(config)) && Throws(ReadDates(FieldsOf(config)))) ==>
      r == Ok(Validation(Errors(config) == map[], Errors(config)))
  {
    if Nullish(config) {
      return Err(TypeError);
    }
    var f := FieldsOf(config);
    ghost var flags := Failures(f, OutOfOrder(f));
    var errors := CheckDatesPresent(f, OutOfOrder(f));
    var dated := CheckDateOrder(f, flags, errors);
    if dated.Err? {
      return Err(dated.error);
    }
    errors := CheckDomain(f, OutOfOrder(f), dated.value);
    errors := CheckOutputDir(f, OutOfOrder(f), errors);
    r := Ok(Validation(|errors| == 0, errors));
  }

  // ----- what the checks accept -----

  /** A printed date is present and read as the instant it prints (for years 100-9999). */
  lemma ReadOfPrintedDate(v: Value, t: DateTime)
    requires ValidDateTime(t) && 100 <= t.date.year <= 9999
    requires v == Str(DateToWrfString(t))
    ensures Truthy(v)
    ensures ReadDate(v) == Ok(Some(Seconds(t)))
  {
    DateOfWrfString(t);
  }

  /** Two present dates read as instants x and y are out of order exactly when x is not before y. */
  lemma DateOrderReportedAsRange(f: Fields, x: int, y: int)
    requires BothDates(f)
    requires ReadDates(f) == DateReads(Ok(Some(x)), Ok(Some(y)))
    ensures OutOfOrder(f) <==> x >= y
  {
  }

  /** A date that builds an invalid Date is never reported out of order: the comparison is false. */
  lemma InvalidDateInOrder(f: Fields)
    requires ReadDates(f).start == Ok(None) || ReadDates(f).end == Ok(None)
    ensures !OutOfOrder(f)
  {
  }

  /**
   * Dates out of order are reported under date_range alone: end_date and start_date are
   * reported exactly when that date is missing, whatever the order.
   */
  lemma OrderReportedOnlyAsRange(f: Fields, outOfOrder: bool)
    ensures DateRange in ErrorsUpTo(Failures(f, outOfOrder), |CheckOrder|) <==> outOfOrder
    ensures EndDate in ErrorsUpTo(Failures(f, outOfOrder), |CheckOrder|) <==> !Truthy(f.endDate)
    ensures StartDate in ErrorsUpTo(Failures(f, outOfOrder), |CheckOrder|) <==> !Truthy(f.startDate)
  {
    var flags := Failures(f, outOfOrder);
    ErrorsReportFailures(flags, DateRange);
    ErrorsReportFailures(flags, EndDate);
    ErrorsReportFailures(flags, StartDate);
  }

  /** Each domain field is reported exactly when the domain is present and that field is out of range. */
  lemma DomainFieldsReported(f: Fields, outOfOrder: bool)
    ensures EWe in ErrorsUpTo(Failures(f, outOfOrder), |CheckOrder|) <==> Truthy(f.domain) && TooFewPoints(f.eWe)
    ensures ESn in ErrorsUpTo(Failures(f, outOfOrder), |CheckOrder|) <==> Truthy(f.domain) && TooFewPoints(f.eSn)
    ensures Dx in ErrorsUpTo(Failures(f, outOfOrder), |CheckOrder|) <==> Truthy(f.domain) && NotPositive(f.dx)
    ensures Dy in ErrorsUpTo(Failures(f, outOfOrder), |CheckOrder|) <==> Truthy(f.domain) && NotPositive(f.dy)
    ensures MaxDom in ErrorsUpTo(Failures(f, outOfOrder), |CheckOrder|) <==> Truthy(f.domain) && OutsideOneToTen(f.maxDom)
  {
    var flags := Failures(f, outOfOrder);
    ErrorsReportFailures(flags, EWe);
    ErrorsReportFailures(flags, ESn);
    ErrorsReportFailures(flags, Dx);
    ErrorsReportFailures(flags, Dy);
    ErrorsReportFailures(flags, MaxDom);
  }

  /** A grid dimension of n points is reported exactly when n is below 3; 3 is accepted. */
  lemma GridPointsAtLeastThree(v: Value, n: int)
    requires v == Int(n)
    ensures TooFewPoints(v) <==> n < 3
  {
  }

  /** A grid spacing of n is reported exactly when n is not positive. */
  lemma SpacingPositive(v: Value, n: int)
    requires v == Int(n)
    ensures NotPositive(v) <==> n <= 0
  {
  }

  /** A max_dom of n is reported exactly when n lies outside 1-10, and a missing one never is. */
  lemma MaxDomRange(v: Value, n: int)
    ensures v == Int(n) ==> (OutsideOneToTen(v) <==> n < 1 || n > 10)
    ensures v == Undef ==> !OutsideOneToTen(v)
  {
  }

  /** Without a domain only `domain` is reported among the domain checks. */
  lemma MissingDomainReportsOnlyDomain(f: Fields, outOfOrder: bool)
    requires !Truthy(f.domain)
    ensures ErrorsUpTo(Failures(f, outOfOrder), |CheckOrder|).Keys * {Domain, EWe, ESn, Dx, Dy, MaxDom} == {Domain}
  {
    var flags := Failures(f, outOfOrder);
    forall c | c in {Domain, EWe, ESn, Dx, Dy, MaxDom}
      ensures c in ErrorsUpTo(flags, |CheckOrder|) <==> c == Domain
    {
      ErrorsReportFailures(flags, c);
    }
  }

  /** Each check reports under a key of its own. */
  lemma KeysDistinct(c: Check, d: Check)
    requires c != d
    ensures Key(c) != Key(d)
  {
  }
}
