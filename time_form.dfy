/**
 * The simulation-time form of the React wizard (react_version/src/components/TimeForm.js):
 * start and end in WRF form, checked against `YYYY-MM-DD_HH:MM:SS` and for order, and
 * handed to the page on a valid submit.
 */
module TimeForm {
  import opened Wrappers
  import opened Decimals
  import opened JsValue
  import opened Calendar
  import opened Helpers

  const FormatMessage := "请使用正确的格式：YYYY-MM-DD_HH:MM:SS"
  const OrderMessage := "结束日期必须晚于开始日期"

  /** `/^\d{4}-\d{2}-\d{2}_\d{2}:\d{2}:\d{2}$/.test(s)`: digit groups of 4, 2, 2, 2, 2 and 2 with fixed separators. */
  predicate Matches(s: string)
  {
    |s| == 19
    && AllDigits(s[..4]) && s[4] == '-' && AllDigits(s[5..7]) && s[7] == '-' && AllDigits(s[8..10])
    && s[10] == '_'
    && AllDigits(s[11..13]) && s[13] == ':' && AllDigits(s[14..16]) && s[16] == ':' && AllDigits(s[17..])
  }

  /** A regular expression's `test` converts its argument to a string first. */
  predicate Passes(v: Value)
  {
    Matches(ToJsString(v))
  }

  /** The date and time the digit groups of a matching string spell. */
  function Fields(s: string): DateTime
    requires Matches(s)
  {
    DateTime(Date(DigitsValue(s[..4]), DigitsValue(s[5..7]), DigitsValue(s[8..10])),
             DigitsValue(s[11..13]), DigitsValue(s[14..16]), DigitsValue(s[17..]))
  }

  /**
   * The fields ECMAScript's date-time string format accepts: a real calendar date and a
   * time of day, where 24:00:00 also stands for the midnight that ends the day. A day past
   * the month's end (2024-02-30) is refused, as SpiderMonkey does; V8 instead rolls it into
   * the next month.
   */
  predicate IsoFields(t: DateTime)
  {
    ValidDateTime(t) || (ValidDate(t.date) && t.hour == 24 && t.minute == 0 && t.second == 0)
  }

  /**
   * `new Date(s.replace("_", "T"))` for a matching s, in seconds: the ISO date-time form,
   * read as an instant when its fields are accepted and as an invalid Date (None) otherwise.
   */
  function IsoTime(s: string): (r: Option<int>)
    requires Matches(s)
    ensures r.Some? <==> IsoFields(Fields(s))
  {
    var t := Fields(s);
    if IsoFields(t) then Some(Seconds(t)) else None
  }

  /** `endDate <= startDate` on two Dates: false when either is invalid. */
  predicate EndNotAfter(start: string, end: string)
    requires Matches(start) && Matches(end)
  {
    var s, e := IsoTime(start), IsoTime(end);
    s.Some? && e.Some? && e.value <= s.value
  }

  /**
   * The error map validateForm builds for the two field values, or the TypeError that
   * `.replace` throws when a value whose string form matches is not itself a string.
   */
  function FormErrors(start: Value, end: Value): (r: Result<Object, string>)
    ensures r.Err? <==> Passes(start) && Passes(end) && !(start.Str? && end.Str?)
    ensures r.Err? ==> r.error == TypeError
    ensures r.Ok? ==> r.value.Keys <= {"start_date", "end_date"}
    ensures r.Ok? ==> ("start_date" in r.value <==> !Passes(start))
    ensures r.Ok? && "start_date" in r.value ==> r.value["start_date"] == Str(FormatMessage)
    ensures r.Ok? && !Passes(end) ==> "end_date" in r.value && r.value["end_date"] == Str(FormatMessage)
    ensures r.Ok? && Passes(end) && !Passes(start) ==> "end_date" !in r.value
    ensures r.Ok? && Passes(start) && Passes(end) ==>
              r.value == if EndNotAfter(start.s, end.s) then map["end_date" := Str(OrderMessage)] else map[]
  {
    var e1: Object := if Passes(start) then map[] else map["start_date" := Str(FormatMessage)];
    var e2 := if Passes(end) then e1 else e1["end_date" := Str(FormatMessage)];
    if |e2| != 0 then Ok(e2)
    else if !start.Str? || !end.Str? then Err(TypeError)
    else if EndNotAfter(start.s, end.s) then Ok(map["end_date" := Str(OrderMessage)])
    else Ok(map[])
  }

  /** The values the form starts with when the page passes none. */
  const DefaultValues: Object :=
    map["start_date" := Str("2024-06-01_00:00:00"), "end_date" := Str("2024-06-02_00:00:00"), "data_source" := Str("ERA5")]

  /** The form's state: its values, its per-field errors, and the submit flag. */
  class Form {
    var values: Object
    var errors: Object
    var isSubmitting: bool
    /** The "timeConfig" entry of the browser's storage, as the object that was saved. */
    var timeConfig: Option<Object>

    constructor (defaultValues: Object, saved: Option<Object>)
      ensures values == defaultValues && errors == map[] && !isSubmitting && timeConfig == saved
    {
      values := defaultValues;
      errors := map[];
      isSubmitting := false;
      timeConfig := saved;
    }

    /** handleChange: the named field takes the value and a set error on it is cleared to null. */
    method HandleChange(name: string, value: Value)
      modifies this
      ensures values == old(values)[name := value]
      ensures Truthy(Get(old(errors), name)) ==> errors == old(errors)[name := Null]
      ensures !Truthy(Get(old(errors), name)) ==> errors == old(errors)
      ensures isSubmitting == old(isSubmitting) && timeConfig == old(timeConfig)
    {
      MergeSingleton(values, name, value);
      values := Merge(values, map[name := value]);
      if Truthy(Get(errors, name)) {
        MergeSingleton(errors, name, Null);
        errors := Merge(errors, map[name := Null]);
      }
    }

    /**
     * validateForm: fills a fresh error map field by field, stores it as the errors and
     * answers whether it is empty; a throw leaves the state as it was.
     */
    method ValidateForm() returns (r: Result<bool, string>)
      modifies this
      ensures var f := FormErrors(Get(values, "start_date"), Get(values, "end_date"));
        (f.Err? ==> r == Err(f.error) && errors == old(errors))
        && (f.Ok? ==> r == Ok(f.value == map[]) && errors == f.value)
      ensures values == old(values) && isSubmitting == old(isSubmitting) && timeConfig == old(timeConfig)
    {
      var start, end := Get(values, "start_date"), Get(values, "end_date");
      var newErrors: Object := map[];
      if !Matches(ToJsString(start)) {
        newErrors := newErrors["start_date" := Str(FormatMessage)];
      }
      if !Matches(ToJsString(end)) {
        newErrors := newErrors["end_date" := Str(FormatMessage)];
      }
      if |newErrors| == 0 {
        if !start.Str? || !end.Str? {
          return Err(TypeError);
        }
        var startDate, endDate := IsoTime(start.s), IsoTime(end.s);
        if startDate.Some? && endDate.Some? && endDate.value <= startDate.value {
          newErrors := newErrors["end_date" := Str(OrderMessage)];
        }
      }
      errors := newErrors;
      r := Ok(|newErrors| == 0);
    }

    /**
     * handleSubmit with the submit delay taken as immediate: on a valid form the values go
     * to onSubmit (when the page gives one, returned here) and to storage under "timeConfig".
     */
    method HandleSubmit(hasOnSubmit: bool) returns (r: Result<Option<Object>, string>)
      modifies this
      ensures var f := FormErrors(Get(old(values), "start_date"), Get(old(values), "end_date"));
        (f.Err? ==> r == Err(f.error) && errors == old(errors))
        && (f.Ok? && f.value != map[] ==> r == Ok(None) && errors == f.value)
        && (f.Ok? && f.value == map[] ==>
              r == Ok(if hasOnSubmit then Some(old(values)) else None) && errors == map[])
      ensures var f := FormErrors(Get(old(values), "start_date"), Get(old(values), "end_date"));
        if f == Ok(map[]) then timeConfig == Some(old(values)) && !isSubmitting
        else timeConfig == old(timeConfig) && isSubmitting == old(isSubmitting)
      ensures values == old(values)
    {
      var valid := ValidateForm();
      if valid.Err? {
        return Err(valid.error);
      }
      if !valid.value {
        return Ok(None);
      }
      isSubmitting := true;
      r := Ok(if hasOnSubmit then Some(values) else None);
      timeConfig := Some(values);
      isSubmitting := false;
    }
  }

  // ----- properties -----

  lemma {:induction false} YearDigits(n: nat)
    requires 1000 <= n <= 9999
    ensures |NatToDigits(n)| == 4
  {
    assert NatToDigits(n) == NatToDigits(n / 10) + [DigitChar(n % 10)];
    assert NatToDigits(n / 10) == NatToDigits(n / 100) + [DigitChar(n / 10 % 10)];
    assert NatToDigits(n / 100) == NatToDigits(n / 1000) + [DigitChar(n / 100 % 10)];
  }

  /** Six digit groups of widths 4, 2, 2, 2, 2, 2 in WRF layout match, and spell their values. */
  lemma FieldsOfGroups(y: string, mo: string, d: string, h: string, mi: string, se: string)
    requires |y| == 4 && |mo| == 2 && |d| == 2 && |h| == 2 && |mi| == 2 && |se| == 2
    requires AllDigits(y) && AllDigits(mo) && AllDigits(d) && AllDigits(h) && AllDigits(mi) && AllDigits(se)
    ensures var s := (y + "-" + mo + "-" + d) + "_" + (h + ":" + mi + ":" + se);
      Matches(s)
      && Fields(s) == DateTime(Date(DigitsValue(y), DigitsValue(mo), DigitsValue(d)), DigitsValue(h), DigitsValue(mi), DigitsValue(se))
  {
    var s := (y + "-" + mo + "-" + d) + "_" + (h + ":" + mi + ":" + se);
    assert s[..4] == y;
    assert s[5..7] == mo;
    assert s[8..10] == d;
    assert s[11..13] == h;
    assert s[14..16] == mi;
    assert s[17..] == se;
  }

  /** A date printed by dateToWrfString with a four-digit year matches and reads back as that instant. */
  lemma IsoTimeOfWrfString(t: DateTime)
    requires ValidDateTime(t) && 1000 <= t.date.year <= 9999
    ensures Matches(DateToWrfString(t)) && IsoTime(DateToWrfString(t)) == Some(Seconds(t))
  {
    var y := t.date.year;
    YearDigits(y);
    DigitsRoundTrip(y);
    assert IntToString(y) == NatToDigits(y);
    Pad2Width(t.date.month);
    Pad2Width(t.date.day);
    Pad2Width(t.hour);
    Pad2Width(t.minute);
    Pad2Width(t.second);
    FieldsOfGroups(NatToDigits(y), Pad2(t.date.month), Pad2(t.date.day), Pad2(t.hour), Pad2(t.minute), Pad2(t.second));
  }

  /** Two matching strings: the only possible error is the order error on end_date. */
  lemma OrderOfMatching(start: string, end: string)
    requires Matches(start) && Matches(end)
    ensures FormErrors(Str(start), Str(end))
            == Ok(if EndNotAfter(start, end) then map["end_date" := Str(OrderMessage)] else map[])
  {
    assert Passes(Str(start)) && Passes(Str(end));
  }

  /** Two well-formed dates get an order error on end_date exactly when end is not after start. */
  lemma OrderOnInstants(t1: DateTime, t2: DateTime)
    requires ValidDateTime(t1) && 1000 <= t1.date.year <= 9999
    requires ValidDateTime(t2) && 1000 <= t2.date.year <= 9999
    ensures FormErrors(Str(DateToWrfString(t1)), Str(DateToWrfString(t2)))
            == Ok(if Seconds(t2) <= Seconds(t1) then map["end_date" := Str(OrderMessage)] else map[])
  {
    var s1, s2 := DateToWrfString(t1), DateToWrfString(t2);
    IsoTimeOfWrfString(t1);
    IsoTimeOfWrfString(t2);
    OrderOfMatching(s1, s2);
    assert EndNotAfter(s1, s2) <==> Seconds(t2) <= Seconds(t1);
  }

  /** A later instant than start, or a date that does not read as one, and no error: the pair passes. */
  lemma ValidPair(start: string, end: string, t1: DateTime, t2: DateTime)
    requires Matches(start) && Matches(end) && Fields(start) == t1 && Fields(end) == t2
    requires !IsoFields(t1) || !IsoFields(t2) || Seconds(t1) < Seconds(t2)
    ensures FormErrors(Str(start), Str(end)) == Ok(map[])
  {
    OrderOfMatching(start, end);
  }

  /** "24:00:00" on a day is the instant 00:00:00 of the next day. */
  lemma EndOfDayIsNextMidnight(d: Date)
    requires ValidDate(d)
    ensures IsoFields(DateTime(d, 24, 0, 0))
    ensures Seconds(DateTime(d, 24, 0, 0)) == Seconds(DateTime(NextDay(d), 0, 0, 0))
  {
    NextDayNumber(d);
  }

  /** Hour 24 with minutes or seconds is not a time of day the format accepts. */
  lemma PastEndOfDayInvalid(t: DateTime)
    requires t.hour == 24 && (t.minute != 0 || t.second != 0)
    ensures !IsoFields(t)
  {
  }

  lemma EndOfDayFields()
    ensures Matches("2024-06-01_24:00:00") && Fields("2024-06-01_24:00:00") == DateTime(Date(2024, 6, 1), 24, 0, 0)
  {
    var s := "2024-06-01_24:00:00";
    assert s[..4] == "2024";
    assert s[5..7] == "06";
    assert s[8..10] == "01";
    assert s[11..13] == "24";
    assert s[14..16] == "00";
    assert s[17..] == "00";
    DigitPairs();
    Year2024();
  }

  /**
   * An end at 24:00:00 of the day before the start's midnight is the same instant as the
   * start, so it gets the order error.
   */
  lemma EndOfDayOrdered()
    ensures FormErrors(Str("2024-06-02_00:00:00"), Str("2024-06-01_24:00:00")) == Ok(map["end_date" := Str(OrderMessage)])
  {
    DefaultEnd();
    EndOfDayFields();
    EndOfDayIsNextMidnight(Date(2024, 6, 1));
    assert NextDay(Date(2024, 6, 1)) == Date(2024, 6, 2);
    OrderOfMatching("2024-06-02_00:00:00", "2024-06-01_24:00:00");
  }

  lemma DigitPairs()
    ensures DigitsValue("00") == 0 && DigitsValue("01") == 1 && DigitsValue("02") == 2
    ensures DigitsValue("06") == 6 && DigitsValue("13") == 13 && DigitsValue("24") == 24
  {
  }

  lemma Year2024()
    ensures DigitsValue("2024") == 2024
  {
  }

  lemma DefaultStart()
    ensures Matches("2024-06-01_00:00:00") && Fields("2024-06-01_00:00:00") == DateTime(Date(2024, 6, 1), 0, 0, 0)
  {
    var s := "2024-06-01_00:00:00";
    assert s[..4] == "2024";
    assert s[5..7] == "06";
    assert s[8..10] == "01";
    assert s[11..13] == "00";
    assert s[14..16] == "00";
    assert s[17..] == "00";
    DigitPairs();
    Year2024();
  }

  lemma DefaultEnd()
    ensures Matches("2024-06-02_00:00:00") && Fields("2024-06-02_00:00:00") == DateTime(Date(2024, 6, 2), 0, 0, 0)
  {
    var s := "2024-06-02_00:00:00";
    assert s[..4] == "2024";
    assert s[5..7] == "06";
    assert s[8..10] == "02";
    assert s[11..13] == "00";
    assert s[14..16] == "00";
    assert s[17..] == "00";
    DigitPairs();
    Year2024();
  }

  lemma ImpossibleEnd()
    ensures Matches("2024-13-01_00:00:00") && Fields("2024-13-01_00:00:00") == DateTime(Date(2024, 13, 1), 0, 0, 0)
  {
    var s := "2024-13-01_00:00:00";
    assert s[..4] == "2024";
    assert s[5..7] == "13";
    assert s[8..10] == "01";
    assert s[11..13] == "00";
    assert s[14..16] == "00";
    assert s[17..] == "00";
    DigitPairs();
    Year2024();
  }

  lemma DefaultValueStrings()
    ensures Get(DefaultValues, "start_date") == Str("2024-06-01_00:00:00")
    ensures Get(DefaultValues, "end_date") == Str("2024-06-02_00:00:00")
  {
  }

  /** The form's own default values pass validation. */
  lemma DefaultValuesValid()
    ensures FormErrors(Get(DefaultValues, "start_date"), Get(DefaultValues, "end_date")) == Ok(map[])
  {
    DefaultValueStrings();
    DefaultStart();
    DefaultEnd();
    ValidPair("2024-06-01_00:00:00", "2024-06-02_00:00:00", DateTime(Date(2024, 6, 1), 0, 0, 0), DateTime(Date(2024, 6, 2), 0, 0, 0));
  }

  /** A well-formed end date that is not a calendar date is an invalid Date, so no order error is raised. */
  lemma ImpossibleEndAccepted()
    ensures FormErrors(Str("2024-06-01_00:00:00"), Str("2024-13-01_00:00:00")) == Ok(map[])
  {
    DefaultStart();
    ImpossibleEnd();
    ValidPair("2024-06-01_00:00:00", "2024-13-01_00:00:00", DateTime(Date(2024, 6, 1), 0, 0, 0), DateTime(Date(2024, 13, 1), 0, 0, 0));
  }
}
