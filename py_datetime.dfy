/**
 * Python's `datetime.strptime` and `strftime` with the format "%Y-%m-%d_%H:%M:%S" that both
 * namelist generators use, over the calendar of the Calendar module. strptime's pattern takes
 * exactly four digits for the year and one or two digits for every other field, and for the
 * day also a space followed by one digit from 1 to 9 (" 5"), so it is more lenient than the
 * two-digit layout the React forms check. Digits are the ASCII ones.
 */
module PyDatetime {
  import opened Wrappers
  import opened Decimals
  import opened Calendar
  import opened PyValue
  import Helpers

  /** The literal characters between the fields of the format. */
  const Separators: string := "--_::"

  /**
   * Splits s into non-empty digit groups with the given separators between them; nothing
   * may follow the last group.
   */
  function ReadGroups(s: string, seps: string): (r: Option<seq<string>>)
    ensures r.Some? ==> |r.value| == |seps| + 1
    decreases |seps|
  {
    var n := DigitRun(s);
    if n == 0 then None
    else if seps == [] then (if n == |s| then Some([s]) else None)
    else if n == |s| || s[n] != seps[0] then None
    else
      match ReadGroups(s[n + 1..], seps[1..])
      case None => None
      case Some(gs) => Some([s[..n]] + gs)
  }

  /** The text of groups with the separators between them: groups[0], seps[0], groups[1], ... */
  function Interleave(groups: seq<string>, seps: string): string
    requires |groups| == |seps| + 1
    decreases |seps|
  {
    if seps == [] then groups[0] else groups[0] + [seps[0]] + Interleave(groups[1..], seps[1..])
  }

  /** Groups of the widths the format allows: four digits for `%Y`, one or two for the others. */
  predicate FieldWidths(g: seq<string>)
  {
    |g| == 6 && |g[0]| == 4 && |g[1]| <= 2 && |g[2]| <= 2 && |g[3]| <= 2 && |g[4]| <= 2 && |g[5]| <= 2
  }

  /** The date and time six digit groups name. */
  function FromGroups(g: seq<string>): DateTime
    requires |g| == 6 && forall i :: 0 <= i < 6 ==> AllDigits(g[i])
  {
    DateTime(Date(DigitsValue(g[0]), DigitsValue(g[1]), DigitsValue(g[2])),
             DigitsValue(g[3]), DigitsValue(g[4]), DigitsValue(g[5]))
  }

  /**
   * The date and time six groups read from the text name, None where strptime raises
   * ValueError: the groups must have the allowed widths and name a real date and time
   * from year 1 on.
   */
  function Checked(g: seq<string>): (r: Option<DateTime>)
    requires |g| == 6
    ensures r.Some? ==> ValidDateTime(r.value) && r.value.date.year >= 1
  {
    if !FieldWidths(g) || !(forall i :: 0 <= i < 6 ==> AllDigits(g[i])) then None
    else
      var t := FromGroups(g);
      if ValidDateTime(t) && t.date.year >= 1 then Some(t) else None
  }

  /**
   * The day written as a space and one digit from 1 to 9: the space sits at index k, right
   * after the year, the month and their two dashes; without it the text reads as groups.
   */
  function SpacedDay(s: string): (r: Option<DateTime>)
    ensures r.Some? ==> ValidDateTime(r.value) && r.value.date.year >= 1
  {
    if |s| < 6 then None
    else
      var k := 6 + DigitRun(s[5..]);
      if k >= |s| || s[k] != ' ' then None
      else
        match ReadGroups(s[..k] + s[k + 1..], Separators)
        case None => None
        case Some(g) =>
          if |g[0]| == 4 && |g[1]| + 6 == k && |g[2]| == 1 && g[2] != "0" then Checked(g) else None
  }

  /**
   * `datetime.strptime(s, "%Y-%m-%d_%H:%M:%S")`, None where it raises ValueError: digit
   * groups of the allowed widths, or the same with a space-padded day, naming a real date
   * and time from year 1 on.
   */
  function Strptime(s: string): (r: Option<DateTime>)
    ensures r.Some? ==> ValidDateTime(r.value) && r.value.date.year >= 1
  {
    match ReadGroups(s, Separators)
    case None => SpacedDay(s)
    case Some(g) => Checked(g)
  }

  /** strptime applied to any value: anything but a str raises TypeError. */
  function StrptimeValue(v: PyValue): (r: Result<Option<DateTime>, string>)
    ensures r.Err? <==> !v.PyStr?
    ensures r.Ok? ==> r.value == Strptime(v.s)
  {
    if v.PyStr? then Ok(Strptime(v.s)) else Err(TypeError)
  }

  /** `(b - a).total_seconds()`, which is whole for these dates. */
  function TotalSeconds(a: DateTime, b: DateTime): int
    requires ValidDateTime(a) && ValidDateTime(b)
  {
    Seconds(b) - Seconds(a)
  }

  // ----- properties -----

  /** Every group read is a non-empty run of digits. */
  lemma {:induction false} GroupsAreDigits(s: string, seps: string)
    requires ReadGroups(s, seps).Some?
    ensures forall i :: 0 <= i < |seps| + 1 ==> AllDigits(ReadGroups(s, seps).value[i])
    ensures forall i :: 0 <= i < |seps| + 1 ==> |ReadGroups(s, seps).value[i]| >= 1
    decreases |seps|
  {
    var n := DigitRun(s);
    if seps != [] {
      GroupsAreDigits(s[n + 1..], seps[1..]);
      var gs := ReadGroups(s[n + 1..], seps[1..]).value;
      forall i | 0 < i < |seps| + 1
        ensures ReadGroups(s, seps).value[i] == gs[i - 1]
      {
      }
    } else {
      assert s[..n] == s;
    }
  }

  /** A group followed by its separator: the group heads whatever the rest reads to. */
  lemma ReadStep(g: string, c: char, rest: string, seps: string)
    requires AllDigits(g) && |g| >= 1 && !IsDigit(c)
    ensures ReadGroups(g + [c] + rest, [c] + seps) ==
            match ReadGroups(rest, seps)
            case None => None
            case Some(gs) => Some([g] + gs)
  {
    var s := g + [c] + rest;
    assert s == g + ([c] + rest);
    DigitRunAll(g, [c] + rest);
    assert s[..|g|] == g && s[|g|] == c && s[|g| + 1..] == rest;
    assert ([c] + seps)[1..] == seps;
  }

  /** Reading interleaved groups gives the groups back: ReadGroups inverts Interleave. */
  lemma {:induction false} ReadInterleaved(groups: seq<string>, seps: string)
    requires |groups| == |seps| + 1
    requires forall i :: 0 <= i < |groups| ==> AllDigits(groups[i]) && |groups[i]| >= 1
    requires forall i :: 0 <= i < |seps| ==> !IsDigit(seps[i])
    ensures ReadGroups(Interleave(groups, seps), seps) == Some(groups)
    decreases |seps|
  {
    if seps == [] {
      DigitRunAll(groups[0], "");
      assert groups[0] + "" == groups[0];
      assert groups == [groups[0]];
    } else {
      var rest := Interleave(groups[1..], seps[1..]);
      ReadInterleaved(groups[1..], seps[1..]);
      assert seps == [seps[0]] + seps[1..];
      ReadStep(groups[0], seps[0], rest, seps[1..]);
      assert groups == [groups[0]] + groups[1..];
    }
  }

  /** Interleaving what was read gives the text back: Interleave inverts ReadGroups. */
  lemma {:induction false} InterleaveRead(s: string, seps: string)
    requires ReadGroups(s, seps).Some?
    ensures Interleave(ReadGroups(s, seps).value, seps) == s
    decreases |seps|
  {
    var n := DigitRun(s);
    if seps != [] {
      InterleaveRead(s[n + 1..], seps[1..]);
      var gs := ReadGroups(s, seps).value;
      assert gs[1..] == ReadGroups(s[n + 1..], seps[1..]).value;
      assert s == s[..n] + [s[n]] + s[n + 1..];
    }
  }

  /** Six groups with the format's separators between them. */
  lemma InterleaveSix(a: string, b: string, c: string, d: string, e: string, f: string)
    ensures Interleave([a, b, c, d, e, f], Separators) == (a + "-" + b + "-" + c) + "_" + (d + ":" + e + ":" + f)
  {
    var g := [a, b, c, d, e, f];
    assert Interleave(g[5..], "") == f;
    assert Interleave(g[4..], ":") == e + ":" + f;
    assert Interleave(g[3..], "::") == d + ":" + (e + ":" + f);
    assert Interleave(g[2..], "_::") == c + "_" + (d + ":" + (e + ":" + f));
    assert Interleave(g[1..], "-_::") == b + "-" + (c + "_" + (d + ":" + (e + ":" + f)));
  }

  /** Six digit groups of the allowed widths, with the format's separators, parse to the date and time they name. */
  lemma StrptimeOfGroups(g: seq<string>)
    requires FieldWidths(g)
    requires forall i :: 0 <= i < 6 ==> AllDigits(g[i]) && |g[i]| >= 1
    ensures Strptime(Interleave(g, Separators)) ==
            (var t := FromGroups(g); if ValidDateTime(t) && t.date.year >= 1 then Some(t) else None)
  {
    ReadInterleaved(g, Separators);
  }

  /** A year from 1000 to 9999 prints with four digits. */
  lemma FourDigitYear(y: nat)
    requires 1000 <= y <= 9999
    ensures |NatToDigits(y)| == 4
  {
    assert NatToDigits(y) == NatToDigits(y / 10) + [DigitChar(y % 10)];
    assert NatToDigits(y / 10) == NatToDigits(y / 100) + [DigitChar(y / 10 % 10)];
    assert NatToDigits(y / 100) == NatToDigits(y / 1000) + [DigitChar(y / 100 % 10)];
  }

  /** The groups of the WRF text of a date and time: the year's digits and five two-digit fields. */
  function WrfGroups(t: DateTime): (g: seq<string>)
    requires ValidDateTime(t) && t.date.year >= 0
    ensures |g| == 6
  {
    [NatToDigits(t.date.year), Helpers.Pad2(t.date.month), Helpers.Pad2(t.date.day),
     Helpers.Pad2(t.hour), Helpers.Pad2(t.minute), Helpers.Pad2(t.second)]
  }

  /** The WRF text of a date and time is its six groups with the format's separators. */
  lemma WrfTextInterleaved(t: DateTime)
    requires ValidDateTime(t) && t.date.year >= 0
    ensures Helpers.DateToWrfString(t) == Interleave(WrfGroups(t), Separators)
  {
    var g := WrfGroups(t);
    InterleaveSix(g[0], g[1], g[2], g[3], g[4], g[5]);
  }

  /** The groups of the WRF text have the allowed widths and name the date and time. */
  lemma WrfGroupsFit(t: DateTime)
    requires ValidDateTime(t) && 1000 <= t.date.year <= 9999
    ensures FieldWidths(WrfGroups(t))
    ensures forall i :: 0 <= i < 6 ==> AllDigits(WrfGroups(t)[i]) && |WrfGroups(t)[i]| >= 1
    ensures FromGroups(WrfGroups(t)) == t
  {
    FourDigitYear(t.date.year);
    Helpers.Pad2Width(t.date.month);
    Helpers.Pad2Width(t.date.day);
    Helpers.Pad2Width(t.hour);
    Helpers.Pad2Width(t.minute);
    Helpers.Pad2Width(t.second);
    DigitsRoundTrip(t.date.year);
  }

  /**
   * strptime reads back what strftime (the same text as the React helpers' dateToWrfString)
   * prints, for years with four digits.
   */
  lemma StrptimeRoundTrip(t: DateTime)
    requires ValidDateTime(t) && 1000 <= t.date.year <= 9999
    ensures Strptime(Helpers.DateToWrfString(t)) == Some(t)
  {
    WrfTextInterleaved(t);
    WrfGroupsFit(t);
    StrptimeOfGroups(WrfGroups(t));
  }

  /** A group that starts with a space is no digit group. */
  lemma NoGroupAtSpace(rest: string, seps: string)
    requires |seps| >= 1
    ensures ReadGroups([' '] + rest, seps) == None
  {
  }

  /** With a space after the month's dash the text does not read as digit groups. */
  lemma SpacedNotGroups(y: string, m: string, tail: string)
    requires AllDigits(y) && |y| >= 1 && AllDigits(m) && |m| >= 1
    ensures ReadGroups(y + ['-'] + (m + ['-'] + ([' '] + tail)), Separators) == None
  {
    NoGroupAtSpace(tail, "_::");
    ReadStep(m, '-', [' '] + tail, "_::");
    assert Separators == ['-'] + "-_::";
    assert "-_::" == ['-'] + "_::";
    ReadStep(y, '-', m + ['-'] + ([' '] + tail), "-_::");
  }

  /** Where SpacedDay looks for the space, and the text without it. */
  lemma SpacedSplit(y: string, m: string, tail: string)
    requires |y| == 4 && AllDigits(m)
    ensures var s := y + ['-'] + (m + ['-'] + ([' '] + tail));
            |s| >= 6 && 6 + DigitRun(s[5..]) == 6 + |m| < |s| && s[6 + |m|] == ' ' &&
            s[..6 + |m|] + s[6 + |m| + 1..] == y + ['-'] + (m + ['-'] + tail)
  {
    var s := y + ['-'] + (m + ['-'] + ([' '] + tail));
    assert s[5..] == m + (['-'] + ([' '] + tail));
    DigitRunAll(m, ['-'] + ([' '] + tail));
    assert s[..6 + |m|] == y + ['-'] + (m + ['-']);
    assert s[6 + |m| + 1..] == tail;
  }

  /** The text with a space-padded day, and without the space, split at the month's second dash. */
  lemma SpacedText(g: seq<string>)
    requires |g| == 6
    ensures var tail := g[2] + "_" + (g[3] + ":" + g[4] + ":" + g[5]);
            Interleave(g[2 := " " + g[2]], Separators) == g[0] + ['-'] + (g[1] + ['-'] + ([' '] + tail)) &&
            Interleave(g, Separators) == g[0] + ['-'] + (g[1] + ['-'] + tail)
  {
    var padded := g[2 := " " + g[2]];
    InterleaveSix(padded[0], padded[1], padded[2], padded[3], padded[4], padded[5]);
    InterleaveSix(g[0], g[1], g[2], g[3], g[4], g[5]);
  }

  /**
   * A space before a one-digit day (other than 0) is read as that day: the text parses to
   * what its groups without the space name.
   */
  lemma SpacedDayOfGroups(g: seq<string>)
    requires FieldWidths(g) && |g[2]| == 1 && g[2] != "0"
    requires forall i :: 0 <= i < 6 ==> AllDigits(g[i]) && |g[i]| >= 1
    ensures Strptime(Interleave(g[2 := " " + g[2]], Separators)) == Checked(g)
  {
    var tail := g[2] + "_" + (g[3] + ":" + g[4] + ":" + g[5]);
    SpacedText(g);
    SpacedNotGroups(g[0], g[1], tail);
    SpacedSplit(g[0], g[1], tail);
    ReadInterleaved(g, Separators);
  }

  /**
   * A date whose day is below 10, written with a space in place of the day's leading zero
   * ("2024-06- 5_00:00:00"), reads as that date.
   */
  lemma SpacePaddedDay(t: DateTime)
    requires ValidDateTime(t) && 1000 <= t.date.year <= 9999 && t.date.day < 10
    ensures Strptime(Interleave(WrfGroups(t)[2 := " " + NatToDigits(t.date.day)], Separators)) == Some(t)
  {
    var g := WrfGroups(t)[2 := NatToDigits(t.date.day)];
    WrfGroupsFit(t);
    DigitsRoundTrip(t.date.day);
    assert FromGroups(g) == FromGroups(WrfGroups(t));
    assert g[2] != "0";
    assert g[2 := " " + NatToDigits(t.date.day)] == WrfGroups(t)[2 := " " + NatToDigits(t.date.day)];
    SpacedDayOfGroups(g);
  }

  /** Single-digit month, day, hour, minute and second are read too, where the React forms require two digits. */
  lemma SingleDigitFields(t: DateTime)
    requires ValidDateTime(t) && 1000 <= t.date.year <= 9999
    requires t.date.month < 10 && t.date.day < 10 && t.hour < 10 && t.minute < 10 && t.second < 10
    ensures var s := Interleave([NatToDigits(t.date.year), NatToDigits(t.date.month), NatToDigits(t.date.day),
                                 NatToDigits(t.hour), NatToDigits(t.minute), NatToDigits(t.second)], Separators);
            Strptime(s) == Some(t) && |s| == 14
  {
    var g := [NatToDigits(t.date.year), NatToDigits(t.date.month), NatToDigits(t.date.day),
              NatToDigits(t.hour), NatToDigits(t.minute), NatToDigits(t.second)];
    FourDigitYear(t.date.year);
    DigitsRoundTrip(t.date.year);
    DigitsRoundTrip(t.date.month);
    DigitsRoundTrip(t.date.day);
    DigitsRoundTrip(t.hour);
    DigitsRoundTrip(t.minute);
    DigitsRoundTrip(t.second);
    assert FromGroups(g) == t;
    StrptimeOfGroups(g);
    InterleaveSix(g[0], g[1], g[2], g[3], g[4], g[5]);
  }
}
