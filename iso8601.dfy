/**
 * The three fields of a repeating-interval schedule "R[n]/start/duration"
 * (ISO 8601:2004 section 4.5, with durations in the designator format of
 * section 4.4.3.2), as the job validator accepts them. Each field has a
 * datatype for its parts, a formatter that writes the parts out, and a
 * hand-written parser that plays the part of the validator's regular
 * expression: a field is accepted exactly when the parser returns Some.
 */
module Iso8601 {
  import opened Wrappers

  predicate IsDigit(c: char) { '0' <= c <= '9' }

  /** Every character is an ASCII digit, as the regular expression class \d. */
  predicate AllDigits(s: string) { forall i :: 0 <= i < |s| ==> IsDigit(s[i]) }

  /** One or more digits, as \d+. */
  predicate IsNumeral(s: string) { |s| > 0 && AllDigits(s) }

  /** Exactly n digits, as \d{n}. */
  predicate IsDigits(s: string, n: nat) { |s| == n && AllDigits(s) }

  /** Length of the longest run of digits at the front of s. */
  function DigitRun(s: string): (n: nat)
    ensures n <= |s|
    ensures AllDigits(s[..n])
    ensures n < |s| ==> !IsDigit(s[n])
  {
    if s == [] || !IsDigit(s[0]) then 0
    else
      var m := DigitRun(s[1..]);
      assert s[..m + 1] == [s[0]] + s[1..][..m];
      m + 1
  }

  /** A digit run followed by a non-digit is read in full. */
  lemma {:induction false} DigitRunOf(ds: string, rest: string)
    requires AllDigits(ds)
    requires rest == [] || !IsDigit(rest[0])
    ensures DigitRun(ds + rest) == |ds|
  {
    if ds == [] {
      assert ds + rest == rest;
    } else {
      assert (ds + rest)[1..] == ds[1..] + rest;
      DigitRunOf(ds[1..], rest);
    }
  }

  // ---------------------------------------------------------------------
  // Repeat field: ^R(\d+)?$

  /** "R" alone repeats without bound; "Rn" repeats n times. */
  datatype Repeat = Repeat(times: Option<string>)

  predicate ValidRepeat(r: Repeat) {
    r.times.Some? ==> IsNumeral(r.times.value)
  }

  function FormatRepeat(r: Repeat): string {
    "R" + (if r.times.Some? then r.times.value else "")
  }

  /** Reads a repeat field; the result writes back to exactly s. */
  function ParseRepeat(s: string): (r: Option<Repeat>)
    ensures r.Some? ==> ValidRepeat(r.value) && FormatRepeat(r.value) == s
  {
    if |s| >= 1 && s[0] == 'R' && AllDigits(s[1..]) then
      assert s == "R" + s[1..];
      Some(Repeat(if |s| == 1 then None else Some(s[1..])))
    else None
  }

  predicate IsRepeat(s: string) { ParseRepeat(s).Some? }

  /** Every well-formed repeat field is accepted and read back unchanged. */
  lemma ParseFormatRepeat(r: Repeat)
    requires ValidRepeat(r)
    ensures ParseRepeat(FormatRepeat(r)) == Some(r)
  {
    var s := FormatRepeat(r);
    assert s[1..] == if r.times.Some? then r.times.value else "";
  }

  // ---------------------------------------------------------------------
  // Start field: ^\d{4}-\d{2}-\d{2}T\d{2}:\d{2}:\d{2}(Z|(\+|-)\d{2}:\d{2})$

  /** "Z" for UTC, or a signed hour and minute offset "+hh:mm" / "-hh:mm". */
  datatype Zone = Utc | Offset(sign: char, hours: string, minutes: string)

  /** A calendar date and time of day, each part a fixed number of digits. */
  datatype StartTime = StartTime(year: string, month: string, day: string,
                                 hour: string, minute: string, second: string,
                                 zone: Zone)

  predicate ValidZone(z: Zone) {
    z.Offset? ==> (z.sign == '+' || z.sign == '-') && IsDigits(z.hours, 2) && IsDigits(z.minutes, 2)
  }

  /** Only the digit counts are constrained, not the ranges of the values. */
  predicate ValidStartTime(t: StartTime) {
    IsDigits(t.year, 4) && IsDigits(t.month, 2) && IsDigits(t.day, 2) &&
    IsDigits(t.hour, 2) && IsDigits(t.minute, 2) && IsDigits(t.second, 2) &&
    ValidZone(t.zone)
  }

  function FormatZone(z: Zone): string {
    match z
    case Utc => "Z"
    case Offset(sign, hours, minutes) => [sign] + hours + ":" + minutes
  }

  function FormatStartTime(t: StartTime): string {
    t.year + "-" + t.month + "-" + t.day + "T" +
    t.hour + ":" + t.minute + ":" + t.second + FormatZone(t.zone)
  }

  /** Reads a zone designator; the result writes back to exactly s. */
  function ParseZone(s: string): (z: Option<Zone>)
    ensures z.Some? ==> ValidZone(z.value) && FormatZone(z.value) == s
  {
    if s == "Z" then Some(Utc)
    else if |s| == 6 && (s[0] == '+' || s[0] == '-') && AllDigits(s[1..3])
            && s[3] == ':' && AllDigits(s[4..6]) then
      assert s == [s[0]] + s[1..3] + ":" + s[4..6];
      Some(Offset(s[0], s[1..3], s[4..6]))
    else None
  }

  /** Reads a start field; the result writes back to exactly s. */
  function ParseStartTime(s: string): (t: Option<StartTime>)
    ensures t.Some? ==> ValidStartTime(t.value) && FormatStartTime(t.value) == s
  {
    if |s| >= 19 && AllDigits(s[0..4]) && s[4] == '-' && AllDigits(s[5..7]) && s[7] == '-'
       && AllDigits(s[8..10]) && s[10] == 'T' && AllDigits(s[11..13]) && s[13] == ':'
       && AllDigits(s[14..16]) && s[16] == ':' && AllDigits(s[17..19]) then
      match ParseZone(s[19..])
      case None => None
      case Some(z) =>
        var t := StartTime(s[0..4], s[5..7], s[8..10], s[11..13], s[14..16], s[17..19], z);
        StartTimeSlices(s, t);
        Some(t)
    else None
  }

  predicate IsStartTime(s: string) { ParseStartTime(s).Some? }

  /** Gluing the fixed-position slices of s back together gives s. */
  lemma StartTimeSlices(s: string, t: StartTime)
    requires |s| >= 19 && s[4] == '-' && s[7] == '-' && s[10] == 'T' && s[13] == ':' && s[16] == ':'
    requires t.year == s[0..4] && t.month == s[5..7] && t.day == s[8..10]
    requires t.hour == s[11..13] && t.minute == s[14..16] && t.second == s[17..19]
    requires FormatZone(t.zone) == s[19..]
    ensures FormatStartTime(t) == s
  {
    assert s[..10] == s[0..4] + "-" + s[5..7] + "-" + s[8..10];
    assert s[10..19] == "T" + s[11..13] + ":" + s[14..16] + ":" + s[17..19];
    assert s == s[..10] + s[10..19] + s[19..];
  }

  /** Every well-formed start field is accepted and read back unchanged. */
  lemma ParseFormatStartTime(t: StartTime)
    requires ValidStartTime(t)
    ensures ParseStartTime(FormatStartTime(t)) == Some(t)
  {
    var s := FormatStartTime(t);
    var date := t.year + "-" + t.month + "-" + t.day;
    var time := "T" + t.hour + ":" + t.minute + ":" + t.second;
    var zone := FormatZone(t.zone);
    assert s == date + time + zone;
    assert |date| == 10 && |time| == 9;
    assert s[..10] == date && s[10..19] == time && s[19..] == zone;
    assert date[0..4] == t.year && date[5..7] == t.month && date[8..10] == t.day;
    assert time[1..3] == t.hour && time[4..6] == t.minute && time[7..9] == t.second;
    assert s[0..4] == t.year && s[5..7] == t.month && s[8..10] == t.day;
    assert s[11..13] == t.hour && s[14..16] == t.minute && s[17..19] == t.second;
    match t.zone
    case Utc =>
    case Offset(sign, hours, minutes) =>
      assert zone[1..3] == hours && zone[4..6] == minutes;
  }

  // ---------------------------------------------------------------------
  // Interval field:
  // ^P((\d+)Y)?((\d+)M)?((\d+)D)?(T((\d+)H)?((\d+)M)?((\d+)S)?)?$

  /**
   * Three optional "digits designator" groups: years, months and days in the
   * date part, hours, minutes and seconds in the time part.
   */
  datatype Groups = Groups(first: Option<string>, second: Option<string>, third: Option<string>)

  /** A date part, then an optional time part introduced by "T". */
  datatype Duration = Duration(date: Groups, time: Option<Groups>)

  predicate ValidAmount(a: Option<string>) { a.Some? ==> IsNumeral(a.value) }

  predicate ValidGroups(g: Groups) {
    ValidAmount(g.first) && ValidAmount(g.second) && ValidAmount(g.third)
  }

  predicate ValidDuration(d: Duration) {
    ValidGroups(d.date) && (d.time.Some? ==> ValidGroups(d.time.value))
  }

  /** One optional group "digits designator", or nothing when absent. */
  function FormatAmount(a: Option<string>, designator: char): string {
    if a.Some? then a.value + [designator] else ""
  }

  function FormatGroups(g: Groups, d1: char, d2: char, d3: char): string {
    FormatAmount(g.first, d1) + FormatAmount(g.second, d2) + FormatAmount(g.third, d3)
  }

  function FormatTimePart(t: Option<Groups>): string {
    if t.None? then "" else "T" + FormatGroups(t.value, 'H', 'M', 'S')
  }

  function FormatDuration(d: Duration): string {
    "P" + FormatGroups(d.date, 'Y', 'M', 'D') + FormatTimePart(d.time)
  }

  /**
   * Reads one optional "digits designator" group at the front of s and
   * returns it with the unread rest. The group is taken only when the whole
   * digit run is followed by the designator; otherwise nothing is read.
   */
  function ParseAmount(s: string, designator: char): (r: (Option<string>, string))
    ensures ValidAmount(r.0) && FormatAmount(r.0, designator) + r.1 == s
  {
    var n := DigitRun(s);
    if 0 < n < |s| && s[n] == designator then
      assert s == s[..n] + [designator] + s[n + 1..];
      (Some(s[..n]), s[n + 1..])
    else
      assert "" + s == s;
      (None, s)
  }

  /** Reads up to three groups with designators d1, d2, d3 in that order, and the unread rest. */
  function ParseGroups(s: string, d1: char, d2: char, d3: char): (r: (Groups, string))
    ensures ValidGroups(r.0)
    ensures FormatGroups(r.0, d1, d2, d3) + r.1 == s
  {
    var p1 := ParseAmount(s, d1);
    var p2 := ParseAmount(p1.1, d2);
    var p3 := ParseAmount(p2.1, d3);
    var g := Groups(p1.0, p2.0, p3.0);
    Regroup(FormatAmount(p1.0, d1), FormatAmount(p2.0, d2), FormatAmount(p3.0, d3), p3.1);
    (g, p3.1)
  }

  /** Reads the optional time part that ends an interval field; the result writes back to exactly s. */
  function ParseTimePart(s: string): (t: Option<Option<Groups>>)
    ensures t.Some? ==> (t.value.Some? ==> ValidGroups(t.value.value)) && FormatTimePart(t.value) == s
  {
    if s == [] then Some(None)
    else if s[0] != 'T' then None
    else
      var timePart := ParseGroups(s[1..], 'H', 'M', 'S');
      if timePart.1 == [] then
        assert s == "T" + FormatGroups(timePart.0, 'H', 'M', 'S') + timePart.1;
        Some(Some(timePart.0))
      else None
  }

  /** Regrouping four pieces; stated once so that ParseGroups stays cheap to verify. */
  lemma Regroup(a: string, b: string, c: string, d: string)
    ensures a + b + c + d == a + (b + (c + d))
  {
  }

  /** Reads an interval field; the result writes back to exactly s. */
  function ParseDuration(s: string): (d: Option<Duration>)
    ensures d.Some? ==> ValidDuration(d.value) && FormatDuration(d.value) == s
  {
    if s == [] || s[0] != 'P' then None
    else
      var datePart := ParseGroups(s[1..], 'Y', 'M', 'D');
      match ParseTimePart(datePart.1)
      case None => None
      case Some(time) =>
        DurationWritesBack(s, datePart.0, datePart.1, time);
        Some(Duration(datePart.0, time))
  }

  /** "P", a date part and a time part that write back to the rest of s write back to s. */
  lemma DurationWritesBack(s: string, date: Groups, rest: string, time: Option<Groups>)
    requires s != [] && s[0] == 'P'
    requires FormatGroups(date, 'Y', 'M', 'D') + rest == s[1..]
    requires FormatTimePart(time) == rest
    ensures FormatDuration(Duration(date, time)) == s
  {
    assert s == "P" + s[1..];
  }

  predicate IsDuration(s: string) { ParseDuration(s).Some? }

  /** Nothing is read at the front of s for this designator. */
  predicate NoAmount(s: string, designator: char) { ParseAmount(s, designator).0.None? }

  /** A formatted group followed by text that holds no group of its own reads back. */
  lemma ParseAmountFormat(a: Option<string>, designator: char, rest: string)
    requires ValidAmount(a) && !IsDigit(designator)
    requires a.None? ==> NoAmount(rest, designator)
    ensures ParseAmount(FormatAmount(a, designator) + rest, designator) == (a, rest)
  {
    if a.Some? {
      var s := a.value + [designator] + rest;
      assert FormatAmount(a, designator) + rest == a.value + ([designator] + rest);
      DigitRunOf(a.value, [designator] + rest);
      assert s[..|a.value|] == a.value && s[|a.value|] == designator;
      assert s[|a.value| + 1..] == rest;
    } else {
      assert FormatAmount(a, designator) + rest == rest;
    }
  }

  /** A group for another designator blocks this one; so does what blocks both. */
  lemma NoAmountAfter(a: Option<string>, other: char, rest: string, designator: char)
    requires ValidAmount(a) && !IsDigit(other) && other != designator
    requires a.None? ==> NoAmount(rest, designator)
    ensures NoAmount(FormatAmount(a, other) + rest, designator)
  {
    if a.Some? {
      var s := a.value + [other] + rest;
      assert FormatAmount(a, other) + rest == a.value + ([other] + rest);
      DigitRunOf(a.value, [other] + rest);
      assert s[|a.value|] == other;
    } else {
      assert FormatAmount(a, other) + rest == rest;
    }
  }

  /** Three formatted groups followed by text that holds none of them read back. */
  lemma ParseFormatGroups(g: Groups, d1: char, d2: char, d3: char, rest: string)
    requires ValidGroups(g)
    requires !IsDigit(d1) && !IsDigit(d2) && !IsDigit(d3) && d1 != d2 && d1 != d3 && d2 != d3
    requires NoAmount(rest, d1) && NoAmount(rest, d2) && NoAmount(rest, d3)
    ensures ParseGroups(FormatGroups(g, d1, d2, d3) + rest, d1, d2, d3) == (g, rest)
  {
    var f1, f2, f3 := FormatAmount(g.first, d1), FormatAmount(g.second, d2), FormatAmount(g.third, d3);
    assert FormatGroups(g, d1, d2, d3) + rest == f1 + (f2 + (f3 + rest));
    ParseAmountFormat(g.third, d3, rest);
    NoAmountAfter(g.third, d3, rest, d2);
    NoAmountAfter(g.third, d3, rest, d1);
    ParseAmountFormat(g.second, d2, f3 + rest);
    NoAmountAfter(g.second, d2, f3 + rest, d1);
    ParseAmountFormat(g.first, d1, f2 + (f3 + rest));
  }

  /** Text that is empty or starts with a non-digit holds no group. */
  lemma NoAmountAtLetter(s: string, designator: char)
    requires s == [] || !IsDigit(s[0])
    ensures NoAmount(s, designator)
  {
  }

  /** A well-formed time part, or none, is read back from its written form. */
  lemma ParseFormatTimePart(t: Option<Groups>)
    requires t.Some? ==> ValidGroups(t.value)
    ensures ParseTimePart(FormatTimePart(t)) == Some(t)
  {
    if t.Some? {
      var ft := FormatTimePart(t);
      assert ft[1..] == FormatGroups(t.value, 'H', 'M', 'S') + "";
      ParseFormatGroups(t.value, 'H', 'M', 'S', "");
    }
  }

  /** Every well-formed interval field is accepted and read back unchanged. */
  lemma ParseFormatDuration(d: Duration)
    requires ValidDuration(d)
    ensures ParseDuration(FormatDuration(d)) == Some(d)
  {
    var s := FormatDuration(d);
    var ft := FormatTimePart(d.time);
    assert s[1..] == FormatGroups(d.date, 'Y', 'M', 'D') + ft;
    ParseFormatDatePart(d.date, ft);
    ParseFormatTimePart(d.time);
  }

  /** A well-formed date part followed by a time part, or by nothing, reads back as that date part. */
  lemma ParseFormatDatePart(date: Groups, ft: string)
    requires ValidGroups(date) && (ft == [] || ft[0] == 'T')
    ensures ParseGroups(FormatGroups(date, 'Y', 'M', 'D') + ft, 'Y', 'M', 'D') == (date, ft)
  {
    NoAmountAtLetter(ft, 'Y');
    NoAmountAtLetter(ft, 'M');
    NoAmountAtLetter(ft, 'D');
    ParseFormatGroups(date, 'Y', 'M', 'D', ft);
  }

  /** The two edge cases of the interval field: no group at all, and an empty time part. */
  lemma EmptyIntervals()
    ensures ParseDuration("P") == Some(Duration(Groups(None, None, None), None))
    ensures ParseDuration("PT") == Some(Duration(Groups(None, None, None), Some(Groups(None, None, None))))
  {
    ParseFormatDuration(Duration(Groups(None, None, None), None));
    ParseFormatDuration(Duration(Groups(None, None, None), Some(Groups(None, None, None))));
  }

  /** "M" before "T" counts months, after "T" minutes. */
  lemma MonthsAndMinutes()
    ensures ParseDuration("P1M") == Some(Duration(Groups(None, Some("1"), None), None))
    ensures ParseDuration("PT1M") == Some(Duration(Groups(None, None, None), Some(Groups(None, Some("1"), None))))
  {
    var months := Duration(Groups(None, Some("1"), None), None);
    var minutes := Duration(Groups(None, None, None), Some(Groups(None, Some("1"), None)));
    assert FormatAmount(Some("1"), 'M') == "1M";
    assert FormatDuration(months) == "P1M";
    assert FormatDuration(minutes) == "PT1M";
    ParseFormatDuration(months);
    ParseFormatDuration(minutes);
  }

  // ---------------------------------------------------------------------
  // Whole schedule

  /** A repeating interval "R[n]/start/duration". */
  datatype Schedule = Schedule(repeat: Repeat, start: StartTime, interval: Duration)

  predicate ValidSchedule(x: Schedule) {
    ValidRepeat(x.repeat) && ValidStartTime(x.start) && ValidDuration(x.interval)
  }

  function FormatSchedule(x: Schedule): string {
    FormatRepeat(x.repeat) + "/" + FormatStartTime(x.start) + "/" + FormatDuration(x.interval)
  }

  /** Digits are never the field separator. */
  lemma DigitsHaveNoSlash(s: string)
    requires AllDigits(s)
    ensures '/' !in s
  {
    assert !IsDigit('/');
  }

  lemma AmountHasNoSlash(a: Option<string>, designator: char)
    requires ValidAmount(a) && designator != '/'
    ensures '/' !in FormatAmount(a, designator)
  {
    if a.Some? { DigitsHaveNoSlash(a.value); }
  }

  lemma GroupsHaveNoSlash(g: Groups, d1: char, d2: char, d3: char)
    requires ValidGroups(g) && d1 != '/' && d2 != '/' && d3 != '/'
    ensures '/' !in FormatGroups(g, d1, d2, d3)
  {
    AmountHasNoSlash(g.first, d1);
    AmountHasNoSlash(g.second, d2);
    AmountHasNoSlash(g.third, d3);
  }

  /** No well-formed field contains "/", so a schedule splits back into its three fields. */
  lemma FieldsHaveNoSlash(x: Schedule)
    requires ValidSchedule(x)
    ensures '/' !in FormatRepeat(x.repeat)
    ensures '/' !in FormatStartTime(x.start)
    ensures '/' !in FormatDuration(x.interval)
  {
    if x.repeat.times.Some? { DigitsHaveNoSlash(x.repeat.times.value); }
    var t := x.start;
    DigitsHaveNoSlash(t.year);
    DigitsHaveNoSlash(t.month);
    DigitsHaveNoSlash(t.day);
    DigitsHaveNoSlash(t.hour);
    DigitsHaveNoSlash(t.minute);
    DigitsHaveNoSlash(t.second);
    if t.zone.Offset? {
      DigitsHaveNoSlash(t.zone.hours);
      DigitsHaveNoSlash(t.zone.minutes);
    }
    GroupsHaveNoSlash(x.interval.date, 'Y', 'M', 'D');
    if x.interval.time.Some? {
      GroupsHaveNoSlash(x.interval.time.value, 'H', 'M', 'S');
    }
  }
}
