/**
  Facts about the seven concrete tables: every key parses, the ranges of a
  day chain end to start from 06:00 to 23:00, the last range `23:00-06:00`
  is the only one that wraps midnight, and so every time of every day of
  the week has an activity.
 */
module ScheduleCoverage {
  import opened Wrappers
  import opened Exceptions
  import opened Text
  import opened Schedules
  import opened ContextGeneration

  function Pad2(n: nat): (s: string)
    requires n < 100
    ensures |s| == 2 && IsDigit(s[0]) && IsDigit(s[1])
  {
    [(48 + n / 10) as char, (48 + n % 10) as char]
  }

  /** The `"HH:MM"` spelling of a whole-minute time. */
  function FormatClock(t: TimeOfDay): string
    requires t.Valid()
  {
    Pad2(t.hour) + ":" + Pad2(t.minute)
  }

  /** The `"HH:MM-HH:MM"` spelling of a range, as the table keys are written. */
  function FormatRange(r: TimeRange): string
    requires r.start.Valid() && r.end.Valid()
  {
    FormatClock(r.start) + "-" + FormatClock(r.end)
  }

  predicate WholeMinute(t: TimeOfDay) {
    t.Valid() && t.second == 0 && t.micro == 0
  }

  lemma Pad2Field(n: nat, max: nat)
    requires n <= max && n < 100
    ensures Field(Pad2(n), max) == Some(n)
  {
  }

  lemma {:induction false} ParseFormatClock(t: TimeOfDay)
    requires WholeMinute(t)
    ensures ParseClock(FormatClock(t)) == Ok(t)
  {
    var h, m := Pad2(t.hour), Pad2(t.minute);
    assert FormatClock(t) == h + [':'] + m;
    SplitAppend(h, m, ':');
    SplitNoSeparator(m, ':');
    Pad2Field(t.hour, 23);
    Pad2Field(t.minute, 59);
  }

  /** Parsing is the inverse of formatting: `_parse_time_range` reads back any well-formed key. */
  lemma {:induction false} ParseFormatRange(r: TimeRange)
    requires WholeMinute(r.start) && WholeMinute(r.end)
    ensures ParseTimeRange(FormatRange(r)) == Ok(r)
  {
    var a, b := FormatClock(r.start), FormatClock(r.end);
    assert FormatRange(r) == a + ['-'] + b;
    assert '-' !in a;
    assert '-' !in b;
    SplitAppend(a, b, '-');
    SplitNoSeparator(b, '-');
    ParseFormatClock(r.start);
    ParseFormatClock(r.end);
  }

  function Span(h1: nat, m1: nat, h2: nat, m2: nat): TimeRange {
    TimeRange(TimeOfDay(h1, m1, 0, 0), TimeOfDay(h2, m2, 0, 0))
  }

  /** The keys shared by the five weekday tables, in table order. */
  const WeekdayKeys: seq<string> := [
    "06:00-07:00", "07:00-08:30", "08:30-09:30", "09:30-12:00", "12:00-13:30", "13:30-17:00",
    "17:00-19:00", "19:00-21:00", "21:00-22:00", "22:00-23:00", "23:00-06:00"]

  /** The keys shared by Saturday and Sunday, which split the day at 10:00, 15:30 and 17:00. */
  const WeekendKeys: seq<string> := [
    "06:00-07:00", "07:00-08:30", "08:30-10:00", "10:00-12:00", "12:00-13:30", "13:30-15:30",
    "15:30-17:00", "17:00-19:00", "19:00-21:00", "21:00-22:00", "22:00-23:00", "23:00-06:00"]

  const WeekdayBounds: seq<TimeRange> := [
    Span(6, 0, 7, 0), Span(7, 0, 8, 30), Span(8, 30, 9, 30), Span(9, 30, 12, 0),
    Span(12, 0, 13, 30), Span(13, 30, 17, 0), Span(17, 0, 19, 0), Span(19, 0, 21, 0),
    Span(21, 0, 22, 0), Span(22, 0, 23, 0), Span(23, 0, 6, 0)]

  const WeekendBounds: seq<TimeRange> := [
    Span(6, 0, 7, 0), Span(7, 0, 8, 30), Span(8, 30, 10, 0), Span(10, 0, 12, 0),
    Span(12, 0, 13, 30), Span(13, 30, 15, 30), Span(15, 30, 17, 0), Span(17, 0, 19, 0),
    Span(19, 0, 21, 0), Span(21, 0, 22, 0), Span(22, 0, 23, 0), Span(23, 0, 6, 0)]

  /** The table's keys, in order, are `keys`. */
  predicate HasKeys(table: seq<Entry>, keys: seq<string>) {
    |table| == |keys| && forall i :: 0 <= i < |table| ==> table[i].range == keys[i]
  }

  lemma MondayKeys() ensures HasKeys(MondaySchedule, WeekdayKeys) {}
  lemma TuesdayKeys() ensures HasKeys(TuesdaySchedule, WeekdayKeys) {}
  lemma WednesdayKeys() ensures HasKeys(WednesdaySchedule, WeekdayKeys) {}
  lemma ThursdayKeys() ensures HasKeys(ThursdaySchedule, WeekdayKeys) {}
  lemma FridayKeys() ensures HasKeys(FridaySchedule, WeekdayKeys) {}
  lemma SaturdayKeys() ensures HasKeys(SaturdaySchedule, WeekendKeys) {}
  lemma SundayKeys() ensures HasKeys(SundaySchedule, WeekendKeys) {}

  /** The keys of a day of the week. */
  function DayKeys(day: int): seq<string>
    requires 0 <= day <= 6
  {
    if day <= 4 then WeekdayKeys else WeekendKeys
  }

  /**
    The five weekday tables share one key set and Saturday and Sunday
    another; so Monday to Friday have 11 entries and the weekend days 12.
   */
  lemma KeySets(day: int)
    requires 0 <= day <= 6
    ensures HasKeys(ScheduleForDay(day), DayKeys(day))
    ensures |ScheduleForDay(day)| == if day <= 4 then 11 else 12
  {
    if day == 0 { MondayKeys(); }
    else if day == 1 { TuesdayKeys(); }
    else if day == 2 { WednesdayKeys(); }
    else if day == 3 { ThursdayKeys(); }
    else if day == 4 { FridayKeys(); }
    else if day == 5 { SaturdayKeys(); }
    else { SundayKeys(); }
  }

  /** No table repeats a key (a dictionary has each key once). */
  lemma DistinctKeys()
    ensures forall i, j :: 0 <= i < j < |WeekdayKeys| ==> WeekdayKeys[i] != WeekdayKeys[j]
    ensures forall i, j :: 0 <= i < j < |WeekendKeys| ==> WeekendKeys[i] != WeekendKeys[j]
  {
  }

  predicate WellFormed(bounds: seq<TimeRange>) {
    forall i :: 0 <= i < |bounds| ==> WholeMinute(bounds[i].start) && WholeMinute(bounds[i].end)
  }

  /** Each key is the spelling of the matching bound, so each key parses to it. */
  lemma {:induction false} KeysParseTo(keys: seq<string>, bounds: seq<TimeRange>)
    requires |keys| == |bounds| && WellFormed(bounds)
    requires forall i :: 0 <= i < |keys| ==> keys[i] == FormatRange(bounds[i])
    ensures forall i :: 0 <= i < |keys| ==> ParseTimeRange(keys[i]) == Ok(bounds[i])
  {
    forall i | 0 <= i < |keys| ensures ParseTimeRange(keys[i]) == Ok(bounds[i]) {
      ParseFormatRange(bounds[i]);
    }
  }

  lemma WeekdayKeysParse()
    ensures |WeekdayKeys| == |WeekdayBounds|
    ensures forall i :: 0 <= i < |WeekdayKeys| ==> ParseTimeRange(WeekdayKeys[i]) == Ok(WeekdayBounds[i])
  {
    assert WeekdayKeys[0] == FormatRange(WeekdayBounds[0]);
    assert WeekdayKeys[1] == FormatRange(WeekdayBounds[1]);
    assert WeekdayKeys[2] == FormatRange(WeekdayBounds[2]);
    assert WeekdayKeys[3] == FormatRange(WeekdayBounds[3]);
    assert WeekdayKeys[4] == FormatRange(WeekdayBounds[4]);
    assert WeekdayKeys[5] == FormatRange(WeekdayBounds[5]);
    assert WeekdayKeys[6] == FormatRange(WeekdayBounds[6]);
    assert WeekdayKeys[7] == FormatRange(WeekdayBounds[7]);
    assert WeekdayKeys[8] == FormatRange(WeekdayBounds[8]);
    assert WeekdayKeys[9] == FormatRange(WeekdayBounds[9]);
    assert WeekdayKeys[10] == FormatRange(WeekdayBounds[10]);
    KeysParseTo(WeekdayKeys, WeekdayBounds);
  }

  lemma WeekendKeysParse()
    ensures |WeekendKeys| == |WeekendBounds|
    ensures forall i :: 0 <= i < |WeekendKeys| ==> ParseTimeRange(WeekendKeys[i]) == Ok(WeekendBounds[i])
  {
    assert WeekendKeys[0] == FormatRange(WeekendBounds[0]);
    assert WeekendKeys[1] == FormatRange(WeekendBounds[1]);
    assert WeekendKeys[2] == FormatRange(WeekendBounds[2]);
    assert WeekendKeys[3] == FormatRange(WeekendBounds[3]);
    assert WeekendKeys[4] == FormatRange(WeekendBounds[4]);
    assert WeekendKeys[5] == FormatRange(WeekendBounds[5]);
    assert WeekendKeys[6] == FormatRange(WeekendBounds[6]);
    assert WeekendKeys[7] == FormatRange(WeekendBounds[7]);
    assert WeekendKeys[8] == FormatRange(WeekendBounds[8]);
    assert WeekendKeys[9] == FormatRange(WeekendBounds[9]);
    assert WeekendKeys[10] == FormatRange(WeekendBounds[10]);
    assert WeekendKeys[11] == FormatRange(WeekendBounds[11]);
    KeysParseTo(WeekendKeys, WeekendBounds);
  }

  /**
    A day that chains: every range but the last runs forward and ends where
    the next begins, and the last runs from the end of the one before it,
    across midnight, to the start of the first.
   */
  predicate DayChain(b: seq<TimeRange>) {
    && |b| >= 2
    && (forall i :: 0 <= i < |b| - 1 ==> !Wraps(b[i]))
    && (forall i :: 0 <= i < |b| - 2 ==> b[i].end.Ticks() == b[i + 1].start.Ticks())
    && b[|b| - 1].start.Ticks() == b[|b| - 2].end.Ticks()
    && b[|b| - 1].end.Ticks() == b[0].start.Ticks()
    && Wraps(b[|b| - 1])
  }

  /** Inside the forward part of a chain, some range up to `m` contains `t`. */
  lemma {:induction false} ForwardCovers(b: seq<TimeRange>, m: nat, t: TimeOfDay) returns (i: nat)
    requires m < |b|
    requires forall k :: 0 <= k <= m ==> !Wraps(b[k])
    requires forall k :: 0 <= k < m ==> b[k].end.Ticks() == b[k + 1].start.Ticks()
    requires b[0].start.Ticks() <= t.Ticks() <= b[m].end.Ticks()
    ensures i <= m && Matches(b[i], t)
  {
    if m == 0 || t.Ticks() > b[m - 1].end.Ticks() {
      i := m;
    } else {
      i := ForwardCovers(b, m - 1, t);
    }
  }

  /** A chained day leaves no gap: every time matches some range. */
  lemma {:induction false} ChainCovers(b: seq<TimeRange>, t: TimeOfDay) returns (i: nat)
    requires DayChain(b)
    ensures i < |b| && Matches(b[i], t)
  {
    var n := |b|;
    if t.Ticks() >= b[n - 1].start.Ticks() || t.Ticks() <= b[n - 1].end.Ticks() {
      i := n - 1;
    } else {
      i := ForwardCovers(b, n - 2, t);
    }
  }

  lemma DayChains()
    ensures DayChain(WeekdayBounds) && DayChain(WeekendBounds)
    ensures WeekdayBounds[0].start == WeekendBounds[0].start == TimeOfDay(6, 0, 0, 0)
  {
  }

  /** The bounds of the table for a day of the week. */
  function DayBounds(day: int): seq<TimeRange>
    requires 0 <= day <= 6
  {
    if day <= 4 then WeekdayBounds else WeekendBounds
  }

  /** Every key of every day parses, to the day's bounds, so `_parse_time_range` never raises on them. */
  lemma DayKeysParse(day: int)
    requires 0 <= day <= 6
    ensures |ScheduleForDay(day)| == |DayBounds(day)|
    ensures forall i :: 0 <= i < |ScheduleForDay(day)| ==>
      ParseTimeRange(ScheduleForDay(day)[i].range) == Ok(DayBounds(day)[i])
  {
    KeySets(day);
    WeekdayKeysParse();
    WeekendKeysParse();
  }

  lemma {:induction false} OnlyLastBoundWraps(b: seq<TimeRange>)
    requires DayChain(b)
    ensures forall i :: 0 <= i < |b| ==> (Wraps(b[i]) <==> i == |b| - 1)
  {
  }

  /** In each table exactly one range wraps midnight, the last one, `23:00-06:00`. */
  lemma OnlyLastWraps(day: int)
    requires 0 <= day <= 6
    ensures forall i :: 0 <= i < |ScheduleForDay(day)| ==>
      && ParseTimeRange(ScheduleForDay(day)[i].range).Ok?
      && (Wraps(ParseTimeRange(ScheduleForDay(day)[i].range).value) <==> i == |ScheduleForDay(day)| - 1)
  {
    var table, b := ScheduleForDay(day), DayBounds(day);
    DayKeysParse(day);
    DayChains();
    OnlyLastBoundWraps(b);
    forall i | 0 <= i < |table|
      ensures ParseTimeRange(table[i].range).Ok?
      ensures Wraps(ParseTimeRange(table[i].range).value) <==> i == |table| - 1
    {
      assert ParseTimeRange(table[i].range).value == b[i];
    }
  }

  /** The last key of every table is `23:00-06:00`. */
  lemma LastKeyIsOvernight(day: int)
    requires 0 <= day <= 6
    ensures ScheduleForDay(day)[|ScheduleForDay(day)| - 1].range == "23:00-06:00"
  {
    KeySets(day);
  }

  /** Every time of every day of the week has an activity, and the lookup never raises. */
  lemma {:induction false} ActivityAlwaysFound(day: int, t: TimeOfDay)
    requires 0 <= day <= 6
    ensures Lookup(ScheduleForDay(day), t).Ok?
    ensures Lookup(ScheduleForDay(day), t).value.Some?
  {
    var table := ScheduleForDay(day);
    DayKeysParse(day);
    DayChains();
    var i := ChainCovers(DayBounds(day), t);
    forall j | 0 <= j < |table| ensures ParsesAt(table, j) {
    }
    LookupFindsCover(table, t, i);
  }

  /** Any other day number reads the empty default table: no activity, no error. */
  lemma NoActivityOffWeek(day: int, t: TimeOfDay)
    requires !(0 <= day <= 6)
    ensures Lookup(ScheduleForDay(day), t) == Ok(None)
  {
    ScheduleForDayWeek(day);
  }

  lemma MondayOpeningKeys()
    ensures ParseTimeRange(MondaySchedule[0].range) == Ok(Span(6, 0, 7, 0))
    ensures ParseTimeRange(MondaySchedule[1].range) == Ok(Span(7, 0, 8, 30))
  {
    assert MondaySchedule[0].range == FormatRange(Span(6, 0, 7, 0));
    assert MondaySchedule[1].range == FormatRange(Span(7, 0, 8, 30));
    ParseFormatRange(Span(6, 0, 7, 0));
    ParseFormatRange(Span(7, 0, 8, 30));
  }

  /**
    At a shared boundary the earlier range wins: from 06:00 up to and
    including 07:00 Monday is the `06:00-07:00` activity ...
   */
  lemma BoundaryGoesToEarlierRange(t: TimeOfDay)
    requires TimeOfDay(6, 0, 0, 0).Ticks() <= t.Ticks() <= TimeOfDay(7, 0, 0, 0).Ticks()
    ensures Lookup(MondaySchedule, t) == Ok(Some(MondaySchedule[0].activity))
  {
    MondayOpeningKeys();
    LookupFirstMatch(MondaySchedule, t, 0);
  }

  /** ... and any time after 07:00, up to 08:30, is the `07:00-08:30` one. */
  lemma JustAfterBoundary(t: TimeOfDay)
    requires TimeOfDay(7, 0, 0, 0).Ticks() < t.Ticks() <= TimeOfDay(8, 30, 0, 0).Ticks()
    ensures Lookup(MondaySchedule, t) == Ok(Some(MondaySchedule[1].activity))
  {
    MondayOpeningKeys();
    LookupSkip(MondaySchedule, t, Span(6, 0, 7, 0));
    var rest := MondaySchedule[1..];
    assert rest[0] == MondaySchedule[1];
    LookupFirstMatch(rest, t, 0);
  }

  lemma OvernightKey()
    ensures ParseTimeRange("23:00-06:00") == Ok(Span(23, 0, 6, 0))
  {
    assert "23:00-06:00" == FormatRange(Span(23, 0, 6, 0));
    ParseFormatRange(Span(23, 0, 6, 0));
  }

  /**
    A table holding only `23:00-06:00` matches from 23:00 on and up to
    06:00 (so 23:30 and 02:00) ...
   */
  lemma OvernightMatchesNight(t: TimeOfDay)
    requires t.Ticks() >= TimeOfDay(23, 0, 0, 0).Ticks() || t.Ticks() <= TimeOfDay(6, 0, 0, 0).Ticks()
    ensures Lookup([Entry("23:00-06:00", "sleep")], t) == Ok(Some("sleep"))
  {
    OvernightKey();
    LookupFirstMatch([Entry("23:00-06:00", "sleep")], t, 0);
  }

  /** ... and finds nothing strictly between 06:00 and 23:00 (so not at 12:00). */
  lemma OvernightMissesDaytime(t: TimeOfDay)
    requires TimeOfDay(6, 0, 0, 0).Ticks() < t.Ticks() < TimeOfDay(23, 0, 0, 0).Ticks()
    ensures Lookup([Entry("23:00-06:00", "sleep")], t) == Ok(None)
  {
    var table := [Entry("23:00-06:00", "sleep")];
    OvernightKey();
    assert table[0].range == "23:00-06:00";
    LookupNoMatch(table, t);
  }
}
