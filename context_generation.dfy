/**
  The current-activity lookup: parse each `"HH:MM-HH:MM"` key of the day's
  table, and return the activity of the first range that contains the time
  of day. A range whose start is later than its end wraps midnight. Both
  ends of a range are inclusive.
 */
module ContextGeneration {
  import opened Wrappers
  import opened Exceptions
  import opened Text
  import opened Schedules

  /** Python's `datetime.time`: hour, minute, second and microsecond. */
  datatype TimeOfDay = TimeOfDay(hour: nat, minute: nat, second: nat, micro: nat) {

    predicate Valid() {
      hour < 24 && minute < 60 && second < 60 && micro < 1000000
    }

    /** Microseconds since midnight; comparing these compares the times. */
    function Ticks(): nat {
      ((hour * 60 + minute) * 60 + second) * 1000000 + micro
    }
  }

  /** A parsed key: the start and end time of a range. */
  datatype TimeRange = TimeRange(start: TimeOfDay, end: TimeOfDay)

  /** On valid times, tick order is the field-by-field (lexicographic) order Python uses. */
  lemma TicksOrderIsLexicographic(a: TimeOfDay, b: TimeOfDay)
    requires a.Valid() && b.Valid()
    ensures a.Ticks() < b.Ticks() <==>
      || a.hour < b.hour
      || (a.hour == b.hour && a.minute < b.minute)
      || (a.hour == b.hour && a.minute == b.minute && a.second < b.second)
      || (a.hour == b.hour && a.minute == b.minute && a.second == b.second && a.micro < b.micro)
  {
  }

  predicate IsDigit(ch: char) {
    '0' <= ch <= '9'
  }

  function DigitValue(ch: char): nat
    requires IsDigit(ch)
  {
    (ch as int - '0' as int) as nat
  }

  /**
    One `strptime` numeric field (`%H` with `max` 23, `%M` with `max` 59):
    a single digit, or two digits whose value is at most `max`.
   */
  function Field(s: string, max: nat): (r: Option<nat>)
    ensures r.Some? ==> r.value <= max || |s| == 1
    ensures r.Some? ==> 1 <= |s| <= 2 && forall i :: 0 <= i < |s| ==> IsDigit(s[i])
  {
    if |s| == 1 && IsDigit(s[0]) then Some(DigitValue(s[0]))
    else if |s| == 2 && IsDigit(s[0]) && IsDigit(s[1]) && 10 * DigitValue(s[0]) + DigitValue(s[1]) <= max
    then Some(10 * DigitValue(s[0]) + DigitValue(s[1]))
    else None
  }

  /** `datetime.strptime(s, "%H:%M").time()`. */
  function ParseClock(s: string): (r: Result<TimeOfDay>)
    ensures r.Ok? ==> r.value.Valid() && r.value.second == 0 && r.value.micro == 0
  {
    var parts := Split(s, ':');
    if |parts| != 2 then Err(ValueError("time data '" + s + "' does not match format '%H:%M'"))
    else
      match (Field(parts[0], 23), Field(parts[1], 59))
      case (Some(h), Some(m)) => Ok(TimeOfDay(h, m, 0, 0))
      case _ => Err(ValueError("time data '" + s + "' does not match format '%H:%M'"))
  }

  /** `_parse_time_range`: split the key on `-` into exactly two clock times. */
  function ParseTimeRange(key: string): (r: Result<TimeRange>)
    ensures r.Ok? ==> Count(key, '-') == 1
    ensures r.Ok? ==> r.value.start.Valid() && r.value.end.Valid()
  {
    var parts := Split(key, '-');
    if |parts| < 2 then Err(ValueError("not enough values to unpack (expected 2, got 1)"))
    else if |parts| > 2 then Err(ValueError("too many values to unpack (expected 2)"))
    else
      var start :- ParseClock(parts[0]);
      var end :- ParseClock(parts[1]);
      Ok(TimeRange(start, end))
  }

  /** A range with start after end wraps midnight. */
  predicate Wraps(r: TimeRange) {
    r.start.Ticks() > r.end.Ticks()
  }

  /** Whether the time `t` falls in the range, both ends included. */
  predicate Matches(r: TimeRange, t: TimeOfDay) {
    if Wraps(r) then t.Ticks() >= r.start.Ticks() || t.Ticks() <= r.end.Ticks()
    else r.start.Ticks() <= t.Ticks() <= r.end.Ticks()
  }

  /**
    The activity of the first entry whose range contains `t`, trying the
    entries in table order; `None` when none does. A key that does not
    parse raises, but only if no earlier entry matched.
   */
  function Lookup(table: seq<Entry>, t: TimeOfDay): Result<Option<string>> {
    if table == [] then Ok(None)
    else
      var range :- ParseTimeRange(table[0].range);
      if Matches(range, t) then Ok(Some(table[0].activity))
      else Lookup(table[1..], t)
  }

  ghost predicate ParsesAt(table: seq<Entry>, i: nat)
    requires i < |table|
  {
    ParseTimeRange(table[i].range).Ok?
  }

  ghost predicate MatchesAt(table: seq<Entry>, i: nat, t: TimeOfDay)
    requires i < |table|
  {
    ParseTimeRange(table[i].range).Ok? && Matches(ParseTimeRange(table[i].range).value, t)
  }

  /** The entry returned is the first one that matches: earlier entries parse but do not match. */
  lemma {:induction false} LookupFirstMatch(table: seq<Entry>, t: TimeOfDay, i: nat)
    requires i < |table|
    requires forall j :: 0 <= j < i ==> ParsesAt(table, j) && !MatchesAt(table, j, t)
    requires MatchesAt(table, i, t)
    ensures Lookup(table, t) == Ok(Some(table[i].activity))
  {
    if i > 0 {
      assert ParsesAt(table, 0) && !MatchesAt(table, 0, t);
      var rest := table[1..];
      forall j | 0 <= j < i - 1 ensures ParsesAt(rest, j) && !MatchesAt(rest, j, t) {
        assert rest[j] == table[j + 1];
        assert ParsesAt(table, j + 1) && !MatchesAt(table, j + 1, t);
      }
      assert rest[i - 1] == table[i];
      LookupFirstMatch(rest, t, i - 1);
    }
  }

  /** An entry that parses and does not match is skipped. */
  lemma LookupSkip(table: seq<Entry>, t: TimeOfDay, r: TimeRange)
    requires table != [] && ParseTimeRange(table[0].range) == Ok(r) && !Matches(r, t)
    ensures Lookup(table, t) == Lookup(table[1..], t)
  {
  }

  /** When every key parses and none matches, the lookup finds nothing. */
  lemma {:induction false} LookupNoMatch(table: seq<Entry>, t: TimeOfDay)
    requires forall j :: 0 <= j < |table| ==> ParsesAt(table, j) && !MatchesAt(table, j, t)
    ensures Lookup(table, t) == Ok(None)
  {
    if table != [] {
      assert ParsesAt(table, 0) && !MatchesAt(table, 0, t);
      var rest := table[1..];
      forall j | 0 <= j < |rest| ensures ParsesAt(rest, j) && !MatchesAt(rest, j, t) {
        assert rest[j] == table[j + 1];
        assert ParsesAt(table, j + 1) && !MatchesAt(table, j + 1, t);
      }
      LookupNoMatch(rest, t);
    }
  }

  /** When every key parses and some entry matches, the lookup returns an activity. */
  lemma {:induction false} LookupFindsCover(table: seq<Entry>, t: TimeOfDay, i: nat)
    requires forall j :: 0 <= j < |table| ==> ParsesAt(table, j)
    requires i < |table| && MatchesAt(table, i, t)
    ensures Lookup(table, t).Ok? && Lookup(table, t).value.Some?
  {
    assert ParsesAt(table, 0);
    if !MatchesAt(table, 0, t) {
      var rest := table[1..];
      forall j | 0 <= j < |rest| ensures ParsesAt(rest, j) {
        assert rest[j] == table[j + 1];
        assert ParsesAt(table, j + 1);
      }
      assert i > 0 && rest[i - 1] == table[i];
      LookupFindsCover(rest, t, i - 1);
    }
  }

  /** `SCHEDULES`: days 0 (Monday) to 6 (Sunday). */
  const DaySchedules: map<int, seq<Entry>> := map[
    0 := MondaySchedule, 1 := TuesdaySchedule, 2 := WednesdaySchedule, 3 := ThursdaySchedule,
    4 := FridaySchedule, 5 := SaturdaySchedule, 6 := SundaySchedule]

  /** `SCHEDULES.get(day, {})` over a timetable `week`: the day's table, or an empty one. */
  function DayTable(week: map<int, seq<Entry>>, day: int): seq<Entry> {
    if day in week then week[day] else []
  }

  /** `get_schedule_for_day`: the day's table in `SCHEDULES`. */
  function ScheduleForDay(day: int): seq<Entry> {
    DayTable(DaySchedules, day)
  }

  lemma ScheduleForDayWeek(day: int)
    ensures 0 <= day <= 6 ==> ScheduleForDay(day) == [
      MondaySchedule, TuesdaySchedule, WednesdaySchedule, ThursdaySchedule,
      FridaySchedule, SaturdaySchedule, SundaySchedule][day]
    ensures !(0 <= day <= 6) ==> ScheduleForDay(day) == []
  {
  }

  /**
    `get_current_activity`, with the day of the week and the time of day as
    parameters instead of a clock reading, and the timetable as a parameter
    too (the source reads `SCHEDULES`, which is `DaySchedules`): the loop
    over the day's items with an early return.
   */
  method GetCurrentActivity(week: map<int, seq<Entry>>, day: int, now: TimeOfDay) returns (r: Result<Option<string>>)
    ensures r == Lookup(DayTable(week, day), now)
  {
    var schedule := DayTable(week, day);
    var i := 0;
    while i < |schedule|
      invariant 0 <= i <= |schedule|
      invariant Lookup(schedule, now) == Lookup(schedule[i..], now)
    {
      assert schedule[i..][0] == schedule[i] && schedule[i..][1..] == schedule[i + 1..];
      var parsed := ParseTimeRange(schedule[i].range);
      if parsed.Err? {
        return Err(parsed.error);
      }
      var startTime, endTime := parsed.value.start, parsed.value.end;
      if startTime.Ticks() > endTime.Ticks() {
        if now.Ticks() >= startTime.Ticks() || now.Ticks() <= endTime.Ticks() {
          return Ok(Some(schedule[i].activity));
        }
      } else {
        if startTime.Ticks() <= now.Ticks() <= endTime.Ticks() {
          return Ok(Some(schedule[i].activity));
        }
      }
      i := i + 1;
    }
    return Ok(None);
  }
}
