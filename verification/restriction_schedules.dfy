/** `create_schedules` of notebooks/sleep_restriction_analysis.py: one 24-hour
    sleep map whose window may cross midnight, and one work map whose window
    does not. */
module RestrictionSchedules {
  import opened Common

  /** The sleep map: quality, quantity, and one flag per hour of the day. */
  datatype SleepSchedule = SleepSchedule(quality: real, quantity: int, asleep: seq<bool>)

  /** The work map: load rating and one flag per hour of the day. */
  datatype WorkSchedule = WorkSchedule(loadRating: int, atWork: seq<bool>)

  /** `(sleep_start + sleep_duration) % 24`. */
  function SleepEnd(sleepStart: int, sleepDuration: int): (e: int)
    ensures 0 <= e < 24
    ensures (sleepStart + sleepDuration - e) % 24 == 0
  {
    var e := (sleepStart + sleepDuration) % 24;
    assert sleepStart + sleepDuration - e == 24 * ((sleepStart + sleepDuration) / 24);
    e
  }

  /** An end after the start is a plain window; otherwise (an end at or
      before the start) the window wraps past midnight. */
  predicate AsleepAt(sleepStart: int, sleepDuration: int, h: int)
  {
    var e := SleepEnd(sleepStart, sleepDuration);
    if e > sleepStart then sleepStart <= h < e else h >= sleepStart || h < e
  }

  /** The sleep flags of the 24 hours. */
  function SleepPattern(sleepStart: int, sleepDuration: int): (p: seq<bool>)
    ensures |p| == 24
    ensures forall h :: 0 <= h < 24 ==> p[h] == AsleepAt(sleepStart, sleepDuration, h)
  {
    seq(24, h requires 0 <= h < 24 => AsleepAt(sleepStart, sleepDuration, h))
  }

  /** The work flags of the 24 hours. */
  function WorkPattern(workStart: int, workEnd: int): (p: seq<bool>)
    ensures |p| == 24
    ensures forall h :: 0 <= h < 24 ==> p[h] == (workStart <= h < workEnd)
  {
    seq(24, h requires 0 <= h < 24 => workStart <= h < workEnd)
  }

  method CreateSchedules(sleepDuration: int, sleepQuality: real, sleepStart: int,
                         workStart: int, workEnd: int, cognitiveLoad: int)
    returns (sleepSchedule: SleepSchedule, workSchedule: WorkSchedule)
    ensures sleepSchedule.quality == sleepQuality && sleepSchedule.quantity == sleepDuration
    ensures sleepSchedule.asleep == SleepPattern(sleepStart, sleepDuration)
    ensures workSchedule.loadRating == cognitiveLoad
    ensures workSchedule.atWork == WorkPattern(workStart, workEnd)
  {
    var sleepEnd := (sleepStart + sleepDuration) % 24;
    var asleep: seq<bool> := [];
    if sleepEnd > sleepStart {
      var h := 0;
      while h < 24
        invariant 0 <= h <= 24 && |asleep| == h
        invariant forall k :: 0 <= k < h ==> asleep[k] == AsleepAt(sleepStart, sleepDuration, k)
      {
        asleep := asleep + [sleepStart <= h < sleepEnd];
        h := h + 1;
      }
    } else {
      var h := 0;
      while h < 24
        invariant 0 <= h <= 24 && |asleep| == h
        invariant forall k :: 0 <= k < h ==> asleep[k] == AsleepAt(sleepStart, sleepDuration, k)
      {
        asleep := asleep + [h >= sleepStart || h < sleepEnd];
        h := h + 1;
      }
    }
    var atWork: seq<bool> := [];
    var h := 0;
    while h < 24
      invariant 0 <= h <= 24 && |atWork| == h
      invariant forall k :: 0 <= k < h ==> atWork[k] == (workStart <= k < workEnd)
    {
      atWork := atWork + [workStart <= h < workEnd];
      h := h + 1;
    }
    sleepSchedule := SleepSchedule(sleepQuality, sleepDuration, asleep);
    workSchedule := WorkSchedule(cognitiveLoad, atWork);
  }

  /** With the start an hour of the day, the map flags the duration modulo
      24 in hours, except that a whole number of days (0 included) flags
      every hour: the end then equals the start and the wrapping branch is
      taken. In particular a duration of 1..23 flags exactly that many
      hours. */
  lemma SleepHours(sleepStart: int, sleepDuration: int)
    requires 0 <= sleepStart < 24
    ensures CountTrue(SleepPattern(sleepStart, sleepDuration)) ==
      (if sleepDuration % 24 == 0 then 24 else sleepDuration % 24)
    ensures 1 <= sleepDuration <= 23 ==> CountTrue(SleepPattern(sleepStart, sleepDuration)) == sleepDuration
  {
    var p := SleepPattern(sleepStart, sleepDuration);
    var d := sleepDuration % 24;
    var e := SleepEnd(sleepStart, sleepDuration);
    var q := sleepDuration / 24;
    assert sleepStart + sleepDuration == 24 * q + (sleepStart + d);
    if sleepStart + d < 24 {
      assert e == sleepStart + d by {
        assert (24 * q + (sleepStart + d)) % 24 == sleepStart + d;
      }
      if d == 0 {
        CountWrappedWindow(p, sleepStart, e);
      } else {
        CountWindow(p, sleepStart, e);
      }
    } else {
      assert e == sleepStart + d - 24 by {
        assert sleepStart + sleepDuration == 24 * (q + 1) + (sleepStart + d - 24);
        assert (24 * (q + 1) + (sleepStart + d - 24)) % 24 == sleepStart + d - 24;
      }
      CountWrappedWindow(p, sleepStart, e);
    }
  }

  /** The notebook's own example: 8 hours from midnight sleeps hours 0..7. */
  lemma EightHoursFromMidnight(h: int)
    requires 0 <= h < 24
    ensures SleepPattern(0, 8)[h] <==> h < 8
  {
  }

  /** A work window inside the day flags end - start hours; one whose start is
      not before its end flags none. */
  lemma WorkHours(workStart: int, workEnd: int)
    ensures 0 <= workStart <= workEnd <= 24 ==> CountTrue(WorkPattern(workStart, workEnd)) == workEnd - workStart
    ensures workStart >= workEnd ==> CountTrue(WorkPattern(workStart, workEnd)) == 0
  {
    var p := WorkPattern(workStart, workEnd);
    if 0 <= workStart <= workEnd <= 24 {
      CountWindow(p, workStart, workEnd);
    }
    if workStart >= workEnd {
      CountNone(p);
    }
  }
}
