/** `create_schedules` of notebooks/sleep_restriction_analysis_simple.py:
    sleep always starts at midnight and never wraps, and neither does work. */
module RestrictionSchedulesSimple {
  import opened Common

  /** Sleep starts at midnight. */
  const SleepStart: int := 0

  /** The sleep map: quality, quantity, and one flag per hour of the day. */
  datatype SleepSchedule = SleepSchedule(quality: real, quantity: int, asleep: seq<bool>)

  /** The work map: load rating and one flag per hour of the day. */
  datatype WorkSchedule = WorkSchedule(loadRating: int, atWork: seq<bool>)

  method CreateSchedules(sleepDuration: int, sleepQuality: real, workStart: int, workEnd: int, cognitiveLoad: int)
    returns (sleepSchedule: SleepSchedule, workSchedule: WorkSchedule)
    ensures sleepSchedule.quality == sleepQuality && sleepSchedule.quantity == sleepDuration
    ensures |sleepSchedule.asleep| == 24 && |workSchedule.atWork| == 24
    ensures forall h :: 0 <= h < 24 ==> sleepSchedule.asleep[h] == (h < sleepDuration)
    ensures workSchedule.loadRating == cognitiveLoad
    ensures forall h :: 0 <= h < 24 ==> workSchedule.atWork[h] == (workStart <= h < workEnd)
    ensures CountTrue(sleepSchedule.asleep) == (if sleepDuration < 0 then 0 else if sleepDuration > 24 then 24 else sleepDuration)
    ensures workStart >= workEnd ==> CountTrue(workSchedule.atWork) == 0
  {
    var sleepEnd := sleepDuration;
    var asleep: seq<bool> := [];
    var h := 0;
    while h < 24
      invariant 0 <= h <= 24 && |asleep| == h
      invariant forall k :: 0 <= k < h ==> asleep[k] == (k < sleepDuration)
    {
      asleep := asleep + [SleepStart <= h < sleepEnd];
      h := h + 1;
    }
    var atWork: seq<bool> := [];
    h := 0;
    while h < 24
      invariant 0 <= h <= 24 && |atWork| == h
      invariant forall k :: 0 <= k < h ==> atWork[k] == (workStart <= k < workEnd)
    {
      atWork := atWork + [workStart <= h < workEnd];
      h := h + 1;
    }
    sleepSchedule := SleepSchedule(sleepQuality, sleepDuration, asleep);
    workSchedule := WorkSchedule(cognitiveLoad, atWork);
    var clamped := if sleepDuration < 0 then 0 else if sleepDuration > 24 then 24 else sleepDuration;
    CountWindow(asleep, 0, clamped);
    if workStart >= workEnd {
      CountNone(atWork);
    }
  }
}
