/** The input conversions of the simplified questionnaire and the schedule
    builder `create_enhanced_schedules` of scripts/FatigueCalcEnhanced2025.py.

    The questionnaire answers arrive here already parsed; the defaults the
    prompts fall back on are left to the caller. */
module EnhancedSchedules2025 {
  import opened Common

  // ---------------------------------------------------------------------------
  // Input conversions
  // ---------------------------------------------------------------------------

  /** Sleep quality choice 1..4 mapped onto the 0..1 scale. */
  function QualityFromChoice(choice: int): (q: real)
    ensures 3.0 * q + 1.0 == choice as real
    ensures 0.0 <= q <= 1.0 <==> 1 <= choice <= 4
  {
    (choice - 1) as real / 3.0
  }

  /** The chronotype offset in hours; a choice outside 1..5 counts as 0. */
  function ChronotypeOffset(choice: int): (o: real)
    ensures -2.5 <= o <= 2.5
    ensures o != 0.0 ==> choice in {1, 2, 4, 5}
  {
    if choice == 1 then -2.5
    else if choice == 2 then -1.5
    else if choice == 4 then 1.5
    else if choice == 5 then 2.5
    else 0.0
  }

  /** Hours of sleep debt added for a disruption level; levels other than
      1..4 add nothing. */
  function DisruptionDebt(level: int): (d: real)
    ensures 0.0 <= d <= 12.0
    ensures d > 0.0 <==> 2 <= level <= 4
  {
    if level == 2 then 2.0
    else if level == 3 then 6.0
    else if level == 4 then 12.0
    else 0.0
  }

  /** Earlier chronotypes shift the day earlier, symmetrically about the
      intermediate type 3. */
  lemma ChronotypeOrdered(a: int, b: int)
    requires 1 <= a < b <= 5
    ensures ChronotypeOffset(a) < ChronotypeOffset(b)
    ensures ChronotypeOffset(a) == -ChronotypeOffset(6 - a)
  {
  }

  /** More severe disruption adds strictly more debt. */
  lemma DisruptionDebtIncreasing(a: int, b: int)
    requires 1 <= a < b <= 4
    ensures DisruptionDebt(a) < DisruptionDebt(b)
  {
  }

  datatype SleepAnswers = SleepAnswers(bedtime: int, waketime: int, duration: int, quality: real,
                                       totalSleepDebt: real, disruptionLevel: int)

  /** The dictionary get_simplified_sleep_schedule returns. */
  function SleepAnswersFrom(bedtime: int, waketime: int, qualityChoice: int,
                            enteredDebt: real, disruptionLevel: int): (a: SleepAnswers)
    ensures a.bedtime == bedtime && a.waketime == waketime && a.disruptionLevel == disruptionLevel
    ensures 0 <= a.duration < 24 && (bedtime + a.duration - waketime) % 24 == 0
    ensures 3.0 * a.quality + 1.0 == qualityChoice as real
    ensures a.totalSleepDebt - enteredDebt == DisruptionDebt(disruptionLevel) >= 0.0
  {
    SleepAnswers(bedtime, waketime, HoursBetween(bedtime, waketime), QualityFromChoice(qualityChoice),
                 enteredDebt + DisruptionDebt(disruptionLevel), disruptionLevel)
  }

  /** The dictionary get_simplified_work_schedule returns; `NoWork` has no
      start or end, no hours and load 0. */
  datatype WorkAnswers = NoWork | RegularWork(workStart: int, workEnd: int, workHours: int, cognitiveLoad: int)

  /** Only the answer "n" means no regular work. */
  function WorkAnswersFrom(answer: string, workStart: int, workEnd: int, loadChoice: int): (w: WorkAnswers)
    ensures w.NoWork? <==> answer == "n"
    ensures w.RegularWork? ==>
      && w.workStart == workStart && w.workEnd == workEnd
      && 0 <= w.workHours < 24 && (workStart + w.workHours - workEnd) % 24 == 0
      && w.cognitiveLoad + 1 == loadChoice
  {
    if answer == "n" then NoWork
    else RegularWork(workStart, workEnd, HoursBetween(workStart, workEnd), loadChoice - 1)
  }

  // ---------------------------------------------------------------------------
  // Hour-of-day arithmetic on reals
  // ---------------------------------------------------------------------------

  /** Python's float `x % 24`: x minus the largest multiple of 24 not above it. */
  function Mod24(x: real): (r: real)
    ensures 0.0 <= r < 24.0
    ensures 0.0 <= x < 24.0 ==> r == x
    ensures (x - r) / 24.0 == ((x - r) / 24.0).Floor as real
  {
    var q := (x / 24.0).Floor;
    var r := x - 24.0 * q as real;
    assert (x - r) / 24.0 == q as real;
    r
  }

  /** The least integer not below x. */
  function Ceil(x: real): int
  {
    -((-x).Floor)
  }

  lemma CeilBounds(x: real)
    ensures (Ceil(x) - 1) as real < x <= Ceil(x) as real
  {
  }

  /** Comparing an hour with a real is comparing it with the real's ceiling. */
  lemma CeilCompare(x: real, h: int)
    ensures x <= h as real <==> Ceil(x) <= h
    ensures h as real < x <==> h < Ceil(x)
  {
    CeilBounds(x);
  }

  lemma CeilShift(x: real, k: int)
    ensures Ceil(x + k as real) == Ceil(x) + k
  {
    CeilBounds(x);
    CeilBounds(x + k as real);
  }

  /** Subtracting a multiple of 24 keeps the remainder. */
  lemma ModShift(a: int, k: int)
    ensures (a - 24 * k) % 24 == a % 24
  {
    var q, r := a / 24, a % 24;
    assert a - 24 * k == 24 * (q - k) + r;
  }

  // ---------------------------------------------------------------------------
  // The schedules
  // ---------------------------------------------------------------------------

  /** The sleep schedule: the scalar entries and one flag per simulated hour. */
  datatype SleepSchedule = SleepSchedule(quality: real, quantity: int, debt: real, asleep: seq<bool>)

  /** The work schedule: the scalar entries and one flag per simulated hour. */
  datatype WorkSchedule = WorkSchedule(loadRating: int, dailyHours: int, atWork: seq<bool>)

  /** The overnight rule: a window that does not wrap when start <= end, and
      one that wraps past midnight otherwise. */
  predicate InOvernightWindow(start: real, end: real, hourOfDay: int)
  {
    if start <= end then start <= hourOfDay as real < end
    else hourOfDay as real >= start || hourOfDay as real < end
  }

  /** Whether simulated hour `hour` is a sleep hour: bedtime and wake time are
      moved by the chronotype offset and reduced modulo 24. */
  predicate AsleepAt(sleep: SleepAnswers, chronotypeOffset: real, hour: int)
  {
    InOvernightWindow(Mod24(sleep.bedtime as real + chronotypeOffset),
                      Mod24(sleep.waketime as real + chronotypeOffset), hour % 24)
  }

  /** Whether simulated hour `hour` is a work hour: only with regular work, on
      the first five days of each week, inside a window that does not wrap. */
  predicate WorkingAt(work: WorkAnswers, hour: int)
  {
    work.RegularWork? && (hour / 24) % 7 < 5 && work.workStart <= hour % 24 < work.workEnd
  }

  /** Moving a week ahead lands on the same hour and day of the week. */
  lemma WeekShift(h: int)
    requires h >= 0
    ensures (h + 168) % 24 == h % 24 && ((h + 168) / 24) % 7 == (h / 24) % 7
    ensures (h + 24) % 24 == h % 24
  {
    var q, r := h / 24, h % 24;
    assert h + 168 == 24 * (q + 7) + r;
    assert (h + 168) / 24 == q + 7;
    assert h + 24 == 24 * (q + 1) + r;
  }

  method CreateEnhancedSchedules(predictionHours: int, chronotypeOffset: real,
                                 sleep: SleepAnswers, work: WorkAnswers)
    returns (sleepSchedule: SleepSchedule, workSchedule: WorkSchedule)
    ensures sleepSchedule.quality == sleep.quality && sleepSchedule.quantity == sleep.duration
    ensures sleepSchedule.debt == sleep.totalSleepDebt
    ensures |sleepSchedule.asleep| == |workSchedule.atWork| == (if predictionHours > 0 then predictionHours else 0)
    ensures forall h :: 0 <= h < |sleepSchedule.asleep| ==> sleepSchedule.asleep[h] == AsleepAt(sleep, chronotypeOffset, h)
    ensures forall h :: 0 <= h < |sleepSchedule.asleep| - 24 ==> sleepSchedule.asleep[h + 24] == sleepSchedule.asleep[h]
    ensures workSchedule.loadRating == (if work.RegularWork? then work.cognitiveLoad else 0)
    ensures workSchedule.dailyHours == (if work.RegularWork? then work.workHours else 0)
    ensures forall h :: 0 <= h < |workSchedule.atWork| ==> workSchedule.atWork[h] == WorkingAt(work, h)
    ensures forall h :: 0 <= h < |workSchedule.atWork| - 168 ==> workSchedule.atWork[h + 168] == workSchedule.atWork[h]
    ensures forall h :: 0 <= h < |workSchedule.atWork| && (work.NoWork? || (h / 24) % 7 >= 5) ==> !workSchedule.atWork[h]
  {
    var n := if predictionHours > 0 then predictionHours else 0;
    var asleep: seq<bool> := [];
    var hour := 0;
    while hour < n
      invariant 0 <= hour <= n && |asleep| == hour
      invariant forall h :: 0 <= h < hour ==> asleep[h] == AsleepAt(sleep, chronotypeOffset, h)
    {
      var hourOfDay := hour % 24;
      var adjustedBedtime := Mod24(sleep.bedtime as real + chronotypeOffset);
      var adjustedWaketime := Mod24(sleep.waketime as real + chronotypeOffset);
      var isSleepTime;
      if adjustedBedtime <= adjustedWaketime {
        isSleepTime := adjustedBedtime <= hourOfDay as real < adjustedWaketime;
      } else {
        isSleepTime := hourOfDay as real >= adjustedBedtime || hourOfDay as real < adjustedWaketime;
      }
      asleep := asleep + [isSleepTime];
      hour := hour + 1;
    }

    var atWork: seq<bool> := [];
    hour := 0;
    while hour < n
      invariant 0 <= hour <= n && |atWork| == hour
      invariant forall h :: 0 <= h < hour ==> atWork[h] == WorkingAt(work, h)
    {
      var hourOfDay := hour % 24;
      var isWorkTime;
      if work.RegularWork? {
        var dayOfWeek := (hour / 24) % 7;
        var isWeekend := dayOfWeek >= 5;
        if !isWeekend {
          isWorkTime := work.workStart <= hourOfDay < work.workEnd;
        } else {
          isWorkTime := false;
        }
      } else {
        isWorkTime := false;
      }
      atWork := atWork + [isWorkTime];
      hour := hour + 1;
    }

    sleepSchedule := SleepSchedule(sleep.quality, sleep.duration, sleep.totalSleepDebt, asleep);
    workSchedule := WorkSchedule(if work.RegularWork? then work.cognitiveLoad else 0,
                                 if work.RegularWork? then work.workHours else 0, atWork);
    forall h | 0 <= h < n - 24 ensures asleep[h + 24] == asleep[h] {
      WeekShift(h);
    }
    forall h | 0 <= h < n - 168 ensures atWork[h + 168] == atWork[h] {
      WeekShift(h);
    }
  }

  // ---------------------------------------------------------------------------
  // Hours asleep per day
  // ---------------------------------------------------------------------------

  /** The sleep flags of one day, indexed by hour of the day. */
  function DailySleepPattern(sleep: SleepAnswers, chronotypeOffset: real): (p: seq<bool>)
    ensures |p| == 24
    ensures forall h :: 0 <= h ==> p[h % 24] == AsleepAt(sleep, chronotypeOffset, h)
  {
    seq(24, hod requires 0 <= hod < 24 => AsleepAt(sleep, chronotypeOffset, hod))
  }

  /** After moving both ends by the same offset and reducing them modulo 24,
      the wake time is still the sleep duration after the bedtime: directly
      when the adjusted window does not wrap, and 24 hours earlier when it
      does (which needs a positive duration). */
  lemma AdjustedWindowLength(bedtime: int, waketime: int, offset: real)
    ensures
      var b, w := Mod24(bedtime as real + offset), Mod24(waketime as real + offset);
      var d := HoursBetween(bedtime, waketime);
      && (b <= w ==> w == b + d as real)
      && (b > w ==> w == b + (d - 24) as real && d >= 1)
  {
    var x, y := bedtime as real + offset, waketime as real + offset;
    var fb, fw := (x / 24.0).Floor, (y / 24.0).Floor;
    Mod24Shape(x);
    Mod24Shape(y);
    var n := (waketime - bedtime) - 24 * (fw - fb);
    assert Mod24(y) - Mod24(x) == n as real;
    WrappedDifference(waketime - bedtime, fw - fb, n);
  }

  /** Mod24 takes x down by a whole number of days. */
  lemma Mod24Shape(x: real)
    ensures Mod24(x) == x - 24.0 * (x / 24.0).Floor as real
  {
  }

  /** A difference n that is a - 24 * k and lies strictly within a day of 0
      is a % 24 when not negative and a % 24 - 24 otherwise. */
  lemma WrappedDifference(a: int, k: int, n: int)
    requires n == a - 24 * k && -24 < n < 24
    ensures n >= 0 ==> n == a % 24
    ensures n < 0 ==> n + 24 == a % 24 && a % 24 >= 1
  {
    ModShift(a, k);
    if n < 0 {
      ModShift(n + 24, 1);
    }
  }

  /** Whatever the chronotype offset, every day has exactly as many sleep
      hours as the sleep duration the questionnaire computes. */
  lemma DailySleepHours(sleep: SleepAnswers, chronotypeOffset: real)
    ensures CountTrue(DailySleepPattern(sleep, chronotypeOffset)) == HoursBetween(sleep.bedtime, sleep.waketime)
  {
    var p := DailySleepPattern(sleep, chronotypeOffset);
    var b := Mod24(sleep.bedtime as real + chronotypeOffset);
    var w := Mod24(sleep.waketime as real + chronotypeOffset);
    DailyPatternIsWindow(sleep, chronotypeOffset);
    AdjustedWindowLength(sleep.bedtime, sleep.waketime, chronotypeOffset);
    OvernightWindowCount(p, b, w, HoursBetween(sleep.bedtime, sleep.waketime));
  }

  /** The flag of each hour of the day is the adjusted overnight window. */
  lemma DailyPatternIsWindow(sleep: SleepAnswers, chronotypeOffset: real)
    ensures forall h :: 0 <= h < 24 ==>
      DailySleepPattern(sleep, chronotypeOffset)[h] ==
      InOvernightWindow(Mod24(sleep.bedtime as real + chronotypeOffset),
                        Mod24(sleep.waketime as real + chronotypeOffset), h)
  {
    var p := DailySleepPattern(sleep, chronotypeOffset);
    forall h | 0 <= h < 24
      ensures p[h] == InOvernightWindow(Mod24(sleep.bedtime as real + chronotypeOffset),
                                        Mod24(sleep.waketime as real + chronotypeOffset), h)
    {
      assert h % 24 == h;
      assert p[h % 24] == AsleepAt(sleep, chronotypeOffset, h);
    }
  }

  /** An overnight window whose end lies d hours after its start, round the
      clock, covers d whole hours of the day. */
  lemma OvernightWindowCount(p: seq<bool>, b: real, w: real, d: int)
    requires |p| == 24 && 0.0 <= b < 24.0 && 0.0 <= w < 24.0 && 0 <= d < 24
    requires forall h :: 0 <= h < 24 ==> p[h] == InOvernightWindow(b, w, h)
    requires b <= w ==> w == b + d as real
    requires b > w ==> w == b + (d - 24) as real
    ensures CountTrue(p) == d
  {
    CeilBounds(b);
    CeilBounds(w);
    var cb, cw := Ceil(b), Ceil(w);
    if b <= w {
      CeilShift(b, d);
      forall h | 0 <= h < 24 ensures p[h] == (cb <= h < cw) {
        CeilCompare(b, h);
        CeilCompare(w, h);
      }
      CountWindow(p, cb, cw);
    } else {
      CeilShift(b, d - 24);
      forall h | 0 <= h < 24 ensures p[h] == (h >= cb || h < cw) {
        CeilCompare(b, h);
        CeilCompare(w, h);
      }
      CountWrappedWindow(p, cb, cw);
    }
  }

  /** A bedtime equal to the wake time modulo 24 gives no sleep hour at all. */
  lemma NoSleepWhenBedtimeIsWaketime(sleep: SleepAnswers, chronotypeOffset: real, hour: int)
    requires HoursBetween(sleep.bedtime, sleep.waketime) == 0
    ensures !AsleepAt(sleep, chronotypeOffset, hour)
  {
    AdjustedWindowLength(sleep.bedtime, sleep.waketime, chronotypeOffset);
  }

  /** On a weekday, a regular work window with start <= end inside one day
      flags exactly `workHours` hours; a night shift (start > end) flags none
      although its `workHours` is positive, because the work window does not
      wrap. */
  lemma WeekdayWorkHours(work: WorkAnswers, day: nat)
    requires work.RegularWork? && 0 <= work.workStart < 24 && 0 <= work.workEnd < 24
    requires work.workHours == HoursBetween(work.workStart, work.workEnd)
    requires day % 7 < 5
    ensures var p := seq(24, hod requires 0 <= hod < 24 => WorkingAt(work, 24 * day + hod));
      && (work.workStart <= work.workEnd ==> CountTrue(p) == work.workHours)
      && (work.workStart > work.workEnd ==> CountTrue(p) == 0 < work.workHours)
  {
    var p := seq(24, hod requires 0 <= hod < 24 => WorkingAt(work, 24 * day + hod));
    forall hod | 0 <= hod < 24 ensures p[hod] == (work.workStart <= hod < work.workEnd) {
      assert p[hod] == WorkingAt(work, 24 * day + hod);
      assert (24 * day + hod) / 24 == day;
      assert (24 * day + hod) % 24 == hod;
    }
    if work.workStart <= work.workEnd {
      CountWindow(p, work.workStart, work.workEnd);
    } else {
      CountNone(p);
      var x := work.workStart - work.workEnd;
      assert 0 < x < 24;
    }
  }
}
