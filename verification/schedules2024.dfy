/** The seven-day questionnaire of get_user_inputs (the sleep-debt
    accumulation and the work-day records) and the schedule builder
    `create_schedules` of scripts/FatigueCalcEnhanced2024.py. */
module EnhancedSchedules2024 {
  import opened Common

  /** Hours of sleep a night needs before it adds no debt. */
  const IdealSleep: real := 8.0

  /** The start-hour answer that means "no work that day". */
  const NoWorkAnswer: int := 25

  // ---------------------------------------------------------------------------
  // Sleep history and sleep debt
  // ---------------------------------------------------------------------------

  /** One night as typed in: start and end hour, quality, REM share. */
  datatype NightAnswer = NightAnswer(start: int, end: int, quality: real, remPercentage: real)

  /** One record of the sleep history. */
  datatype Night = Night(start: int, end: int, duration: int, quality: real, remTime: real, nremTime: real)

  function NightFrom(answer: NightAnswer): (n: Night)
    ensures n.start == answer.start && n.end == answer.end && n.quality == answer.quality
    ensures 0 <= n.duration < 24 && (answer.start + n.duration - answer.end) % 24 == 0
    ensures n.remTime + n.nremTime == n.duration as real
    ensures n.remTime == n.duration as real * answer.remPercentage
  {
    var d := HoursBetween(answer.start, answer.end);
    var r := answer.remPercentage;
    assert d as real * r + d as real * (1.0 - r) == d as real;
    Night(answer.start, answer.end, d, answer.quality, d as real * r, d as real * (1.0 - r))
  }

  /** The debt one night adds: the hours it falls short of the ideal. */
  function NightDebt(duration: int): (d: real)
    ensures d >= 0.0 && d >= IdealSleep - duration as real
    ensures d == 0.0 <==> duration as real >= IdealSleep
  {
    if (duration as real) < IdealSleep then IdealSleep - duration as real else 0.0
  }

  /** The debt of a whole history: the sum of the nightly debts. */
  function TotalDebt(nights: seq<Night>): real
  {
    if nights == [] then 0.0 else TotalDebt(nights[..|nights| - 1]) + NightDebt(nights[|nights| - 1].duration)
  }

  /** The day loop of get_user_inputs that records the nights and
      accumulates the debt. */
  method CollectSleepHistory(answers: seq<NightAnswer>) returns (history: seq<Night>, totalSleepDebt: real)
    ensures |history| == |answers|
    ensures forall i :: 0 <= i < |answers| ==> history[i] == NightFrom(answers[i])
    ensures totalSleepDebt == TotalDebt(history)
  {
    history := [];
    totalSleepDebt := 0.0;
    var day := 0;
    while day < |answers|
      invariant 0 <= day <= |answers| && |history| == day
      invariant forall i :: 0 <= i < day ==> history[i] == NightFrom(answers[i])
      invariant totalSleepDebt == TotalDebt(history)
    {
      var night := NightFrom(answers[day]);
      if (night.duration as real) < IdealSleep {
        totalSleepDebt := totalSleepDebt + (IdealSleep - night.duration as real);
      }
      assert (history + [night])[..|history|] == history;
      history := history + [night];
      day := day + 1;
    }
  }

  /** Every night adds between 0 and 8 hours of debt, so a week adds between
      0 and 56. */
  lemma {:induction false} TotalDebtBounds(nights: seq<Night>)
    requires forall i :: 0 <= i < |nights| ==> nights[i].duration >= 0
    ensures 0.0 <= TotalDebt(nights) <= IdealSleep * |nights| as real
  {
    if nights != [] {
      var init := nights[..|nights| - 1];
      assert forall i :: 0 <= i < |init| ==> init[i] == nights[i];
      TotalDebtBounds(init);
      assert IdealSleep * |nights| as real == IdealSleep * |init| as real + IdealSleep;
    }
  }

  /** There is no debt exactly when every night reaches the ideal. */
  lemma {:induction false} NoDebtIffFullNights(nights: seq<Night>)
    ensures TotalDebt(nights) == 0.0 <==> forall i :: 0 <= i < |nights| ==> nights[i].duration as real >= IdealSleep
  {
    if nights != [] {
      var init := nights[..|nights| - 1];
      assert forall i :: 0 <= i < |init| ==> init[i] == nights[i];
      NoDebtIffFullNights(init);
      TotalDebtNonNegative(init);
    }
  }

  lemma {:induction false} TotalDebtNonNegative(nights: seq<Night>)
    ensures TotalDebt(nights) >= 0.0
  {
    if nights != [] {
      TotalDebtNonNegative(nights[..|nights| - 1]);
    }
  }

  // ---------------------------------------------------------------------------
  // Work days
  // ---------------------------------------------------------------------------

  /** One work day as typed in; end and load are not asked for when the start
      is the no-work answer. */
  datatype WorkAnswer = WorkAnswer(start: int, end: int, loadRating: int)

  /** A day off (start and end None, no hours, load 0) or a shift. */
  datatype WorkDay = DayOff | Shift(start: int, end: int, hours: int, loadRating: int)

  function WorkDayFrom(answer: WorkAnswer): (w: WorkDay)
    ensures w.DayOff? <==> answer.start == NoWorkAnswer
    ensures w.Shift? ==>
      && w.start == answer.start && w.end == answer.end && w.loadRating == answer.loadRating
      && 0 <= w.hours < 24 && (answer.start + w.hours - answer.end) % 24 == 0
  {
    if answer.start == NoWorkAnswer then DayOff
    else Shift(answer.start, answer.end, HoursBetween(answer.start, answer.end), answer.loadRating)
  }

  /** The work-day loop of get_user_inputs. */
  method CollectWorkDays(answers: seq<WorkAnswer>) returns (workDays: seq<WorkDay>)
    ensures |workDays| == |answers|
    ensures forall i :: 0 <= i < |answers| ==> workDays[i] == WorkDayFrom(answers[i])
  {
    workDays := [];
    var day := 0;
    while day < |answers|
      invariant 0 <= day <= |answers| && |workDays| == day
      invariant forall i :: 0 <= i < day ==> workDays[i] == WorkDayFrom(answers[i])
    {
      workDays := workDays + [WorkDayFrom(answers[day])];
      day := day + 1;
    }
  }

  // ---------------------------------------------------------------------------
  // create_schedules
  // ---------------------------------------------------------------------------

  /** The sleep schedule: mean quality and duration of the history, one flag
      per simulated hour. */
  datatype SleepSchedule = SleepSchedule(quality: real, quantity: real, asleep: seq<bool>)

  /** The work schedule: the mean load of the shifts (None when there is no
      shift, where numpy's mean of nothing is NaN), one flag per simulated
      hour. */
  datatype WorkSchedule = WorkSchedule(loadRating: Option<real>, atWork: seq<bool>)

  function Qualities(history: seq<Night>): (q: seq<real>)
    ensures |q| == |history| && forall i :: 0 <= i < |q| ==> q[i] == history[i].quality
  {
    seq(|history|, i requires 0 <= i < |history| => history[i].quality)
  }

  function Durations(history: seq<Night>): (d: seq<real>)
    ensures |d| == |history| && forall i :: 0 <= i < |d| ==> d[i] == history[i].duration as real
  {
    seq(|history|, i requires 0 <= i < |history| => history[i].duration as real)
  }

  /** The number of days that have a shift. */
  function ShiftCount(workDays: seq<WorkDay>): nat
  {
    if workDays == [] then 0
    else (if workDays[0].Shift? then 1 else 0) + ShiftCount(workDays[1..])
  }

  /** The total load over the days that have a shift. */
  function ShiftLoadTotal(workDays: seq<WorkDay>): real
  {
    if workDays == [] then 0.0
    else (if workDays[0].Shift? then workDays[0].loadRating as real else 0.0) + ShiftLoadTotal(workDays[1..])
  }

  /** The loads of the days that have a shift: one entry per shift day,
      summing to the total load, and none exactly when every day is off. */
  function ShiftLoads(workDays: seq<WorkDay>): (loads: seq<real>)
    ensures |loads| == ShiftCount(workDays) <= |workDays|
    ensures Sum(loads) == ShiftLoadTotal(workDays)
    ensures |loads| == 0 <==> forall i :: 0 <= i < |workDays| ==> workDays[i].DayOff?
  {
    if workDays == [] then []
    else
      var rest := ShiftLoads(workDays[1..]);
      assert forall i :: 1 <= i < |workDays| ==> workDays[1..][i - 1] == workDays[i];
      match workDays[0]
      case DayOff => rest
      case Shift(_, _, _, load) => [load as real] + rest
  }

  /** Every shift day's load is listed, and every listed load is that of a
      shift day. */
  lemma {:induction false} ShiftLoadsElements(workDays: seq<WorkDay>)
    ensures forall i :: 0 <= i < |workDays| && workDays[i].Shift? ==>
      workDays[i].loadRating as real in ShiftLoads(workDays)
    ensures forall j :: 0 <= j < |ShiftLoads(workDays)| ==>
      exists i :: 0 <= i < |workDays| && workDays[i].Shift? && ShiftLoads(workDays)[j] == workDays[i].loadRating as real
  {
    if workDays != [] {
      var rest := workDays[1..];
      ShiftLoadsElements(rest);
      assert forall i :: 1 <= i < |workDays| ==> rest[i - 1] == workDays[i];
      var loads := ShiftLoads(workDays);
      if workDays[0].Shift? {
        assert loads == [workDays[0].loadRating as real] + ShiftLoads(rest);
        forall j | 0 <= j < |loads|
          ensures exists i :: 0 <= i < |workDays| && workDays[i].Shift? && loads[j] == workDays[i].loadRating as real
        {
          if j == 0 {
            assert loads[0] == workDays[0].loadRating as real;
          } else {
            assert loads[j] == ShiftLoads(rest)[j - 1];
            var k :| 0 <= k < |rest| && rest[k].Shift? && ShiftLoads(rest)[j - 1] == rest[k].loadRating as real;
            assert workDays[k + 1] == rest[k];
            assert workDays[k + 1].Shift? && loads[j] == workDays[k + 1].loadRating as real;
          }
        }
      } else {
        assert loads == ShiftLoads(rest);
        forall j | 0 <= j < |loads|
          ensures exists i :: 0 <= i < |workDays| && workDays[i].Shift? && loads[j] == workDays[i].loadRating as real
        {
          var k :| 0 <= k < |rest| && rest[k].Shift? && loads[j] == rest[k].loadRating as real;
          assert workDays[k + 1] == rest[k];
          assert workDays[k + 1].Shift? && loads[j] == workDays[k + 1].loadRating as real;
        }
      }
    } else {
      assert ShiftLoads(workDays) == [];
    }
  }

  /** Loads are listed in day order: the loads of two stretches of days are
      the loads of the first followed by those of the second. */
  lemma {:induction false} ShiftLoadsConcat(a: seq<WorkDay>, b: seq<WorkDay>)
    ensures ShiftLoads(a + b) == ShiftLoads(a) + ShiftLoads(b)
  {
    if a == [] {
      assert a + b == b;
    } else {
      assert (a + b)[0] == a[0];
      assert (a + b)[1..] == a[1..] + b;
      ShiftLoadsConcat(a[1..], b);
    }
  }

  /** The load of the shift on day i sits after the loads of the shifts of
      the earlier days. */
  lemma ShiftLoadPosition(workDays: seq<WorkDay>, i: int)
    requires 0 <= i < |workDays| && workDays[i].Shift?
    ensures ShiftCount(workDays[..i]) < |ShiftLoads(workDays)|
    ensures ShiftLoads(workDays)[ShiftCount(workDays[..i])] == workDays[i].loadRating as real
  {
    assert workDays == workDays[..i] + workDays[i..];
    ShiftLoadsConcat(workDays[..i], workDays[i..]);
  }

  /** The overnight rule: a window that does not wrap when start <= end, and
      one that wraps past midnight otherwise. */
  predicate InNightWindow(start: int, end: int, hourOfDay: int)
  {
    if start <= end then start <= hourOfDay < end
    else hourOfDay >= start || hourOfDay < end
  }

  /** Hour `hour` uses the record of day (hour // 24) % 7 of the week. */
  predicate AsleepAt(history: seq<Night>, hour: nat)
    requires |history| == 7
  {
    var night := history[(hour / 24) % 7];
    InNightWindow(night.start, night.end, hour % 24)
  }

  predicate WorkingAt(workDays: seq<WorkDay>, hour: nat)
    requires |workDays| == 7
  {
    match workDays[(hour / 24) % 7]
    case DayOff => false
    case Shift(start, end, _, _) => start <= hour % 24 < end
  }

  /** Moving a week ahead lands on the same hour and day of the week. */
  lemma WeekShift(h: nat)
    ensures (h + 168) % 24 == h % 24 && ((h + 168) / 24) % 7 == (h / 24) % 7
  {
    var q, r := h / 24, h % 24;
    assert h + 168 == 24 * (q + 7) + r;
    assert (h + 168) / 24 == q + 7;
  }

  method CreateSchedules(hours: int, history: seq<Night>, workDays: seq<WorkDay>)
    returns (sleepSchedule: SleepSchedule, workSchedule: WorkSchedule)
    requires |history| == 7 && |workDays| == 7
    ensures sleepSchedule.quality == Mean(Qualities(history))
    ensures sleepSchedule.quantity == Mean(Durations(history))
    ensures workSchedule.loadRating ==
      (if |ShiftLoads(workDays)| == 0 then None else Some(Mean(ShiftLoads(workDays))))
    ensures ShiftCount(workDays) > 0 ==>
      workSchedule.loadRating == Some(ShiftLoadTotal(workDays) / ShiftCount(workDays) as real)
    ensures |sleepSchedule.asleep| == |workSchedule.atWork| == (if hours > 0 then hours else 0)
    ensures forall h :: 0 <= h < |sleepSchedule.asleep| ==> sleepSchedule.asleep[h] == AsleepAt(history, h)
    ensures forall h :: 0 <= h < |workSchedule.atWork| ==> workSchedule.atWork[h] == WorkingAt(workDays, h)
    ensures forall h :: 0 <= h < |sleepSchedule.asleep| - 168 ==>
      sleepSchedule.asleep[h + 168] == sleepSchedule.asleep[h] && workSchedule.atWork[h + 168] == workSchedule.atWork[h]
    ensures forall h :: 0 <= h < |workSchedule.atWork| && workDays[(h / 24) % 7].DayOff? ==> !workSchedule.atWork[h]
  {
    var n := if hours > 0 then hours else 0;
    var asleep: seq<bool> := [];
    var hour := 0;
    while hour < n
      invariant 0 <= hour <= n && |asleep| == hour
      invariant forall h :: 0 <= h < hour ==> asleep[h] == AsleepAt(history, h)
    {
      var dayIdx := (hour / 24) % 7;
      var hourOfDay := hour % 24;
      var daySleep := history[dayIdx];
      var isSleepTime;
      if daySleep.start <= daySleep.end {
        isSleepTime := daySleep.start <= hourOfDay < daySleep.end;
      } else {
        isSleepTime := hourOfDay >= daySleep.start || hourOfDay < daySleep.end;
      }
      asleep := asleep + [isSleepTime];
      hour := hour + 1;
    }

    var loads := ShiftLoads(workDays);
    var atWork: seq<bool> := [];
    hour := 0;
    while hour < n
      invariant 0 <= hour <= n && |atWork| == hour
      invariant forall h :: 0 <= h < hour ==> atWork[h] == WorkingAt(workDays, h)
    {
      var dayIdx := (hour / 24) % 7;
      var hourOfDay := hour % 24;
      var isWorkTime;
      match workDays[dayIdx] {
        case DayOff =>
          isWorkTime := false;
        case Shift(start, end, _, _) =>
          isWorkTime := start <= hourOfDay < end;
      }
      atWork := atWork + [isWorkTime];
      hour := hour + 1;
    }

    sleepSchedule := SleepSchedule(Mean(Qualities(history)), Mean(Durations(history)), asleep);
    workSchedule := WorkSchedule(if |loads| == 0 then None else Some(Mean(loads)), atWork);
    forall h | 0 <= h < n - 168
      ensures asleep[h + 168] == asleep[h] && atWork[h + 168] == atWork[h]
    {
      WeekShift(h);
    }
  }

  /** The flags of day `day` of the run, indexed by hour of the day. */
  function DaySleepPattern(history: seq<Night>, day: nat): (p: seq<bool>)
    requires |history| == 7
    ensures |p| == 24
    ensures forall hod :: 0 <= hod < 24 ==> p[hod] == AsleepAt(history, 24 * day + hod)
  {
    seq(24, hod requires 0 <= hod < 24 => AsleepAt(history, 24 * day + hod))
  }

  /** A night entered with hours of the day 0..23 flags exactly its duration
      in hours on its day of the week; equal start and end flag none. */
  lemma DaySleepHours(history: seq<Night>, day: nat)
    requires |history| == 7
    requires var night := history[day % 7];
      && 0 <= night.start < 24 && 0 <= night.end < 24
      && night.duration == HoursBetween(night.start, night.end)
    ensures CountTrue(DaySleepPattern(history, day)) == history[day % 7].duration
  {
    var night := history[day % 7];
    var p := DaySleepPattern(history, day);
    forall hod | 0 <= hod < 24 ensures p[hod] == InNightWindow(night.start, night.end, hod) {
      assert (24 * day + hod) / 24 == day;
      assert (24 * day + hod) % 24 == hod;
    }
    if night.start <= night.end {
      assert night.end - night.start < 24;
      assert night.duration == night.end - night.start;
      CountWindow(p, night.start, night.end);
    } else {
      assert night.duration == night.end - night.start + 24;
      CountWrappedWindow(p, night.start, night.end);
    }
  }
}
