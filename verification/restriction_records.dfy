/** The per-hour records that both sleep-restriction notebooks append for
    every simulated run (notebooks/sleep_restriction_analysis.py and
    notebooks/sleep_restriction_analysis_simple.py). */
module RestrictionRecords {

  datatype HourRecord = HourRecord(sleepDuration: int, timeHours: int, day: int, hourOfDay: int, performance: real)

  /** The record of time point t: day numbers start at 1, the hour of the
      day and the day together give back the time point. */
  function RecordFor(sleepDuration: int, t: int, performance: real): (r: HourRecord)
    ensures r.sleepDuration == sleepDuration && r.timeHours == t && r.performance == performance
    ensures 0 <= r.hourOfDay < 24
    ensures t == 24 * (r.day - 1) + r.hourOfDay
    ensures t >= 0 ==> r.day >= 1
  {
    HourRecord(sleepDuration, t, t / 24 + 1, t % 24, performance)
  }

  /** The record loop over `zip(time_points, performances)`: one record per
      pair, as many pairs as the shorter list has entries, appended after the
      records of earlier runs. */
  method AppendRecords(data: seq<HourRecord>, sleepDuration: int, timePoints: seq<int>, performances: seq<real>)
    returns (newData: seq<HourRecord>)
    ensures var n := if |timePoints| <= |performances| then |timePoints| else |performances|;
      && |newData| == |data| + n
      && newData[..|data|] == data
      && forall i :: 0 <= i < n ==> newData[|data| + i] == RecordFor(sleepDuration, timePoints[i], performances[i])
  {
    var n := if |timePoints| <= |performances| then |timePoints| else |performances|;
    newData := data;
    var i := 0;
    while i < n
      invariant 0 <= i <= n && |newData| == |data| + i
      invariant newData[..|data|] == data
      invariant forall j :: 0 <= j < i ==> newData[|data| + j] == RecordFor(sleepDuration, timePoints[j], performances[j])
    {
      var t, perf := timePoints[i], performances[i];
      newData := newData + [HourRecord(sleepDuration, t, t / 24 + 1, t % 24, perf)];
      i := i + 1;
    }
  }
}
