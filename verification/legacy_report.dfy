/** The report that FatigueCalc3.main derives from a simulated run: a
    three-level category per hour, the hour-of-day column, and the console
    summary (average, extremes and the hours at which they occur, counts of
    low and moderate hours). */
module LegacyReport {
  import opened Common

  datatype Level = Low | Moderate | High

  /** categorize: below 60 is Low, below 80 Moderate, anything else High. */
  function Categorize(score: real): Level
  {
    if score < 60.0 then Low else if score < 80.0 then Moderate else High
  }

  predicate IsLowScore(score: real) { score < 60.0 }

  predicate IsModerateScore(score: real) { 60.0 <= score < 80.0 }

  predicate IsBelowHigh(score: real) { score < 80.0 }

  /** The "Performance Category" column. */
  function CategoryColumn(performances: seq<real>): (c: seq<Level>)
    ensures |c| == |performances|
    ensures forall i :: 0 <= i < |c| ==> (c[i] == Low <==> performances[i] < 60.0)
    ensures forall i :: 0 <= i < |c| ==> (c[i] == High <==> performances[i] >= 80.0)
  {
    seq(|performances|, i requires 0 <= i < |performances| => Categorize(performances[i]))
  }

  /** The "Time of Day" column: every entry is an hour of the day that differs
      from the time point by a whole number of days. */
  function TimeOfDayColumn(timePoints: seq<int>): (c: seq<int>)
    ensures |c| == |timePoints|
    ensures forall i :: 0 <= i < |c| ==> 0 <= c[i] < 24 && (timePoints[i] - c[i]) % 24 == 0
  {
    seq(|timePoints|, i requires 0 <= i < |timePoints| => timePoints[i] % 24)
  }

  datatype Summary = Summary(averagePerf: real, minPerf: real, maxPerf: real,
                             timeMin: int, timeMax: int, lowPeriods: nat, moderatePeriods: nat)

  /** An empty run makes `sum(...) / len(...)` divide by zero. */
  datatype SummaryError = EmptyRun

  /** The console summary of main. */
  function Summarize(timePoints: seq<int>, performances: seq<real>): Result<Summary, SummaryError>
    requires |timePoints| == |performances|
  {
    if |performances| == 0 then Err(EmptyRun)
    else
      Ok(Summary(Mean(performances), Min(performances), Max(performances),
                 timePoints[FirstMinIndex(performances)] % 24,
                 timePoints[FirstMaxIndex(performances)] % 24,
                 CountIf(performances, IsLowScore), CountIf(performances, IsModerateScore)))
  }

  /** The summary fails exactly on an empty run; otherwise the low and
      moderate counts together are the hours below 80 (at most the run
      length), the average lies between the extremes, and both reported
      hours are hours of the day. */
  lemma SummaryIsConsistent(timePoints: seq<int>, performances: seq<real>)
    requires |timePoints| == |performances|
    ensures Summarize(timePoints, performances).Err? <==> |performances| == 0
    ensures Summarize(timePoints, performances).Ok? ==>
      var r := Summarize(timePoints, performances).value;
      && r.lowPeriods + r.moderatePeriods == CountIf(performances, IsBelowHigh) <= |performances|
      && r.minPerf <= r.averagePerf <= r.maxPerf
      && 0 <= r.timeMin < 24 && 0 <= r.timeMax < 24
  {
    if |performances| > 0 {
      CountIfUnion(performances, IsLowScore, IsModerateScore, IsBelowHigh);
      MeanBetweenMinMax(performances);
    }
  }

  /** On a run whose time points are 0, 1, 2, ..., the reported hour of the
      minimum is the hour of day of the FIRST hour k attaining it. */
  lemma HourOfMinimum(timePoints: seq<int>, performances: seq<real>, k: nat)
    requires |timePoints| == |performances|
    requires forall i :: 0 <= i < |timePoints| ==> timePoints[i] == i
    requires k < |performances|
    requires forall j :: 0 <= j < |performances| ==> performances[k] <= performances[j]
    requires forall j :: 0 <= j < k ==> performances[j] != performances[k]
    ensures Summarize(timePoints, performances).Ok?
    ensures Summarize(timePoints, performances).value.timeMin == k % 24
    ensures Summarize(timePoints, performances).value.minPerf == performances[k]
  {
    var f := FirstMinIndex(performances);
    assert f == k;
  }

  /** Likewise the reported hour of the maximum is that of the first hour
      attaining it. */
  lemma HourOfMaximum(timePoints: seq<int>, performances: seq<real>, k: nat)
    requires |timePoints| == |performances|
    requires forall i :: 0 <= i < |timePoints| ==> timePoints[i] == i
    requires k < |performances|
    requires forall j :: 0 <= j < |performances| ==> performances[j] <= performances[k]
    requires forall j :: 0 <= j < k ==> performances[j] != performances[k]
    ensures Summarize(timePoints, performances).Ok?
    ensures Summarize(timePoints, performances).value.timeMax == k % 24
    ensures Summarize(timePoints, performances).value.maxPerf == performances[k]
  {
    var f := FirstMaxIndex(performances);
    assert f == k;
  }

  /** The counts printed by the summary agree with the category column: as
      many "Low" labels as low periods, as many "Moderate" labels as moderate
      periods. */
  lemma LabelsMatchCounts(timePoints: seq<int>, performances: seq<real>)
    requires |timePoints| == |performances| > 0
    ensures CountIf(performances, x => Categorize(x) == Low) == Summarize(timePoints, performances).value.lowPeriods
    ensures CountIf(performances, x => Categorize(x) == Moderate) == Summarize(timePoints, performances).value.moderatePeriods
  {
    CountIfSame(performances, x => Categorize(x) == Low, IsLowScore);
    CountIfSame(performances, x => Categorize(x) == Moderate, IsModerateScore);
  }
}
