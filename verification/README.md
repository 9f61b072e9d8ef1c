# Fatigue calculator — a Dafny model of its scheduling, simulation and reporting core

The fatigue calculator predicts hour-by-hour cognitive performance from
sleep and work habits. This project models the deterministic part of it in
Dafny and proves properties of that model:

- **Legacy two-process engine** (`LegacyEngine`, `legacy_engine.dfy`). This
  covers `fatigue_calculator/core.py`, which `FatigueCalc3.py` repeats
  verbatim.
  - The process functions: the homeostatic reservoir, the circadian
    oscillator, sleep inertia, the base score, the workload and the
    workload-scaled score.
  - The simulation loop, which carries the reservoir from hour to hour.
    It is proved against a recursive reference definition.
  - The source's quirks are kept on purpose:
    - the awake decrement is scaled by the absolute hour;
    - sleep windows do not wrap past midnight;
    - the inertia term is added;
    - the carried workload never changes;
    - the score is never clamped.
- **Console report of `FatigueCalc3.main`** (`LegacyReport`,
  `legacy_report.dfy`): the three-level category, the time-of-day column,
  and the summary of average, extremes, their hours and the low/moderate
  counts.
- **Calibration grid search** (`Calibration`, `calibration.dfy`): the
  `optimise_ml_enhancement` function of `fatigue_calculator/calibration.py`.
  It covers the shape check, the evenly spaced grid and the first
  minimiser of the error. The search is stated on the mean squared error,
  whose square root is the RMSE the source returns.
- **Performance zones** (`PerformanceZones`, `zones.dfy`): the four-way
  categorisation shared by the 2024 and 2025 scripts, and the zone
  predicates their analyses count.
- **2025 script** (`EnhancedSchedules2025` in `schedules2025.dfy`,
  `EnhancedReport2025` in `report2025.dfy`):
  - the answer conversions (sleep duration, quality, chronotype offset,
    disruption debt, work hours, load);
  - `create_enhanced_schedules`, whose overnight window is shifted by the
    chronotype and which has weekday-only work;
  - the zone counts and risk percentage of `enhanced_analysis_2025`;
  - the hourly sheet and the daily-summary loop of
    `export_enhanced_data_2025`.
- **2024 script** (`EnhancedSchedules2024` in `schedules2024.dfy`,
  `EnhancedReport2024` in `report2024.dfy`):
  - the 7-night sleep-debt loop and the 7 work days of `get_user_inputs`;
  - `create_schedules`, which cycles through the week;
  - the zone counts of `enhanced_analysis`;
  - the category and risk-label columns of `export_enhanced_data`.
- **Sleep-restriction notebooks**:
  - `RestrictionSchedules` (`restriction_schedules.dfy`): the
    midnight-crossing `create_schedules`.
  - `RestrictionSchedulesSimple` (`restriction_schedules_simple.dfy`): the
    non-wrapping `create_schedules`.
  - `RestrictionRecords` (`restriction_records.dfy`): the per-hour record
    loop both notebooks share.

`Common` (`common.dfy`) holds the shared vocabulary:
- `Option` and `Result`;
- `HoursBetween`, the Python `(to - from) % 24`;
- the counts `CountTrue` and `CountIf`;
- `Sum`, `Mean`, `Min` and `Max`;
- the first-index arg-min and arg-max behind `argmin` and `list.index`.

How the source's constructs become Dafny:
- A Python dict that mixes string keys with hour keys becomes a record
  datatype. Its hour flags are a `seq<bool>` indexed by hour.
- Each schedule builder is a `method` with the source's `for` loops. The
  method is proved equal, hour by hour, to a predicate. The counting and
  periodicity lemmas are stated about that predicate.
- Python `//` and `%` with a positive divisor agree with Dafny's Euclidean
  operators. The two float `%`s in the source, the chronotype-shifted
  bedtime and waketime, are written with `Floor` (`Mod24`).
- The input and sources that the model does not evaluate become
  parameters:
  - `math.cos`, `math.exp` and `math.pi` are fields of the `Transcendentals`
    value passed to the engine;
  - every prompt answer is a parameter of the function that converts it.

## Model

| member | source | states |
|---|---|---|
| LegacyEngine.AwakeLossScalesWithHour | fatigue_calculator/core.py:7-19 | Awake, the reservoir drops by exactly K_adjusted · t for the absolute hour t. K_adjusted is 0.5 for 8 hours of sleep, so the drop is then 0.5 · t. |
| LegacyEngine.AwakeLossGrowsWithTime | fatigue_calculator/core.py:8-9 | For sleep quantities up to 18 h, a later hour takes at least as much from the same previous level as an earlier one. |
| LegacyEngine.AsleepStepIsAffine | fatigue_calculator/core.py:10-17 | Asleep, the new level ignores the hour and the sleep quantity. It is affine in the previous level with slope quality · (1 - e^-1), and its value at 0 is 0.235 + c · (ai - 0.235). FatigueCalc3.py:10-22 repeats the step verbatim. |
| LegacyEngine.InertiaOnlyAtStart | fatigue_calculator/core.py:28-35 | Sleep inertia is 0 from hour 2 on and 5 at hour 0. |
| LegacyEngine.FullReservoirScore | fatigue_calculator/core.py:37-42 | At a full reservoir (2880) the score is 100 + 7 · Ct + It. Inertia is added: raising It by d raises the score by d. |
| LegacyEngine.ScoreNotClamped | fatigue_calculator/core.py:37-42 | A reservoir above 2880 gives a score above 100; nothing clamps it. |
| LegacyEngine.WorkloadFromRest | fatigue_calculator/core.py:44-56 | A workload of 0 leaves the base score unchanged. From no carry-over the workload is +11 asleep and -1.14 · (1 + load) awake. |
| LegacyEngine.AwakeWorkRaisesScore | fatigue_calculator/core.py:44-56 | At an awake work hour with load ≥ 0, the factor (Wc - Wt) / Wc exceeds 1, so a positive base score goes up at work. |
| LegacyEngine.CircadianPeriodic | fatigue_calculator/core.py:21-26 | If cos has period 2π, the oscillator has period 24 hours. |
| LegacyEngine.AngleAdvance | fatigue_calculator/core.py:26 | A day later each cosine's angle c·(t - k)/24 has advanced by one full c. |
| LegacyEngine.SimulateCognitivePerformance | fatigue_calculator/core.py:58-90 | The three lists all have length max(hours, 0). time_points[i] == i. Every circadian entry and every score is the reference value for that hour: the reservoir is seeded with 2400 at hour 0 and carried from the previous iteration afterwards. FatigueCalc3.py:61-93 repeats the loop verbatim. |
| LegacyEngine.SeedAtHourZero | fatigue_calculator/core.py:69-76 | Hour 0 starts from 2400. Awake at hour 0 the reservoir stays exactly 2400, because K_adjusted · 0 vanishes. Asleep, it is the affine recovery step applied to 2400. |
| LegacyEngine.InvertedWindowNeverSleeps | fatigue_calculator/core.py:66 | With sleep_start ≥ sleep_end (22 → 6, say) no hour of the run is asleep, because the window does not wrap. |
| LegacyEngine.ReservoirWithoutSleep | fatigue_calculator/core.py:19 | With no sleep hour, the reservoir after hour t is 2400 - K_adjusted · (0 + 1 + … + t), a loss that grows quadratically. |
| LegacyEngine.TriangleClosedForm | fatigue_calculator/core.py:19 | The accumulated hours 0 + 1 + … + t equal t(t+1)/2, so the loss above is K_adjusted · t(t+1)/2. |
| LegacyEngine.AwakeSteps | fatigue_calculator/core.py:18-19 | With the sleep window inverted, every hour j ≥ 1 lowers the level of hour j - 1 by K_adjusted · j. |
| LegacyEngine.LossFromSteps | fatigue_calculator/core.py:19 | A reservoir that starts at 2400 and loses K_adjusted · j in every hour j has lost K_adjusted · (0 + 1 + … + t) after hour t. |
| LegacyEngine.TriangularLoss | fatigue_calculator/core.py:19 | Any level that starts at s and drops by k · i at step i stands at s - k · (0 + 1 + … + t) after step t. |
| LegacyEngine.ScoreAtWorkHours | fatigue_calculator/core.py:59 | At any reservoir level, the hour's score away from work is the plain formula. At an awake work hour it is the plain formula times 1 + 1.14 · (1 + load) / 75, and asleep at work it is the plain formula times 64/75. Because Wt_prev stays 0, the factor is the same at every such hour. |
| LegacyEngine.AwakeStep | fatigue_calculator/core.py:73-76 | After hour 0, an awake hour takes K_adjusted · t from the level the previous hour produced. |
| LegacyReport.CategoryColumn | FatigueCalc3.py:111-117 | One label per score: Low exactly below 60, High exactly from 80 up, Moderate in between. |
| LegacyReport.TimeOfDayColumn | FatigueCalc3.py:122 | Every entry is an hour of the day in [0, 23] and differs from its time point by whole days. |
| LegacyReport.SummaryIsConsistent | FatigueCalc3.py:130-136 | The summary fails exactly on an empty run. Otherwise low + moderate periods equal the hours below 80, which are at most the run length; min ≤ average ≤ max; and both reported hours lie in [0, 23]. |
| LegacyReport.HourOfMinimum | FatigueCalc3.py:131-133 | On time points 0, 1, 2, …, the hour of the minimum is the first hour attaining it, taken modulo 24. |
| LegacyReport.HourOfMaximum | FatigueCalc3.py:132-134 | Likewise for the maximum. |
| LegacyReport.LabelsMatchCounts | FatigueCalc3.py:111-136 | The number of Low and Moderate labels equals the printed low and moderate counts. |
| Calibration.Grid | fatigue_calculator/calibration.py:87 | The grid has exactly `steps` candidates. |
| Calibration.GridShape | fatigue_calculator/calibration.py:86-87 | The grid starts at low and ends at high. Consecutive points are (high - low) / (steps - 1) apart. |
| Calibration.GridStep | fatigue_calculator/calibration.py:87 | One step along the grid adds (high - low) / (steps - 1), and index steps - 1 is high. |
| Calibration.LinearStep | fatigue_calculator/calibration.py:87 | The point formula low + x·w/n rises by exactly w/n from x to x + 1 and reaches low + w at x = n. |
| Calibration.ErrorProfile | fatigue_calculator/calibration.py:89-92 | There is one error per grid candidate. |
| Calibration.SquaredErrorSumNonNegative | fatigue_calculator/calibration.py:92 | The sum of squared residuals is at least 0. |
| Calibration.SquaredErrorSumPositive | fatigue_calculator/calibration.py:92 | One mismatching point makes the sum of squared residuals strictly positive. |
| Calibration.MeanSquaredErrorNonNegative | fatigue_calculator/calibration.py:91-92 | Every candidate's error is at least 0, so the RMSE is defined. |
| Calibration.FailsExactlyOnBadShape | fatigue_calculator/calibration.py:83-84 | The search fails exactly when the lengths differ or the grid has no points. Different lengths give the shape error. |
| Calibration.ResultIsFirstGridMinimiser | fatigue_calculator/calibration.py:91-95 | On non-empty data the result is a grid candidate. Its error is ≤ every candidate's error, no earlier candidate attains it, and it is ≥ 0. |
| Calibration.EmptyDataGivesFirstFactor | fatigue_calculator/calibration.py:91-95 | With no data points every RMSE is NaN, and the search returns the first grid point. |
| Calibration.PerfectPredictionsGiveIdentity | tests/test_calibration.py:9-11 | Predictions equal to a truth that is not all zero, on the default grid 0.5 … 1.5 in 201 steps, give factor exactly 1.0 and error 0. |
| Calibration.ZeroErrorAtIdentity | fatigue_calculator/calibration.py:92 | Factor 1 reproduces identical series with error 0. |
| Calibration.AllZeroDataGivesFirstFactor | fatigue_calculator/calibration.py:94-95 | On all-zero data every factor fits, and the argmin picks the first grid point. |
| Calibration.ZeroErrorOnZeroData | fatigue_calculator/calibration.py:92 | Any factor has error 0 on all-zero data. |
| PerformanceZones.CategorizePerformance | scripts/FatigueCalcEnhanced2025.py:495-503 | Each label holds exactly on its zone: Optimal ≥ 80, Moderate [60, 80), Poor [50, 60), Critical < 50. categorize_performance at scripts/FatigueCalcEnhanced2024.py:384-392 is the same cascade. |
| PerformanceZones.CategoryMonotone | scripts/FatigueCalcEnhanced2025.py:495-503 | A higher score never gets a worse category. |
| PerformanceZones.FourZonesPartition | scripts/FatigueCalcEnhanced2025.py:316-319 | The four zone counts sum to the number of hours. |
| PerformanceZones.ThreeZonesPartition | scripts/FatigueCalcEnhanced2024.py:251-256 | Optimal + moderate + below-60 counts sum to the number of hours, and the below-50 count is at most the below-60 count. |
| EnhancedSchedules2025.QualityFromChoice | scripts/FatigueCalcEnhanced2025.py:160 | 3q + 1 is the choice, so the quality lies in [0, 1] exactly for choices 1..4. |
| EnhancedSchedules2025.ChronotypeOffset | scripts/FatigueCalcEnhanced2025.py:107-108 | The offset lies in [-2.5, 2.5]. Any unknown choice gives 0. |
| EnhancedSchedules2025.ChronotypeOrdered | scripts/FatigueCalcEnhanced2025.py:107 | The offsets increase strictly from choice 1 to 5 and are symmetric about choice 3. |
| EnhancedSchedules2025.DisruptionDebt | scripts/FatigueCalcEnhanced2025.py:180-181 | The added debt lies in [0, 12]. It is positive exactly for levels 2..4; any other level adds 0. |
| EnhancedSchedules2025.DisruptionDebtIncreasing | scripts/FatigueCalcEnhanced2025.py:180 | A more severe disruption level adds strictly more debt. |
| EnhancedSchedules2025.SleepAnswersFrom | scripts/FatigueCalcEnhanced2025.py:149-190 | The duration lies in [0, 23] and is wake - bed modulo 24. The quality is (choice - 1) / 3. The debt is the entered debt plus the disruption debt. |
| EnhancedSchedules2025.WorkAnswersFrom | scripts/FatigueCalcEnhanced2025.py:207-240 | Answer "n" means no work. Otherwise the work hours are end - start modulo 24, in [0, 23], and the load is the choice minus 1. |
| EnhancedSchedules2025.Mod24 | scripts/FatigueCalcEnhanced2025.py:263-264 | Python's float `% 24` always lies in [0, 24), leaves values already in range unchanged, and differs from its argument by a whole multiple of 24. |
| EnhancedSchedules2025.CreateEnhancedSchedules | scripts/FatigueCalcEnhanced2025.py:242-298 | Both maps have an entry for each hour 0 … hours - 1, and each entry equals the overnight-window or weekday-work predicate for that hour. The sleep map repeats every 24 hours and the work map every 168. With no work, or on a weekend, no hour is work. Load and daily hours are 0 without work. |
| EnhancedSchedules2025.WeekShift | scripts/FatigueCalcEnhanced2025.py:282-286 | Adding a week keeps the hour of day and the weekday; adding a day keeps the hour of day. |
| EnhancedSchedules2025.DailySleepPattern | scripts/FatigueCalcEnhanced2025.py:259-272 | The 24 flags of one day. Every hour of the run reads the flag of its hour of day. |
| EnhancedSchedules2025.AdjustedWindowLength | scripts/FatigueCalcEnhanced2025.py:263-264 | Shifting bed and wake by the chronotype offset keeps the window length: the adjusted wake time is the adjusted bedtime plus (wake - bed) mod 24, less 24 when the window wraps. |
| EnhancedSchedules2025.WrappedDifference | scripts/FatigueCalcEnhanced2025.py:263-264 | A difference of two adjusted times is (wake - bed) mod 24 when not negative, and that value minus 24 (with a positive duration) when negative. |
| EnhancedSchedules2025.DailySleepHours | scripts/FatigueCalcEnhanced2025.py:263-270 | Each day has exactly (wake - bed) mod 24 hours asleep, whatever the chronotype offset. |
| EnhancedSchedules2025.OvernightWindowCount | scripts/FatigueCalcEnhanced2025.py:266-270 | An overnight window from b to b + d, plain or wrapped, flags exactly d of the 24 hours. |
| EnhancedSchedules2025.DailyPatternIsWindow | scripts/FatigueCalcEnhanced2025.py:260-270 | Each hour of the day is flagged exactly by the overnight rule on the chronotype-adjusted bedtime and waketime. |
| EnhancedSchedules2025.NoSleepWhenBedtimeIsWaketime | scripts/FatigueCalcEnhanced2025.py:266-267 | With equal bedtime and waketime no hour is asleep. |
| EnhancedSchedules2025.WeekdayWorkHours | scripts/FatigueCalcEnhanced2025.py:284-290 | On a weekday, a shift with start ≤ end has exactly the reported work hours. A shift with start > end has none, although the reported hours are positive. |
| EnhancedReport2025.RiskLevelOf | scripts/FatigueCalcEnhanced2025.py:505-513 | The risk level is the one paired with the score's category. |
| EnhancedReport2025.RiskPairingIsOneToOne | scripts/FatigueCalcEnhanced2025.py:495-513 | The pairing Optimal↔Low, Moderate↔Moderate, Poor↔High, Critical↔Critical is one-to-one. |
| EnhancedReport2025.CumulativeRisk | scripts/FatigueCalcEnhanced2025.py:526 | max(0, 80 - p) is ≥ 0 and ≥ 80 - p. It is 0 exactly when p ≥ 80, and below 80 it adds back to 80. |
| EnhancedReport2025.HourlyTable | scripts/FatigueCalcEnhanced2025.py:516-527 | One row per hour. Row i lies in day i // 24 + 1 and carries score i. Its category, risk level and cumulative risk are those the classifiers give for that score. Both deviations add back to the score. The risk is paired with the category. The cumulative risk is 0 exactly for Optimal hours. |
| EnhancedReport2025.AnalysisZones | scripts/FatigueCalcEnhanced2025.py:310-323 | The analysis fails exactly on an empty run. Otherwise the four zones sum to the hours, and the risk percentage is the share of hours below 60, within [0, 100]. |
| EnhancedReport2025.AnalysisStatistics | scripts/FatigueCalcEnhanced2025.py:311-333 | min ≤ average ≤ max, and the sleep-debt impact is 0.56 points per hour of debt. |
| EnhancedReport2025.Percentage | scripts/FatigueCalcEnhanced2025.py:323 | part / whole · 100 times whole is part · 100, and lies in [0, 100] when part ≤ whole. |
| EnhancedReport2025.RiskScores | scripts/FatigueCalcEnhanced2025.py:594 | Every hour's risk term is ≥ 0. |
| EnhancedReport2025.DaySummaryIsConsistent | scripts/FatigueCalcEnhanced2025.py:587-595 | Optimal + poor/critical hours are at most the hours of the day, and min ≤ average ≤ max. The risk score is ≥ 0, and it is 0 exactly when every hour is optimal. |
| EnhancedReport2025.DayRiskScore | scripts/FatigueCalcEnhanced2025.py:595 | A day's mean cumulative risk is ≥ 0, and 0 exactly when every hour of the day is optimal. |
| EnhancedReport2025.DailySummary | scripts/FatigueCalcEnhanced2025.py:581-595 | There are len // 24 rows, and a trailing partial day is dropped. Row d summarises exactly performances[24d : 24d + 24] under day number d + 1. |
| EnhancedSchedules2024.NightFrom | scripts/FatigueCalcEnhanced2024.py:105-130 | The duration is end - start modulo 24, in [0, 23]. REM time is duration · percentage, and REM + NREM is the duration. |
| EnhancedSchedules2024.NightDebt | scripts/FatigueCalcEnhanced2024.py:119-122 | A night's debt is ≥ 0 and ≥ 8 - duration, and it is 0 exactly for nights of at least 8 hours. |
| EnhancedSchedules2024.CollectSleepHistory | scripts/FatigueCalcEnhanced2024.py:100-131 | One record per night, in order. The accumulated debt equals the total debt of the history. |
| EnhancedSchedules2024.TotalDebtBounds | scripts/FatigueCalcEnhanced2024.py:107-122 | For nights of non-negative duration the total debt lies in [0, 8 · nights], which is [0, 56] over a week. |
| EnhancedSchedules2024.NoDebtIffFullNights | scripts/FatigueCalcEnhanced2024.py:119-122 | The total debt is 0 exactly when every night lasts at least 8 hours. |
| EnhancedSchedules2024.TotalDebtNonNegative | scripts/FatigueCalcEnhanced2024.py:119-122 | The total debt is never negative. |
| EnhancedSchedules2024.WorkDayFrom | scripts/FatigueCalcEnhanced2024.py:140-160 | The start answer 25 means a day off. Otherwise the shift keeps start, end and load, and its hours are end - start modulo 24, in [0, 23]. |
| EnhancedSchedules2024.CollectWorkDays | scripts/FatigueCalcEnhanced2024.py:138-160 | One work day per answer, in order. |
| EnhancedSchedules2024.ShiftLoads | scripts/FatigueCalcEnhanced2024.py:218-219 | One load per working day (as many as an independent count of shift days), summing to an independent total of the shift loads. There are none exactly when every day is a day off. |
| EnhancedSchedules2024.ShiftLoadsElements | scripts/FatigueCalcEnhanced2024.py:218-219 | Every working day's load is among the averaged loads, and every averaged load is that of some working day. |
| EnhancedSchedules2024.ShiftLoadsConcat | scripts/FatigueCalcEnhanced2024.py:218-219 | The loads keep day order: those of two stretches of days are the first stretch's followed by the second's. |
| EnhancedSchedules2024.ShiftLoadPosition | scripts/FatigueCalcEnhanced2024.py:218-219 | The load of a working day i sits at the position given by the number of working days before i. |
| EnhancedSchedules2024.WeekShift | scripts/FatigueCalcEnhanced2024.py:204-206 | Adding 168 hours keeps the hour of day and the day index. |
| EnhancedSchedules2024.CreateSchedules | scripts/FatigueCalcEnhanced2024.py:185-234 | Quality and quantity are the means over the 7 nights. The load is the mean over the working days (the total shift load over the number of shift days), or undefined when there are none. Each hour's flags come from day record (h // 24) % 7 by the overnight and no-wrap work rules. Both maps repeat every 168 hours, and a day off has no work hour. |
| EnhancedSchedules2024.DaySleepPattern | scripts/FatigueCalcEnhanced2024.py:204-215 | The 24 flags of one day. Each is the sleep flag of that hour of the run. |
| EnhancedSchedules2024.DaySleepHours | scripts/FatigueCalcEnhanced2024.py:210-213 | Each day has exactly its night's recorded duration asleep, whether the window wraps or not. |
| EnhancedReport2024.RiskLabelOf | scripts/FatigueCalcEnhanced2024.py:402 | High exactly for Critical scores, Medium exactly for Poor, Low exactly for Optimal or Moderate. |
| EnhancedReport2024.HourlyTable | scripts/FatigueCalcEnhanced2024.py:395-403 | One row per hour, carrying that hour's score. Its category and risk label are those the classifiers give for the score. The deviation adds back to the score, and the risk label agrees with the category. |
| EnhancedReport2024.AnalysisIsConsistent | scripts/FatigueCalcEnhanced2024.py:245-256 | The analysis fails exactly on an empty run. Otherwise optimal + moderate + poor is the number of hours, critical ≤ poor, and min ≤ average ≤ max. |
| EnhancedReport2024.HighRiskHoursAreCritical | scripts/FatigueCalcEnhanced2024.py:402 | The hours labelled High risk are exactly the critical hours the analysis counts. |
| RestrictionSchedules.SleepEnd | notebooks/sleep_restriction_analysis.py:72 | The sleep end lies in [0, 23] and is start + duration modulo 24. |
| RestrictionSchedules.SleepPattern | notebooks/sleep_restriction_analysis.py:81-88 | Hour h is flagged exactly by the window rule: [start, end) if end > start, otherwise h ≥ start or h < end. |
| RestrictionSchedules.WorkPattern | notebooks/sleep_restriction_analysis.py:91-95 | Hour h is work exactly when start ≤ h < end, with no wrap. |
| RestrictionSchedules.CreateSchedules | notebooks/sleep_restriction_analysis.py:70-97 | The maps have exactly the hours 0..23, with the sleep and work patterns, plus quality, quantity and load rating. |
| RestrictionSchedules.SleepHours | notebooks/sleep_restriction_analysis.py:72-88 | For a start in 0..23, a duration of 1..23 sleeps exactly that many hours. In general the count is the duration modulo 24, except that a whole number of days marks all 24 hours. |
| RestrictionSchedules.EightHoursFromMidnight | notebooks/sleep_restriction_analysis.py:100 | 8 hours from midnight sleeps exactly hours 0..7. |
| RestrictionSchedules.WorkHours | notebooks/sleep_restriction_analysis.py:91-95 | A window inside the day flags end - start hours. A start at or after the end flags none. |
| RestrictionSchedulesSimple.CreateSchedules | notebooks/sleep_restriction_analysis_simple.py:44-59 | Hour h is asleep exactly when h < duration, and there are min(max(duration, 0), 24) sleep hours. Work is start ≤ h < end, with none when start ≥ end. The maps have the hours 0..23 plus their scalar fields. |
| RestrictionRecords.RecordFor | notebooks/sleep_restriction_analysis.py:138-142 | The hour of day lies in [0, 23]. Day and hour of day give back the time point as 24 · (day - 1) + hour, and days start at 1. |
| RestrictionRecords.AppendRecords | notebooks/sleep_restriction_analysis.py:136-143 | The earlier records are kept. One record is appended per zipped (time, performance) pair, as many as the shorter list, in order. The loop at notebooks/sleep_restriction_analysis_simple.py:83-87 is the same. |
| Common.HoursBetween | scripts/FatigueCalcEnhanced2025.py:149 | (to - from) % 24 lies in [0, 23] and is congruent to to - from modulo 24. |
| Common.FirstMinIndex | fatigue_calculator/calibration.py:94 | `argmin` and `list.index(min(...))`: an index of a least entry with no earlier least entry. |
| Common.FirstMaxIndex | FatigueCalc3.py:134 | `list.index(max(...))`: an index of a greatest entry with no earlier greatest entry. |
| Common.MeanBetweenMinMax | FatigueCalc3.py:130-132 | The mean of a non-empty list lies between its minimum and its maximum. |

## Left out

- The enhanced engine: `enhanced_simulate_cognitive_performance`, `calculate_individual_factors`, the sleep-recovery and debt models and `cogpsgformer_prediction`. The scripts and the notebooks import them, but the `fatigue_calculator/core.py` in this repository does not define them. The individual-factor part of the two analyses is left out for the same reason.
- Floating point: scores, offsets and factors are exact reals. Rounding, NaN propagation and infinities are not modelled, except the NaN RMSE on empty data, which is the `Undefined` value.
- `math.cos`, `math.exp` and `math.pi` are not evaluated. They are parameters, and lemmas that need a fact about them (exp(0) = 1, cos periodic) take it as a precondition.
- Calibration.OptimiseMlEnhancement: reports the mean squared error of the chosen factor instead of its square root. The square root is monotone, so the minimiser is the same.
- Calibration.OptimiseMlEnhancement: the shape check compares lengths of one-dimensional series. Multi-dimensional arrays are not modelled.
- Console input: the `input()` prompts, their defaults, `strip`/`lower`/`isdigit` parsing and retry loops. The model takes the parsed answers as parameters.
- Printing, recommendations, matplotlib/seaborn plots, pandas/Excel/CSV export, the `datetime.now()` columns (DateTime, Hour, Day), `np.std` and the notebooks' pandas `groupby` analyses. These are I/O and presentation.
- notebooks/alertness_curve_sleep_restriction.py: a driver script whose inline schedule loop repeats the simple notebook's `create_schedules`.
- fatigue_calculator/__init__.py only re-exports names and reads the version. setup.py is packaging metadata. Neither is part of this model.
- EnhancedSchedules2024.CreateSchedules: requires exactly 7 night and 7 work-day records, which is what the questionnaire collects. With fewer records, the source raises IndexError at the first hour whose day index `(hour // 24) % 7` (lines 205-207 and 223-225) is past the end of the list. With more, the hourly flags silently use only the first 7 records, while the means at lines 199-200 and 218-219 average over all of them. Neither case is modelled.
- EnhancedSchedules2024.CreateSchedules: the mean load over no working days is NaN in numpy. Here it is `None`.
