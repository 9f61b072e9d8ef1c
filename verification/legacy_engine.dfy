/** The legacy two-process simulation of fatigue_calculator/core.py (kept
    verbatim in FatigueCalc3.py): a homeostatic reservoir carried from hour to
    hour, a circadian oscillator, a sleep-inertia term and a workload factor,
    combined into an unclamped performance score per hour. */
module LegacyEngine {

  /** Python's `math.cos`, `math.exp` and `math.pi`. The model never evaluates
      them; facts it needs about them (exp(0) = 1, cos has period 2*pi) are
      stated where they are used. */
  datatype Transcendentals = Transcendentals(cos: real -> real, exp: real -> real, pi: real)

  const SeedReservoir: real := 2400.0     // prev_reservoir_level at t == 0
  const ReservoirCapacity: real := 2880.0  // Rc
  const WorkloadCapacity: real := 75.0     // Wc
  const Asymptote: real := 1.0             // ai, fixed at 1 by the driver

  // ---------------------------------------------------------------------------
  // Process functions
  // ---------------------------------------------------------------------------

  /** 1 - exp(-delta_t / tau) with delta_t = tau1 = tau2 = 1. */
  function RecoveryConstant(m: Transcendentals): real
  {
    1.0 - m.exp(-1.0)
  }

  /** K_adjusted = K * (1 + (8 - sleep_quantity) * 0.1) with K = 0.5. */
  function DecayRate(sleepQuantity: real): real
  {
    0.5 * (1.0 + (8.0 - sleepQuantity) * 0.1)
  }

  /** homeostatic_process: one step of the reservoir. Asleep, it relaxes
      towards the asymptote; awake, it drops by K_adjusted times the ABSOLUTE
      hour t of the simulation. */
  function HomeostaticProcess(m: Transcendentals, t: int, prev: real, asleep: bool,
                              ai: real, sleepQuality: real, sleepQuantity: real): real
  {
    if asleep then
      0.235 + sleepQuality * RecoveryConstant(m) * prev + RecoveryConstant(m) * (ai - 0.235)
    else
      prev - DecayRate(sleepQuantity) * t as real
  }

  /** circadian_process: a 24 h cosine peaking at 18:00 plus a half-amplitude
      12 h harmonic. */
  function CircadianProcess(m: Transcendentals, t: int): real
  {
    m.cos(Angle(2.0 * m.pi, t - 18)) + 0.5 * m.cos(Angle(4.0 * m.pi, t - 3))
  }

  /** The angle c * h / 24 reached after h hours at c radians per day. */
  function Angle(c: real, h: int): real
  {
    c * h as real / 24.0
  }

  /** sleep_inertia: a function of the absolute hour, nonzero only before hour 2. */
  function SleepInertia(m: Transcendentals, t: int): real
  {
    if t < 2 then 5.0 * m.exp(-(t as real) / 0.04) else 0.0
  }

  /** cognitive_performance: note that the inertia term is ADDED. */
  function CognitivePerformance(rt: real, ct: real, it: real): real
  {
    100.0 * (rt / ReservoirCapacity)
      + (7.0 + 5.0 * (ReservoirCapacity - rt) / ReservoirCapacity) * ct
      + it
  }

  /** workload: recovery of 11 while asleep, a load-dependent decrement awake. */
  function Workload(wPrev: real, loadRating: int, asleep: bool): real
  {
    if asleep then wPrev + 11.0 else wPrev - 1.14 * (1 + loadRating) as real
  }

  /** cognitive_performance_with_workload: the base score scaled by (Wc - Wt) / Wc. */
  function PerformanceWithWorkload(rt: real, ct: real, it: real, wt: real, wc: real): real
    requires wc != 0.0
  {
    CognitivePerformance(rt, ct, it) * (wc - wt) / wc
  }

  // ---------------------------------------------------------------------------
  // Properties of the process functions
  // ---------------------------------------------------------------------------

  /** Awake, the reservoir loses K_adjusted * t, so the loss grows with the
      absolute hour; with 8 hours of sleep K_adjusted is exactly 0.5. */
  lemma AwakeLossScalesWithHour(m: Transcendentals, t: int, prev: real, ai: real, quality: real, quantity: real)
    ensures prev - HomeostaticProcess(m, t, prev, false, ai, quality, quantity) == DecayRate(quantity) * t as real
    ensures DecayRate(8.0) == 0.5
    ensures quantity == 8.0 ==> HomeostaticProcess(m, t, prev, false, ai, quality, quantity) == prev - 0.5 * t as real
  {
  }

  /** For sleep quantities up to 18 h the awake decrement is non-negative, so a
      later hour removes at least as much as an earlier one. */
  lemma AwakeLossGrowsWithTime(m: Transcendentals, t1: int, t2: int, prev: real, ai: real, quality: real, quantity: real)
    requires 0 <= t1 <= t2
    requires quantity <= 18.0
    ensures HomeostaticProcess(m, t2, prev, false, ai, quality, quantity)
         <= HomeostaticProcess(m, t1, prev, false, ai, quality, quantity)
  {
    var k := DecayRate(quantity);
    assert k >= 0.0;
    assert k * t1 as real <= k * t2 as real;
  }

  /** Asleep, the step depends neither on the hour nor on the sleep quantity,
      and it is affine in the previous level with slope quality * (1 - e^-1). */
  lemma AsleepStepIsAffine(m: Transcendentals, t1: int, t2: int, prev1: real, prev2: real,
                           ai: real, quality: real, quantity1: real, quantity2: real)
    ensures HomeostaticProcess(m, t1, prev1, true, ai, quality, quantity1)
          - HomeostaticProcess(m, t2, prev2, true, ai, quality, quantity2)
         == quality * RecoveryConstant(m) * (prev1 - prev2)
    ensures HomeostaticProcess(m, t1, 0.0, true, ai, quality, quantity1)
         == 0.235 + RecoveryConstant(m) * (ai - 0.235)
  {
  }

  /** Sleep inertia is 0 from hour 2 on, and 5 at hour 0. */
  lemma InertiaOnlyAtStart(m: Transcendentals, t: int)
    requires m.exp(0.0) == 1.0
    ensures t >= 2 ==> SleepInertia(m, t) == 0.0
    ensures SleepInertia(m, 0) == 5.0
  {
    assert -(0 as real) / 0.04 == 0.0;
  }

  /** At a full reservoir the score is 100 + 7 * Ct + It, and any increase of
      the inertia term raises the score by the same amount. */
  lemma FullReservoirScore(rt: real, ct: real, it: real, d: real)
    ensures CognitivePerformance(ReservoirCapacity, ct, it) == 100.0 + 7.0 * ct + it
    ensures CognitivePerformance(rt, ct, it + d) == CognitivePerformance(rt, ct, it) + d
  {
  }

  /** The score is not clamped: a reservoir above Rc with a neutral circadian
      and inertia term gives more than 100. */
  lemma ScoreNotClamped(rt: real)
    requires rt > ReservoirCapacity
    ensures CognitivePerformance(rt, 0.0, 0.0) > 100.0
  {
  }

  /** A zero workload leaves the score unchanged; starting from no carry-over,
      the workload is +11 asleep and -1.14 * (1 + load) awake. */
  lemma WorkloadFromRest(rt: real, ct: real, it: real, loadRating: int)
    ensures PerformanceWithWorkload(rt, ct, it, 0.0, WorkloadCapacity) == CognitivePerformance(rt, ct, it)
    ensures Workload(0.0, loadRating, true) == 11.0
    ensures Workload(0.0, loadRating, false) == -1.14 * (1 + loadRating) as real
  {
  }

  /** Since an awake work hour has a negative workload (for a load rating of 0
      or more), the factor (Wc - Wt) / Wc exceeds 1 and a positive base score
      is RAISED at work. */
  lemma AwakeWorkRaisesScore(rt: real, ct: real, it: real, loadRating: int)
    requires loadRating >= 0
    requires CognitivePerformance(rt, ct, it) > 0.0
    ensures PerformanceWithWorkload(rt, ct, it, Workload(0.0, loadRating, false), WorkloadCapacity)
          > CognitivePerformance(rt, ct, it)
  {
    var base := CognitivePerformance(rt, ct, it);
    var wt := Workload(0.0, loadRating, false);
    assert wt < 0.0;
    var f := (WorkloadCapacity - wt) / WorkloadCapacity;
    assert f > 1.0;
    assert base * (WorkloadCapacity - wt) / WorkloadCapacity == base * f;
    assert base * f > base * 1.0;
  }

  /** The oscillator has period 24 h whenever cos has period 2*pi. */
  lemma CircadianPeriodic(m: Transcendentals, t: int)
    requires forall x, y :: y == x + 2.0 * m.pi ==> m.cos(y) == m.cos(x)
    ensures CircadianProcess(m, t + 24) == CircadianProcess(m, t)
  {
    var a, b := Angle(2.0 * m.pi, t - 18), Angle(4.0 * m.pi, t - 3);
    AngleAdvance(2.0 * m.pi, t - 18);
    AngleAdvance(4.0 * m.pi, t - 3);
    assert m.cos(a + 2.0 * m.pi) == m.cos(a);
    assert m.cos((b + 2.0 * m.pi) + 2.0 * m.pi) == m.cos(b + 2.0 * m.pi) == m.cos(b);
    assert b + 4.0 * m.pi == (b + 2.0 * m.pi) + 2.0 * m.pi;
  }

  /** A day later the angle has advanced by one turn of c. */
  lemma AngleAdvance(c: real, h: int)
    ensures Angle(c, h + 24) == Angle(c, h) + c
  {
    assert c * (h + 24) as real == c * h as real + c * 24.0;
  }

  // ---------------------------------------------------------------------------
  // The simulation driver
  // ---------------------------------------------------------------------------

  /** The scalar arguments of simulate_cognitive_performance besides `hours`. */
  datatype Inputs = Inputs(sleepStart: int, sleepEnd: int, sleepQuality: real, sleepQuantity: real,
                           workStart: int, workEnd: int, loadRating: int)

  /** `sleep_start <= t % 24 < sleep_end`: the window does not wrap at midnight. */
  predicate AsleepAt(p: Inputs, t: int)
  {
    p.sleepStart <= t % 24 < p.sleepEnd
  }

  predicate AtWorkAt(p: Inputs, t: int)
  {
    p.workStart <= t % 24 < p.workEnd
  }

  /** The reservoir level after hour t: hour 0 starts from 2400, every later
      hour from the level the previous hour produced. */
  function ReservoirAt(m: Transcendentals, p: Inputs, t: nat): real
  {
    var prev := if t == 0 then SeedReservoir else ReservoirAt(m, p, t - 1);
    HomeostaticProcess(m, t, prev, AsleepAt(p, t), Asymptote, p.sleepQuality, p.sleepQuantity)
  }

  /** The score of hour t at reservoir level rt. Wt_prev is never updated,
      so every work hour uses the workload computed from 0. */
  function HourScore(m: Transcendentals, p: Inputs, t: int, rt: real): real
  {
    var ct := CircadianProcess(m, t);
    var it := SleepInertia(m, t);
    if AtWorkAt(p, t) then
      PerformanceWithWorkload(rt, ct, it, Workload(0.0, p.loadRating, AsleepAt(p, t)), WorkloadCapacity)
    else
      CognitivePerformance(rt, ct, it)
  }

  /** The score reported for hour t. */
  function ScoreAt(m: Transcendentals, p: Inputs, t: nat): real
  {
    HourScore(m, p, t, ReservoirAt(m, p, t))
  }

  /** simulate_cognitive_performance: one pass over t = 0 .. hours - 1 that
      carries Rt from each iteration to the next and appends to three lists. */
  method SimulateCognitivePerformance(m: Transcendentals, hours: int, p: Inputs)
    returns (timePoints: seq<int>, circadianRhythms: seq<real>, cognitivePerformances: seq<real>)
    ensures |timePoints| == |circadianRhythms| == |cognitivePerformances| == (if hours > 0 then hours else 0)
    ensures forall i :: 0 <= i < |timePoints| ==> timePoints[i] == i
    ensures forall i :: 0 <= i < |circadianRhythms| ==> circadianRhythms[i] == CircadianProcess(m, i)
    ensures forall i :: 0 <= i < |cognitivePerformances| ==> cognitivePerformances[i] == ScoreAt(m, p, i)
  {
    var wPrev := 0.0;
    var wc := WorkloadCapacity;
    timePoints, circadianRhythms, cognitivePerformances := [], [], [];
    var rt := 0.0;
    var t := 0;
    while t < hours
      invariant 0 <= t <= (if hours > 0 then hours else 0)
      invariant |timePoints| == |circadianRhythms| == |cognitivePerformances| == t
      invariant forall i :: 0 <= i < t ==> timePoints[i] == i
      invariant forall i :: 0 <= i < t ==> circadianRhythms[i] == CircadianProcess(m, i)
      invariant forall i :: 0 <= i < t ==> cognitivePerformances[i] == ScoreAt(m, p, i)
      invariant t > 0 ==> rt == ReservoirAt(m, p, t - 1)
    {
      var asleep := p.sleepStart <= t % 24 < p.sleepEnd;
      var atWork := p.workStart <= t % 24 < p.workEnd;
      var prev, ai;
      if t == 0 {
        prev, ai := SeedReservoir, 1.0;
      } else {
        prev, ai := rt, 1.0;
      }
      rt := HomeostaticProcess(m, t, prev, asleep, ai, p.sleepQuality, p.sleepQuantity);
      var ct := CircadianProcess(m, t);
      var it := SleepInertia(m, t);
      var e;
      if atWork {
        var wt := Workload(wPrev, p.loadRating, asleep);
        e := PerformanceWithWorkload(rt, ct, it, wt, wc);
      } else {
        e := CognitivePerformance(rt, ct, it);
      }
      timePoints := timePoints + [t];
      circadianRhythms := circadianRhythms + [ct];
      cognitivePerformances := cognitivePerformances + [e];
      t := t + 1;
    }
  }

  // ---------------------------------------------------------------------------
  // Properties of the simulated run
  // ---------------------------------------------------------------------------

  /** Hour 0 starts from 2400; if hour 0 is awake the decrement K_adjusted * 0
      vanishes and the reservoir after hour 0 is exactly 2400. */
  lemma SeedAtHourZero(m: Transcendentals, p: Inputs)
    ensures !AsleepAt(p, 0) ==> ReservoirAt(m, p, 0) == SeedReservoir
    ensures AsleepAt(p, 0) ==>
      ReservoirAt(m, p, 0) == 0.235 + p.sleepQuality * RecoveryConstant(m) * SeedReservoir
                                    + RecoveryConstant(m) * (Asymptote - 0.235)
  {
  }

  /** A sleep window whose start is not before its end (22 -> 6, say) marks no
      hour asleep, at any hour of the run. */
  lemma InvertedWindowNeverSleeps(p: Inputs, t: int)
    requires p.sleepStart >= p.sleepEnd
    ensures !AsleepAt(p, t)
  {
  }

  /** With no sleep hour in the run, the reservoir after hour t is
      2400 - K_adjusted * (0 + 1 + ... + t), and that sum is t(t+1)/2
      (TriangleClosedForm): the loss grows quadratically. */
  lemma {:induction false} ReservoirWithoutSleep(m: Transcendentals, p: Inputs, t: nat)
    requires p.sleepStart >= p.sleepEnd
    ensures ReservoirAt(m, p, t) == SeedReservoir - DecayRate(p.sleepQuantity) * Triangle(t) as real
  {
    AwakeSteps(m, p);
    SeedAtHourZero(m, p);
    LossFromSteps(m, p, t);
  }

  /** A reservoir that starts at 2400 and loses K_adjusted * j in every hour
      j has lost K_adjusted * (0 + 1 + ... + t) after hour t. */
  lemma LossFromSteps(m: Transcendentals, p: Inputs, t: nat)
    requires ReservoirAt(m, p, 0) == SeedReservoir
    requires forall i: nat, j: nat :: j == i + 1 ==>
      ReservoirAt(m, p, j) == ReservoirAt(m, p, i) - DecayRate(p.sleepQuantity) * j as real
    ensures ReservoirAt(m, p, t) == SeedReservoir - DecayRate(p.sleepQuantity) * Triangle(t) as real
  {
    TriangularLoss((i: nat) => ReservoirAt(m, p, i), SeedReservoir, DecayRate(p.sleepQuantity), t);
  }

  /** With the window inverted, every hour j after hour 0 is an awake step
      from the hour i before it. */
  lemma AwakeSteps(m: Transcendentals, p: Inputs)
    requires p.sleepStart >= p.sleepEnd
    ensures forall i: nat, j: nat :: j == i + 1 ==>
      ReservoirAt(m, p, j) == ReservoirAt(m, p, i) - DecayRate(p.sleepQuantity) * j as real
  {
    forall i: nat, j: nat | j == i + 1
      ensures ReservoirAt(m, p, j) == ReservoirAt(m, p, i) - DecayRate(p.sleepQuantity) * j as real
    {
      AwakeStep(m, p, j);
    }
  }

  /** A level that starts at s and loses k * i in step i has lost
      k * (0 + 1 + ... + t) after step t. */
  lemma {:induction false} TriangularLoss(r: nat -> real, s: real, k: real, t: nat)
    requires r(0) == s
    requires forall i: nat, j: nat :: j == i + 1 <= t ==> r(j) == r(i) - k * j as real
    ensures r(t) == s - k * Triangle(t) as real
  {
    if t == 0 {
      SubtractScaled(r(0), s, s, k, 0.0, 0.0, Triangle(0) as real);
    } else {
      TriangularLoss(r, s, k, t - 1);
      SubtractScaled(r(t), r(t - 1), s, k, Triangle(t - 1) as real, t as real, Triangle(t) as real);
    }
  }

  /** An awake hour after hour 0 takes K_adjusted * t from the previous level. */
  lemma AwakeStep(m: Transcendentals, p: Inputs, t: nat)
    requires t > 0 && !AsleepAt(p, t)
    ensures ReservoirAt(m, p, t) == ReservoirAt(m, p, t - 1) - DecayRate(p.sleepQuantity) * t as real
  {
  }

  /** 0 + 1 + ... + t. */
  function Triangle(t: nat): nat
  {
    if t == 0 then 0 else Triangle(t - 1) + t
  }

  /** Gauss's formula for 0 + 1 + ... + t. */
  lemma {:induction false} TriangleClosedForm(t: nat)
    ensures Triangle(t) == t * (t + 1) / 2
  {
    if t > 0 {
      TriangleClosedForm(t - 1);
      assert t * (t + 1) == (t - 1) * t + 2 * t;
    }
  }

  /** A level k * a below s, lowered by a further k * b, is k * (a + b) below s. */
  lemma SubtractScaled(r: real, prev: real, s: real, k: real, a: real, b: real, c: real)
    requires prev == s - k * a && r == prev - k * b && a + b == c
    ensures r == s - k * c
  {
    assert k * c == k * a + k * b;
  }

  /** Away from work the hour's score is the plain formula; at an awake work
      hour it is the plain formula times 1 + 1.14 * (1 + load) / 75, the same
      factor at every such hour (no carry-over between hours), and asleep at
      work the factor is 64 / 75. This holds at any reservoir level, so in
      particular at the level ReservoirAt carries into ScoreAt. */
  lemma ScoreAtWorkHours(m: Transcendentals, p: Inputs, t: int, rt: real)
    ensures !AtWorkAt(p, t) ==>
      HourScore(m, p, t, rt) == CognitivePerformance(rt, CircadianProcess(m, t), SleepInertia(m, t))
    ensures AtWorkAt(p, t) && !AsleepAt(p, t) ==>
      HourScore(m, p, t, rt) == CognitivePerformance(rt, CircadianProcess(m, t), SleepInertia(m, t))
                                * (1.0 + 1.14 * (1 + p.loadRating) as real / WorkloadCapacity)
    ensures AtWorkAt(p, t) && AsleepAt(p, t) ==>
      HourScore(m, p, t, rt) == CognitivePerformance(rt, CircadianProcess(m, t), SleepInertia(m, t))
                                * (64.0 / 75.0)
  {
    var ct, it := CircadianProcess(m, t), SleepInertia(m, t);
    var base := CognitivePerformance(rt, ct, it);
    if AtWorkAt(p, t) {
      var wt := Workload(0.0, p.loadRating, AsleepAt(p, t));
      assert HourScore(m, p, t, rt) == base * (WorkloadCapacity - wt) / WorkloadCapacity;
      var w := 1.14 * (1 + p.loadRating) as real;
      WorkFactor(base, wt, w);
    }
  }

  /** The workload factor (75 - Wt) / 75 for the two workloads an hour can
      have: a recovery of 11, or a decrement of w. */
  lemma WorkFactor(base: real, wt: real, w: real)
    ensures wt == 0.0 - w ==> base * (WorkloadCapacity - wt) / WorkloadCapacity == base * (1.0 + w / WorkloadCapacity)
    ensures wt == 11.0 ==> base * (WorkloadCapacity - wt) / WorkloadCapacity == base * (64.0 / 75.0)
  {
    if wt == 0.0 - w {
      assert (WorkloadCapacity - wt) / WorkloadCapacity == 1.0 + w / WorkloadCapacity;
    }
  }
}
