/** The performance zones shared by the 2024 and 2025 reports: four
    categories cut at 80, 60 and 50 points, and the counts of hours in each. */
module PerformanceZones {
  import opened Common

  datatype Category = Optimal | Moderate | Poor | Critical

  predicate IsOptimal(score: real) { score >= 80.0 }

  predicate IsModerate(score: real) { 60.0 <= score < 80.0 }

  predicate IsPoor(score: real) { 50.0 <= score < 60.0 }

  predicate IsCritical(score: real) { score < 50.0 }

  /** Below the moderate zone: the 2024 "poor" count and the 2025
      "Poor_Critical_Hours" count. */
  predicate IsBelowModerate(score: real) { score < 60.0 }

  predicate IsBelowOptimal(score: real) { score < 80.0 }

  /** categorize_performance (2024) and categorize_performance_2025, which are
      the same cascade of thresholds. Each label is exactly the zone whose
      hours the analyses count. */
  function CategorizePerformance(score: real): (c: Category)
    ensures c == Optimal <==> IsOptimal(score)
    ensures c == Moderate <==> IsModerate(score)
    ensures c == Poor <==> IsPoor(score)
    ensures c == Critical <==> IsCritical(score)
  {
    if score >= 80.0 then Optimal
    else if score >= 60.0 then Moderate
    else if score >= 50.0 then Poor
    else Critical
  }

  /** Position of a category from worst (0) to best (3). */
  function Rank(c: Category): nat
  {
    match c
    case Critical => 0
    case Poor => 1
    case Moderate => 2
    case Optimal => 3
  }

  /** A higher score never falls into a worse category. */
  lemma CategoryMonotone(a: real, b: real)
    requires a <= b
    ensures Rank(CategorizePerformance(a)) <= Rank(CategorizePerformance(b))
  {
  }

  /** The four zone counts of the 2025 analysis add up to the number of hours. */
  lemma FourZonesPartition(s: seq<real>)
    ensures CountIf(s, IsOptimal) + CountIf(s, IsModerate) + CountIf(s, IsPoor) + CountIf(s, IsCritical) == |s|
  {
    CountIfUnion(s, IsPoor, IsCritical, IsBelowModerate);
    CountIfUnion(s, IsModerate, IsBelowModerate, IsBelowOptimal);
    CountIfUnion(s, IsOptimal, IsBelowOptimal, _ => true);
    CountIfAll(s, _ => true);
  }

  /** The three zone counts of the 2024 analysis add up to the number of
      hours, and the critical hours are among the poor ones. */
  lemma ThreeZonesPartition(s: seq<real>)
    ensures CountIf(s, IsOptimal) + CountIf(s, IsModerate) + CountIf(s, IsBelowModerate) == |s|
    ensures CountIf(s, IsCritical) <= CountIf(s, IsBelowModerate)
  {
    CountIfUnion(s, IsModerate, IsBelowModerate, IsBelowOptimal);
    CountIfUnion(s, IsOptimal, IsBelowOptimal, _ => true);
    CountIfAll(s, _ => true);
    CountIfMonotone(s, IsCritical, IsBelowModerate);
  }
}
