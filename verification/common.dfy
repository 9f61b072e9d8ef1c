/** Shared vocabulary of the fatigue calculator model: error-carrying results,
    hours of the day, counts over hourly series, and the sum / mean / minimum / maximum that the
    reports compute with numpy or the Python builtins. */
module Common {

  datatype Option<+T> = None | Some(value: T)

  datatype Result<+T, +E> = Ok(value: T) | Err(error: E)

  // ---------------------------------------------------------------------------
  // Hours of the day
  // ---------------------------------------------------------------------------

  /** `(to - from) % 24`: the hours from one hour of the day to another,
      going forward round the clock. */
  function HoursBetween(from: int, to: int): (d: int)
    ensures 0 <= d < 24
    ensures (from + d - to) % 24 == 0
  {
    var d := (to - from) % 24;
    assert from + d - to == -24 * ((to - from) / 24);
    d
  }

  // ---------------------------------------------------------------------------
  // Boolean hour maps
  // ---------------------------------------------------------------------------

  /** Number of hours flagged `true`, counted from the last hour backwards. */
  function CountTrue(s: seq<bool>): (n: nat)
    ensures n <= |s|
  {
    if s == [] then 0 else CountTrue(s[..|s| - 1]) + (if s[|s| - 1] then 1 else 0)
  }

  /** A map that flags exactly the hours of the window [lo, hi) has hi - lo hours set. */
  lemma {:induction false} CountWindow(s: seq<bool>, lo: int, hi: int)
    requires 0 <= lo <= hi <= |s|
    requires forall h :: 0 <= h < |s| ==> s[h] == (lo <= h < hi)
    ensures CountTrue(s) == hi - lo
  {
    if s != [] {
      var n := |s| - 1;
      var lo', hi' := if lo < n then lo else n, if hi < n then hi else n;
      assert forall h :: 0 <= h < n ==> s[..n][h] == (lo' <= h < hi');
      CountWindow(s[..n], lo', hi');
    }
  }

  /** A map that flags the hours from lo to the end and those before hi (a window
      that wraps past the end) has |s| - lo + hi hours set. */
  lemma {:induction false} CountWrappedWindow(s: seq<bool>, lo: int, hi: int)
    requires 0 <= hi <= lo <= |s|
    requires forall h :: 0 <= h < |s| ==> s[h] == (h >= lo || h < hi)
    ensures CountTrue(s) == |s| - lo + hi
  {
    if s != [] {
      var n := |s| - 1;
      var lo', hi' := if lo < n then lo else n, if hi < n then hi else n;
      assert forall h :: 0 <= h < n ==> s[..n][h] == (h >= lo' || h < hi');
      CountWrappedWindow(s[..n], lo', hi');
    }
  }

  /** A map with no hour set counts zero. */
  lemma {:induction false} CountNone(s: seq<bool>)
    requires forall h :: 0 <= h < |s| ==> !s[h]
    ensures CountTrue(s) == 0
  {
    CountWindow(s, 0, 0);
  }

  // ---------------------------------------------------------------------------
  // Counting scores, as `sum(1 for p in performances if ...)` does
  // ---------------------------------------------------------------------------

  function CountIf(s: seq<real>, p: real -> bool): (n: nat)
    ensures n <= |s|
  {
    if s == [] then 0 else (if p(s[0]) then 1 else 0) + CountIf(s[1..], p)
  }

  /** Counting under a predicate that is the disjoint union of two others adds up. */
  lemma {:induction false} CountIfUnion(s: seq<real>, p: real -> bool, q: real -> bool, r: real -> bool)
    requires forall x :: r(x) == (p(x) || q(x))
    requires forall x :: !(p(x) && q(x))
    ensures CountIf(s, r) == CountIf(s, p) + CountIf(s, q)
  {
    if s != [] {
      CountIfUnion(s[1..], p, q, r);
    }
  }

  /** Counting under a weaker predicate never gives less. */
  lemma {:induction false} CountIfMonotone(s: seq<real>, p: real -> bool, q: real -> bool)
    requires forall x :: p(x) ==> q(x)
    ensures CountIf(s, p) <= CountIf(s, q)
  {
    if s != [] {
      CountIfMonotone(s[1..], p, q);
    }
  }

  /** A predicate that holds of every score counts every entry. */
  lemma {:induction false} CountIfAll(s: seq<real>, p: real -> bool)
    requires forall x :: p(x)
    ensures CountIf(s, p) == |s|
  {
    if s != [] {
      CountIfAll(s[1..], p);
    }
  }

  /** Two predicates that agree on every score give the same count. */
  lemma {:induction false} CountIfSame(s: seq<real>, p: real -> bool, q: real -> bool)
    requires forall x :: p(x) == q(x)
    ensures CountIf(s, p) == CountIf(s, q)
  {
    if s != [] {
      CountIfSame(s[1..], p, q);
    }
  }

  // ---------------------------------------------------------------------------
  // Sum, mean, first minimum, first maximum
  // ---------------------------------------------------------------------------

  function Sum(s: seq<real>): real
  {
    if s == [] then 0.0 else s[0] + Sum(s[1..])
  }

  /** The arithmetic mean, as `np.mean` and `sum(...) / len(...)` compute it. */
  function Mean(s: seq<real>): real
    requires |s| > 0
  {
    Sum(s) / |s| as real
  }

  /** The index that `s.index(min(s))` and `np.argmin` return: the first index
      holding the smallest value. */
  function FirstMinIndex(s: seq<real>): (k: nat)
    requires |s| > 0
    ensures k < |s|
    ensures forall j :: 0 <= j < |s| ==> s[k] <= s[j]
    ensures forall j :: 0 <= j < k ==> s[k] < s[j]
  {
    if |s| == 1 then 0
    else
      var k' := FirstMinIndex(s[1..]);
      if s[0] <= s[1 + k'] then 0 else 1 + k'
  }

  /** The index that `s.index(max(s))` returns: the first index holding the
      largest value. */
  function FirstMaxIndex(s: seq<real>): (k: nat)
    requires |s| > 0
    ensures k < |s|
    ensures forall j :: 0 <= j < |s| ==> s[j] <= s[k]
    ensures forall j :: 0 <= j < k ==> s[j] < s[k]
  {
    if |s| == 1 then 0
    else
      var k' := FirstMaxIndex(s[1..]);
      if s[0] >= s[1 + k'] then 0 else 1 + k'
  }

  function Min(s: seq<real>): real
    requires |s| > 0
  {
    s[FirstMinIndex(s)]
  }

  function Max(s: seq<real>): real
    requires |s| > 0
  {
    s[FirstMaxIndex(s)]
  }

  /** Bounds on every entry bound the sum. */
  lemma {:induction false} SumBounds(s: seq<real>, lo: real, hi: real)
    requires forall i :: 0 <= i < |s| ==> lo <= s[i] <= hi
    ensures |s| as real * lo <= Sum(s) <= |s| as real * hi
  {
    if s != [] {
      SumBounds(s[1..], lo, hi);
      assert |s| as real * lo == lo + (|s| - 1) as real * lo;
      assert |s| as real * hi == hi + (|s| - 1) as real * hi;
    }
  }

  /** A sum of non-negative entries is non-negative, and it is 0 exactly
      when every entry is. */
  lemma {:induction false} SumNonNegative(s: seq<real>)
    requires forall i :: 0 <= i < |s| ==> s[i] >= 0.0
    ensures Sum(s) >= 0.0
    ensures Sum(s) == 0.0 <==> forall i :: 0 <= i < |s| ==> s[i] == 0.0
  {
    if s != [] {
      SumNonNegative(s[1..]);
      if forall i :: 0 <= i < |s| ==> s[i] == 0.0 {
        assert forall i :: 0 <= i < |s[1..]| ==> s[1..][i] == 0.0 by {
          forall i | 0 <= i < |s[1..]| ensures s[1..][i] == 0.0 {
            assert s[1..][i] == s[i + 1];
          }
        }
      }
      if Sum(s) == 0.0 {
        forall i | 0 <= i < |s| ensures s[i] == 0.0 {
          if i > 0 {
            assert s[i] == s[1..][i - 1];
          }
        }
      }
    }
  }

  /** Bounds on every entry bound the mean. */
  lemma MeanBounds(s: seq<real>, lo: real, hi: real)
    requires |s| > 0
    requires forall i :: 0 <= i < |s| ==> lo <= s[i] <= hi
    ensures lo <= Mean(s) <= hi
  {
    SumBounds(s, lo, hi);
    var n := |s| as real;
    assert Sum(s) / n >= (n * lo) / n == lo;
    assert Sum(s) / n <= (n * hi) / n == hi;
  }

  /** The mean lies between the minimum and the maximum. */
  lemma MeanBetweenMinMax(s: seq<real>)
    requires |s| > 0
    ensures Min(s) <= Mean(s) <= Max(s)
  {
    MeanBounds(s, Min(s), Max(s));
  }
}
