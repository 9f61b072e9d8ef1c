/** optimise_ml_enhancement of fatigue_calculator/calibration.py: a brute-force
    search over an evenly spaced grid of scaling factors for the one whose
    scaled predictions have the smallest root-mean-squared error against the
    ground truth.

    The square root is left out: since it is monotone, the search is stated on
    the mean squared error, and the RMSE the source returns is the square root
    of the `meanSquare` reported here. */
module Calibration {
  import opened Common

  /** The ValueErrors the search can raise: different input shapes (raised by
      the function itself), a negative number of grid points (raised by
      `np.linspace`), and an empty grid (raised by `argmin`). */
  datatype CalibrationError = ShapeMismatch | NegativeSteps | EmptyGrid

  /** The RMSE of the chosen factor. With no data points the mean of an empty
      array is NaN, and so is every RMSE. */
  datatype Rmse = Undefined | RootOf(meanSquare: real)

  datatype Fit = Fit(factor: real, rmse: Rmse)

  const DefaultLow: real := 0.5
  const DefaultHigh: real := 1.5
  const DefaultSteps: int := 201

  /** Point i of `np.linspace(low, high, steps)`. */
  function GridPoint(low: real, high: real, steps: nat, i: int): real
  {
    if steps == 1 then low else low + i as real * (high - low) / (steps - 1) as real
  }

  /** `np.linspace(low, high, steps)`, the candidate scaling factors. */
  function Grid(low: real, high: real, steps: nat): (g: seq<real>)
    ensures |g| == steps
  {
    seq(steps, i requires 0 <= i < steps => GridPoint(low, high, steps, i))
  }

  /** The grid starts at `low`, ends at `high`, and its points are evenly
      spaced (high - low) / (steps - 1) apart. */
  lemma GridShape(low: real, high: real, steps: nat)
    ensures steps > 0 ==> Grid(low, high, steps)[0] == low
    ensures steps > 1 ==> Grid(low, high, steps)[steps - 1] == high
    ensures steps > 1 ==> forall i :: 0 <= i < steps - 1 ==>
      Grid(low, high, steps)[i + 1] - Grid(low, high, steps)[i] == (high - low) / (steps - 1) as real
  {
    if steps > 1 {
      var g := Grid(low, high, steps);
      GridStep(low, high, steps, steps - 1);
      forall i | 0 <= i < steps - 1
        ensures g[i + 1] - g[i] == (high - low) / (steps - 1) as real
      {
        GridStep(low, high, steps, i);
      }
    }
  }

  /** One step along the grid, and the arrival at its far end. */
  lemma GridStep(low: real, high: real, steps: nat, i: int)
    requires steps > 1
    ensures GridPoint(low, high, steps, i + 1) - GridPoint(low, high, steps, i) == (high - low) / (steps - 1) as real
    ensures i == steps - 1 ==> GridPoint(low, high, steps, i) == high
  {
    var n := (steps - 1) as real;
    assert (i + 1) as real == i as real + 1.0;
    LinearStep(low, i as real, high - low, n);
  }

  /** The arithmetic behind one grid step, apart from the grid itself. */
  lemma LinearStep(low: real, x: real, w: real, n: real)
    requires n != 0.0
    ensures (low + (x + 1.0) * w / n) - (low + x * w / n) == w / n
    ensures x == n ==> low + x * w / n == low + w
  {
    var d := w / n;
    assert x * w / n == x * d by { ScaleThenDivide(x, w, n); }
    assert (x + 1.0) * w / n == (x + 1.0) * d by { ScaleThenDivide(x + 1.0, w, n); }
    assert (x + 1.0) * d == x * d + d;
    if x == n {
      assert n * d == w;
    }
  }

  lemma ScaleThenDivide(a: real, b: real, n: real)
    requires n != 0.0
    ensures a * b / n == a * (b / n)
  {
  }

  /** Sum over the data of (factor * prediction - truth)^2. */
  function SquaredErrorSum(factor: real, predictions: seq<real>, truth: seq<real>): real
    requires |predictions| == |truth|
  {
    if predictions == [] then 0.0
    else
      var e := factor * predictions[0] - truth[0];
      e * e + SquaredErrorSum(factor, predictions[1..], truth[1..])
  }

  /** The mean squared error of one factor: the square of its RMSE. */
  function MeanSquaredError(factor: real, predictions: seq<real>, truth: seq<real>): real
    requires |predictions| == |truth| > 0
  {
    SquaredErrorSum(factor, predictions, truth) / |predictions| as real
  }

  /** The error of every grid factor, in grid order (`rmse_values`, squared). */
  function ErrorProfile(grid: seq<real>, predictions: seq<real>, truth: seq<real>): (e: seq<real>)
    requires |predictions| == |truth| > 0
    ensures |e| == |grid|
  {
    seq(|grid|, i requires 0 <= i < |grid| => MeanSquaredError(grid[i], predictions, truth))
  }

  function OptimiseMlEnhancement(predictions: seq<real>, truth: seq<real>,
                                 low: real, high: real, steps: int): Result<Fit, CalibrationError>
  {
    if |predictions| != |truth| then Err(ShapeMismatch)
    else if steps < 0 then Err(NegativeSteps)
    else if steps == 0 then Err(EmptyGrid)
    else if |predictions| == 0 then Ok(Fit(low, Undefined))
    else
      var g := Grid(low, high, steps);
      var e := ErrorProfile(g, predictions, truth);
      var k := FirstMinIndex(e);
      Ok(Fit(g[k], RootOf(e[k])))
  }

  // ---------------------------------------------------------------------------
  // Properties
  // ---------------------------------------------------------------------------

  lemma {:induction false} SquaredErrorSumNonNegative(factor: real, predictions: seq<real>, truth: seq<real>)
    requires |predictions| == |truth|
    ensures SquaredErrorSum(factor, predictions, truth) >= 0.0
  {
    if predictions != [] {
      SquaredErrorSumNonNegative(factor, predictions[1..], truth[1..]);
    }
  }

  /** A single mismatching data point makes the squared error positive. */
  lemma {:induction false} SquaredErrorSumPositive(factor: real, predictions: seq<real>, truth: seq<real>, j: nat)
    requires |predictions| == |truth|
    requires j < |predictions| && factor * predictions[j] != truth[j]
    ensures SquaredErrorSum(factor, predictions, truth) > 0.0
  {
    var e := factor * predictions[0] - truth[0];
    var rest := SquaredErrorSum(factor, predictions[1..], truth[1..]);
    assert SquaredErrorSum(factor, predictions, truth) == e * e + rest;
    if j == 0 {
      assert e != 0.0;
      SquaredErrorSumNonNegative(factor, predictions[1..], truth[1..]);
      SquareOfNonZero(e, rest);
    } else {
      assert predictions[1..][j - 1] == predictions[j] && truth[1..][j - 1] == truth[j];
      SquaredErrorSumPositive(factor, predictions[1..], truth[1..], j - 1);
      SquareNonNegative(e);
    }
  }

  lemma SquareNonNegative(e: real)
    ensures e * e >= 0.0
  {
    if e < 0.0 {
      assert e * e == (-e) * (-e);
    }
  }

  lemma SquarePositive(e: real)
    requires e != 0.0
    ensures e * e > 0.0
  {
    if e < 0.0 {
      calc { e * e; == (-e) * (-e); > 0.0; }
    } else {
      calc { e * e; > 0.0; }
    }
  }

  /** A positive square plus a non-negative rest is positive. */
  lemma SquareOfNonZero(e: real, rest: real)
    requires e != 0.0 && rest >= 0.0
    ensures e * e + rest > 0.0
  {
    calc {
      e * e + rest;
    >=
      e * e;
    > { SquarePositive(e); }
      0.0;
    }
  }

  /** The mean squared error (hence the RMSE) is never negative. */
  lemma MeanSquaredErrorNonNegative(factor: real, predictions: seq<real>, truth: seq<real>)
    requires |predictions| == |truth| > 0
    ensures MeanSquaredError(factor, predictions, truth) >= 0.0
  {
    SquaredErrorSumNonNegative(factor, predictions, truth);
  }

  /** The search fails exactly on different lengths or a grid of no points. */
  lemma FailsExactlyOnBadShape(predictions: seq<real>, truth: seq<real>, low: real, high: real, steps: int)
    ensures OptimiseMlEnhancement(predictions, truth, low, high, steps).Err? <==> |predictions| != |truth| || steps <= 0
    ensures |predictions| != |truth| ==> OptimiseMlEnhancement(predictions, truth, low, high, steps) == Err(ShapeMismatch)
  {
  }

  /** On non-empty data the result is a grid factor with the least error of
      all grid factors, no earlier grid factor attains that error, and the
      error is not negative. */
  lemma ResultIsFirstGridMinimiser(predictions: seq<real>, truth: seq<real>, low: real, high: real, steps: int)
    requires |predictions| == |truth| > 0 && steps > 0
    ensures OptimiseMlEnhancement(predictions, truth, low, high, steps).Ok?
    ensures
      var fit := OptimiseMlEnhancement(predictions, truth, low, high, steps).value;
      var g := Grid(low, high, steps);
      && fit.rmse.RootOf?
      && fit.rmse.meanSquare == MeanSquaredError(fit.factor, predictions, truth) >= 0.0
      && (forall i :: 0 <= i < steps ==> fit.rmse.meanSquare <= MeanSquaredError(g[i], predictions, truth))
      && (exists k :: 0 <= k < steps && fit.factor == g[k]
            && forall j :: 0 <= j < k ==> MeanSquaredError(g[j], predictions, truth) > fit.rmse.meanSquare)
  {
    var g := Grid(low, high, steps);
    var e := ErrorProfile(g, predictions, truth);
    var k := FirstMinIndex(e);
    MeanSquaredErrorNonNegative(g[k], predictions, truth);
    assert forall i :: 0 <= i < steps ==> e[i] == MeanSquaredError(g[i], predictions, truth);
  }

  /** With no data the search still answers, with the first grid point and an
      undefined (NaN) RMSE. */
  lemma EmptyDataGivesFirstFactor(low: real, high: real, steps: int)
    requires steps > 0
    ensures OptimiseMlEnhancement([], [], low, high, steps) == Ok(Fit(low, Undefined))
  {
  }

  /** Predictions equal to the truth, not all zero, on the default grid
      (0.5 .. 1.5 in 201 steps): the factor is exactly 1.0 and the RMSE is 0. */
  lemma PerfectPredictionsGiveIdentity(y: seq<real>, j: nat)
    requires j < |y| && y[j] != 0.0
    ensures OptimiseMlEnhancement(y, y, DefaultLow, DefaultHigh, DefaultSteps) == Ok(Fit(1.0, RootOf(0.0)))
  {
    var g := Grid(DefaultLow, DefaultHigh, DefaultSteps);
    var e := ErrorProfile(g, y, y);
    var k := FirstMinIndex(e);
    assert g[100] == 1.0 by {
      assert g[100] == GridPoint(DefaultLow, DefaultHigh, DefaultSteps, 100);
    }
    assert e[100] == 0.0 by {
      ZeroErrorAtIdentity(y);
    }
    MeanSquaredErrorNonNegative(g[k], y, y);
    assert e[k] == 0.0;
    if g[k] != 1.0 {
      assert g[k] * y[j] - y[j] == (g[k] - 1.0) * y[j];
      assert g[k] * y[j] != y[j];
      SquaredErrorSumPositive(g[k], y, y, j);
      assert false;
    }
  }

  /** Factor 1 reproduces every prediction exactly. */
  lemma {:induction false} ZeroErrorAtIdentity(y: seq<real>)
    ensures SquaredErrorSum(1.0, y, y) == 0.0
  {
    if y != [] {
      ZeroErrorAtIdentity(y[1..]);
    }
  }

  /** If both series are all zeros every factor fits perfectly, and the search
      returns the FIRST grid point, whatever the grid. */
  lemma AllZeroDataGivesFirstFactor(y: seq<real>, low: real, high: real, steps: int)
    requires |y| > 0 && steps > 0
    requires forall i :: 0 <= i < |y| ==> y[i] == 0.0
    ensures OptimiseMlEnhancement(y, y, low, high, steps) == Ok(Fit(low, RootOf(0.0)))
  {
    var g := Grid(low, high, steps);
    var e := ErrorProfile(g, y, y);
    forall i | 0 <= i < steps ensures e[i] == 0.0 {
      ZeroErrorOnZeroData(g[i], y);
    }
    assert FirstMinIndex(e) == 0;
  }

  lemma {:induction false} ZeroErrorOnZeroData(factor: real, y: seq<real>)
    requires forall i :: 0 <= i < |y| ==> y[i] == 0.0
    ensures SquaredErrorSum(factor, y, y) == 0.0
  {
    if y != [] {
      ZeroErrorOnZeroData(factor, y[1..]);
    }
  }
}
