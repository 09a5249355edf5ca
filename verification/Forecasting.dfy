/** The fit of src/omnitensor/forecasting.py: accumulation in place, solve, split by time and score. */
module Forecasting {
  import opened Prelude
  import opened Linear
  import opened GaussJordan
  import opened Ridge

  /** One training row added to the upper triangle and the right-hand side; zero entries are skipped. */
  method AccumulateRow(normal: array2<real>, right: array<real>, row: Vector, target: real, ghost done: Matrix,
                       ghost targets: Vector)
    requires normal.Length0 == normal.Length1 == right.Length == |row|
    requires |done| == |targets| && Rectangular(done, |row|)
    requires Upper(normal, right, done, targets)
    modifies normal, right
    ensures Upper(normal, right, done + [row], targets + [target])
  {
    var width := |row|;
    ghost var more, goals := done + [row], targets + [target];
    assert more[..|done|] == done && goals[..|done|] == targets;
    for i := 0 to width
      invariant forall a, b :: 0 <= a < i && a <= b < width ==> normal[a, b] == Moment(more, a, b)
      invariant forall a, b :: i <= a < width && a <= b < width ==> normal[a, b] == Moment(done, a, b)
      invariant forall a :: 0 <= a < i ==> right[a] == Cross(more, goals, a)
      invariant forall a :: i <= a < width ==> right[a] == Cross(done, targets, a)
    {
      var value := row[i];
      if value != 0.0 {
        right[i] := right[i] + Mul(value, target);
        for j := i to width
          invariant forall a, b :: 0 <= a < i && a <= b < width ==> normal[a, b] == Moment(more, a, b)
          invariant forall a, b :: i < a < width && a <= b < width ==> normal[a, b] == Moment(done, a, b)
          invariant forall b :: i <= b < j ==> normal[i, b] == Moment(more, i, b)
          invariant forall b :: j <= b < width ==> normal[i, b] == Moment(done, i, b)
          modifies normal
        {
          normal[i, j] := normal[i, j] + Mul(value, row[j]);
        }
      } else {
        MulZero(target);
        forall b | 0 <= b < width ensures Moment(more, i, b) == Moment(done, i, b) {
          MulZero(row[b]);
        }
      }
    }
  }

  /** The upper triangle and right-hand side hold the sums over `rows`. */
  ghost predicate Upper(normal: array2<real>, right: array<real>, rows: Matrix, targets: Vector)
    requires normal.Length0 == normal.Length1 == right.Length
    requires |rows| == |targets| && Rectangular(rows, right.Length)
    reads normal, right
  {
    && (forall a, b :: 0 <= a <= b < right.Length ==> normal[a, b] == Moment(rows, a, b))
    && (forall a :: 0 <= a < right.Length ==> right[a] == Cross(rows, targets, a))
  }

  /** The lower half copied from the upper. */
  method Mirror(normal: array2<real>)
    requires normal.Length0 == normal.Length1
    modifies normal
    ensures forall a, b :: 0 <= a <= b < normal.Length0 ==>
      normal[a, b] == old(normal[a, b]) && normal[b, a] == old(normal[a, b])
  {
    var width := normal.Length0;
    for i := 0 to width
      invariant forall a, b :: 0 <= a <= b < width ==> normal[a, b] == old(normal[a, b])
      invariant forall a, b :: 0 <= a < i && a <= b < width ==> normal[b, a] == normal[a, b]
    {
      for j := i + 1 to width
        invariant forall a, b :: 0 <= a <= b < width ==> normal[a, b] == old(normal[a, b])
        invariant forall a, b :: 0 <= a < i && a <= b < width ==> normal[b, a] == normal[a, b]
        invariant forall b :: i <= b < j ==> normal[b, i] == normal[i, b]
      {
        normal[j, i] := normal[i, j];
      }
    }
  }

  /** The penalty on every diagonal entry but the intercept's. */
  method AddRidge(normal: array2<real>, ridge: real)
    requires normal.Length0 == normal.Length1
    modifies normal
    ensures forall a, b :: 0 <= a < normal.Length0 && 0 <= b < normal.Length0 ==>
      normal[a, b] == old(normal[a, b]) + (if a == b && a > 0 then ridge else 0.0)
  {
    var width := normal.Length0;
    var i := 1;
    while i < width
      invariant 1 <= i && (width > 0 ==> i <= width)
      invariant forall a, b :: 0 <= a < width && 0 <= b < width ==>
        normal[a, b] == old(normal[a, b]) + (if a == b && 0 < a < i then ridge else 0.0)
    {
      normal[i, i] := normal[i, i] + ridge;
      i := i + 1;
    }
  }

  function RowsOf(a: array2<real>): (m: Matrix)
    reads a
    ensures |m| == a.Length0 && Rectangular(m, a.Length1)
    ensures forall i, j :: 0 <= i < a.Length0 && 0 <= j < a.Length1 ==> m[i][j] == a[i, j]
  {
    seq(a.Length0, i requires 0 <= i < a.Length0 reads a =>
      seq(a.Length1, j requires 0 <= j < a.Length1 reads a => a[i, j]))
  }

  lemma NothingSummed()
    ensures forall i, j :: Moment([], i, j) == 0.0
    ensures forall i :: Cross([], [], i) == 0.0
  {
  }

  method AccumulateRows(normal: array2<real>, right: array<real>, rows: Matrix, targets: Vector)
    requires normal.Length0 == normal.Length1 == right.Length && Design(rows, targets, right.Length)
    requires Upper(normal, right, [], [])
    modifies normal, right
    ensures Upper(normal, right, rows, targets)
  {
    hide Upper;
    assert rows[..0] == [] && targets[..0] == [];
    for k := 0 to |rows|
      invariant Upper(normal, right, rows[..k], targets[..k])
    {
      assert rows[..k + 1] == rows[..k] + [rows[k]] && targets[..k + 1] == targets[..k] + [targets[k]];
      AccumulateRow(normal, right, rows[k], targets[k], rows[..k], targets[..k]);
    }
    assert rows[..|rows|] == rows && targets[..|rows|] == targets;
  }

  /** The accumulated, mirrored and penalised sums are the normal equations. */
  method NormalEquations(rows: Matrix, targets: Vector, ridge: real, width: nat)
    returns (matrix: Matrix, right: Vector)
    requires Design(rows, targets, width)
    ensures matrix == NormalMatrix(rows, ridge, width)
    ensures right == NormalRight(rows, targets, width)
  {
    var normal := new real[width, width]((i, j) => 0.0);
    var sums := new real[width](i => 0.0);
    NothingSummed();
    AccumulateRows(normal, sums, rows, targets);
    hide Mul, Moment, Cross;
    Mirror(normal);
    forall i, j | 0 <= i < width && 0 <= j < width ensures normal[i, j] == Moment(rows, i, j) {
      MomentSymmetric(rows, i, j);
    }
    AddRidge(normal, ridge);
    matrix := RowsOf(normal);
    right := sums[..];
    hide Upper;
    forall i | 0 <= i < width ensures matrix[i] == NormalRow(rows, ridge, i, width) {
    }
  }

  /** Ridge least squares with an intercept. */
  method SolveRidge(inputs: Matrix, targets: Vector, ridge: real) returns (result: Result<(Vector, real), FitError>)
    requires |inputs| == |targets| > 0 && Rectangular(inputs, |inputs[0]|)
    ensures result.Err? <==> FitRefused(inputs, targets, ridge)
    ensures result.Ok? ==> |result.value.0| == |inputs[0]|
    ensures result.Ok? && ridge >= 0.0 ==>
      UniqueMinimiser(inputs, targets, ridge, result.value.0, result.value.1)
    ensures result.Err? ==> result.error == FitDegenerate
  {
    hide NormalMatrix, NormalRight, UniqueMinimiser, Refuses, SolvesSystem;
    var width := |inputs[0]| + 1;
    var rows := DesignRows(inputs);
    assert Design(rows, targets, width);
    var matrix, right := NormalEquations(rows, targets, ridge, width);
    var solved := Solve(matrix, right);
    if solved.Err? {
      return Err(solved.error);
    }
    var solution := solved.value;
    if ridge >= 0.0 {
      SoleSolutionMinimises(inputs, targets, ridge, solution);
    }
    return Ok((solution[1..], solution[0]));
  }

  // Splitting by time and scoring on what the fit did not see.

  const MAX_FEATURES_PER_FIT := 512
  const MIN_TRAINING_ROWS := 8

  datatype Quality = Quality(samples: nat, meanAbsoluteError: real, baselineError: real)

  datatype Forecaster = Forecaster(features: nat, window: nat, weights: Vector, intercept: real, quality: Quality)

  function Split(count: nat, holdout: real): (split: int)
    requires count >= 2 && 0.0 < holdout < 1.0
    ensures 1 <= split < count
    ensures var kept := count as real * (1.0 - holdout);
      split as real <= kept < split as real + 1.0 || (split == 1 && kept < 1.0)
  {
    var kept := (count as real * (1.0 - holdout)).Floor;
    var atLeastOne := if kept < 1 then 1 else kept;
    if count - 1 < atLeastOne then count - 1 else atLeastOne
  }

  /** The errors add up, one magnitude for each guess. */
  lemma {:induction false} ErrorsAddUp(guesses: Vector, targets: Vector, more: Vector, goals: Vector)
    requires |guesses| == |targets| && |more| == |goals|
    ensures AbsoluteErrors(guesses + more, targets + goals)
      == AbsoluteErrors(guesses, targets) + AbsoluteErrors(more, goals)
    ensures |more| == 1 ==>
      AbsoluteErrors(more, goals) == if more[0] < goals[0] then goals[0] - more[0] else more[0] - goals[0]
    decreases |more|
  {
    if more == [] {
      assert guesses + more == guesses && targets + goals == targets;
    } else {
      var k := |more| - 1;
      ErrorsAddUp(guesses, targets, more[..k], goals[..k]);
      assert (guesses + more)[..|guesses| + k] == guesses + more[..k];
      assert (targets + goals)[..|guesses| + k] == targets + goals[..k];
      if k == 0 {
        assert AbsoluteErrors(more[..0], goals[..0]) == 0.0;
      }
    }
  }

  ghost function AbsoluteErrors(guesses: Vector, targets: Vector): real
    requires |guesses| == |targets|
  {
    if guesses == [] then 0.0
    else
      var k := |guesses| - 1;
      AbsoluteErrors(guesses[..k], targets[..k]) + Abs(guesses[k] - targets[k])
  }

  method TotalError(guesses: Vector, targets: Vector) returns (total: real)
    requires |guesses| == |targets|
    ensures total == AbsoluteErrors(guesses, targets)
  {
    total := 0.0;
    for k := 0 to |guesses|
      invariant total == AbsoluteErrors(guesses[..k], targets[..k])
    {
      assert guesses[..k + 1][..k] == guesses[..k] && targets[..k + 1][..k] == targets[..k];
      total := total + Abs(guesses[k] - targets[k]);
    }
    assert guesses[..|guesses|] == guesses && targets[..|guesses|] == targets;
  }

  function Predictions(inputs: Matrix, weights: Vector, intercept: real): (p: Vector)
    requires Rectangular(inputs, |weights|)
    ensures |p| == |inputs|
    ensures forall k :: 0 <= k < |p| ==> p[k] == intercept + Dot(weights, inputs[k])
  {
    seq(|inputs|, k requires 0 <= k < |inputs| => Predict(weights, intercept, inputs[k]))
  }

  /** "The same as last time": the latest value of the first feature. */
  function Baselines(inputs: Matrix, width: nat, features: nat): (p: Vector)
    requires Rectangular(inputs, width) && 1 <= features <= width
    ensures |p| == |inputs|
    ensures forall k :: 0 <= k < |p| ==> p[k] == inputs[k][|inputs[k]| - features]
  {
    seq(|inputs|, k requires 0 <= k < |inputs| => inputs[k][width - features])
  }

  method Score(inputs: Matrix, targets: Vector, weights: Vector, intercept: real, features: nat)
    returns (quality: Quality)
    requires |inputs| == |targets| > 0 && Rectangular(inputs, |weights|) && 1 <= features <= |weights|
    ensures Scores(quality, inputs, targets, weights, intercept, features)
  {
    var error := TotalError(Predictions(inputs, weights, intercept), targets);
    var baseline := TotalError(Baselines(inputs, |weights|, features), targets);
    var count := |targets| as real;
    quality := Quality(|targets|, error / count, baseline / count);
  }

  /** The shape rules a fit is refused by, first failing rule first. */
  function ShapeError(inputs: Matrix, targets: Vector, features: nat, window: int): Option<FitError> {
    if window < 1 then Some(BoundsInvalid)
    else if features == 0 then Some(FeaturesInvalid)
    else if |inputs| != |targets| then Some(TrainingInvalid)
    else if |inputs| < MIN_TRAINING_ROWS then Some(InsufficientHistory)
    else if features * window > MAX_FEATURES_PER_FIT then Some(FeaturesInvalid)
    else if exists k :: 0 <= k < |inputs| && |inputs[k]| != features * window then Some(TrainingInvalid)
    else None
  }

  /**
   A fit is the unique minimiser over the earlier rows, scored on the later rows it never saw; at
   least one row falls on each side of the split.
   */
  ghost predicate HonestFit(inputs: Matrix, targets: Vector, features: nat, ridge: real, holdout: real, f: Forecaster) {
    && |inputs| == |targets| >= MIN_TRAINING_ROWS && 0.0 < holdout < 1.0
    && Rectangular(inputs, |f.weights|) && 1 <= features <= |f.weights|
    && var split := Split(|inputs|, holdout);
    && UniqueMinimiser(inputs[..split], targets[..split], ridge, f.weights, f.intercept)
    && Scores(f.quality, inputs[split..], targets[split..], f.weights, f.intercept, features)
  }

  /** Mean absolute error of the fit beside that of repeating the last value. */
  ghost predicate Scores(quality: Quality, inputs: Matrix, targets: Vector, weights: Vector, intercept: real,
                         features: nat)
    requires |inputs| == |targets| && Rectangular(inputs, |weights|) && 1 <= features <= |weights|
  {
    && quality.samples == |targets|
    && quality.meanAbsoluteError * |targets| as real
      == AbsoluteErrors(Predictions(inputs, weights, intercept), targets)
    && quality.baselineError * |targets| as real == AbsoluteErrors(Baselines(inputs, |weights|, features), targets)
  }

  predicate TooWide(inputs: Matrix, targets: Vector, width: int) {
    |inputs| == |targets| && |inputs| >= 8 && width > 512
  }

  /** Which rule is broken first, and when none is. */
  lemma ShapeExactly(inputs: Matrix, targets: Vector, features: nat, window: int)
    ensures var e := ShapeError(inputs, targets, features, window); var width := features * window;
      && (e.None? <==>
            && window >= 1 && features >= 1 && |inputs| == |targets| && |inputs| >= 8 && width <= 512
            && forall k :: 0 <= k < |inputs| ==> |inputs[k]| == width)
      && (e == Some(BoundsInvalid) <==> window < 1)
      && (e == Some(InsufficientHistory) <==> window >= 1 && features >= 1 && |inputs| == |targets| && |inputs| < 8)
      && (e == Some(FeaturesInvalid) <==> window >= 1 && (features == 0 || TooWide(inputs, targets, width)))
      && e != Some(FitDegenerate)
  {
  }

  /** Arguments that are not refused for what they are. */
  ghost predicate Admissible(inputs: Matrix, targets: Vector, features: nat, window: int, ridge: real, holdout: real)
    ensures Admissible(inputs, targets, features, window, ridge, holdout) ==>
      |inputs| == |targets| >= MIN_TRAINING_ROWS && Rectangular(inputs, |inputs[0]|)
  {
    ShapeError(inputs, targets, features, window).None? && ridge >= 0.0 && 0.0 < holdout < 1.0
  }

  /** The earlier rows, on which the fit is made, leave the solver with a negligible column. */
  ghost predicate TrainingRefused(inputs: Matrix, targets: Vector, ridge: real, holdout: real)
    requires |inputs| == |targets| >= 2 && Rectangular(inputs, |inputs[0]|) && 0.0 < holdout < 1.0
  {
    var split := Split(|inputs|, holdout);
    FitRefused(inputs[..split], targets[..split], ridge)
  }

  /**
   A fit, or the first rule broken; and for admissible arguments "degenerate" exactly when the solver's run
   on the training rows comes to a negligible column.
   */
  method FitForecaster(inputs: Matrix, targets: Vector, features: nat, window: int, ridge: real, holdout: real)
    returns (result: Result<Forecaster, FitError>)
    ensures ShapeError(inputs, targets, features, window).Some? ==>
      result == Err(ShapeError(inputs, targets, features, window).value)
    ensures ShapeError(inputs, targets, features, window).None? && (ridge < 0.0 || !(0.0 < holdout < 1.0)) ==>
      result == Err(BoundsInvalid)
    ensures Admissible(inputs, targets, features, window, ridge, holdout) ==>
      result == Err(FitDegenerate) || result.Ok?
    ensures Admissible(inputs, targets, features, window, ridge, holdout) ==>
      (result.Err? <==> TrainingRefused(inputs, targets, ridge, holdout))
    ensures result.Ok? ==> HonestFit(inputs, targets, features, ridge, holdout, result.value)
  {
    hide UniqueMinimiser, Scores, FitRefused;
    var refused := ShapeError(inputs, targets, features, window);
    if refused.Some? {
      return Err(refused.value);
    }
    if ridge < 0.0 || !(0.0 < holdout < 1.0) {
      return Err(BoundsInvalid);
    }
    WidthAtLeast(features, window);
    var split := Split(|inputs|, holdout);
    var solved := SolveRidge(inputs[..split], targets[..split], ridge);
    if solved.Err? {
      return Err(solved.error);
    }
    var (weights, intercept) := solved.value;
    var quality := Score(inputs[split..], targets[split..], weights, intercept, features);
    return Ok(Forecaster(features, window, weights, intercept, quality));
  }

  lemma WidthAtLeast(features: nat, window: int)
    requires window >= 1
    ensures features <= features * window
  {
  }
}
