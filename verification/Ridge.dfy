/**
 The ridge fit of src/omnitensor/forecasting.py over exact reals: normal equations accumulated in
 place, solved by Gauss-Jordan, and shown to give the one minimiser of the penalised squared error.

 A design row is a training row with a leading 1 for the intercept; a coefficient vector is the
 intercept followed by the weights.
 */
module Ridge {
  import opened Linear
  import opened GaussJordan

  /** The error of predicting `target` from `row`. */
  function Residual(row: Vector, target: real, z: Vector): real
    requires |row| == |z|
  {
    target - Dot(row, z)
  }

  ghost predicate Design(rows: Matrix, targets: Vector, n: nat) {
    |rows| == |targets| && Rectangular(rows, n) && n > 0
  }

  // The quantities the fit is about, each a sum over the rows.

  ghost function Loss(rows: Matrix, targets: Vector, z: Vector): real
    requires Design(rows, targets, |z|)
  {
    if rows == [] then 0.0
    else
      var k := |rows| - 1;
      var e := Residual(rows[k], targets[k], z);
      Loss(rows[..k], targets[..k], z) + Mul(e, e)
  }

  /** Half the descent direction of the loss: the residual-weighted sum of the rows. */
  ghost function Pull(rows: Matrix, targets: Vector, z: Vector): (g: Vector)
    requires Design(rows, targets, |z|)
    ensures |g| == |z|
  {
    if rows == [] then Zeros(|z|)
    else
      var k := |rows| - 1;
      Plus(Pull(rows[..k], targets[..k], z), Scaled(Residual(rows[k], targets[k], z), rows[k]))
  }

  ghost function Energy(rows: Matrix, d: Vector): real
    requires Rectangular(rows, |d|)
  {
    if rows == [] then 0.0
    else
      var p := Dot(rows[|rows| - 1], d);
      Energy(rows[..|rows| - 1], d) + Mul(p, p)
  }

  /** The penalty: every coefficient but the intercept. */
  ghost function Penalty(z: Vector): real
    requires |z| > 0
  {
    Dot(z[1..], z[1..])
  }

  ghost function Objective(rows: Matrix, targets: Vector, ridge: real, z: Vector): real
    requires Design(rows, targets, |z|)
  {
    Loss(rows, targets, z) + Mul(ridge, Penalty(z))
  }

  /** The coefficients with the unpenalised intercept blanked out. */
  ghost function Penalised(z: Vector): (v: Vector)
    requires |z| > 0
    ensures |v| == |z|
  {
    [0.0] + z[1..]
  }

  /** The normal equations, as a balance between the pull of the data and the penalty. */
  ghost predicate Balanced(rows: Matrix, targets: Vector, ridge: real, z: Vector)
    requires Design(rows, targets, |z|)
  {
    Pull(rows, targets, z) == Scaled(ridge, Penalised(z))
  }

  // The objective is exactly quadratic around any point.

  lemma Square(e: real, p: real)
    ensures Mul(e - p, e - p) == Mul(e, e) - Mul(e, p) - Mul(e, p) + Mul(p, p)
  {
  }

  lemma {:induction false} LossExpands(rows: Matrix, targets: Vector, z: Vector, d: Vector)
    requires |z| == |d| && Design(rows, targets, |z|)
    ensures Loss(rows, targets, Plus(z, d))
      == Loss(rows, targets, z) - Dot(Pull(rows, targets, z), d) - Dot(Pull(rows, targets, z), d) + Energy(rows, d)
  {
    hide Mul, Plus, Scaled;
    if rows == [] {
      DotZeros(d);
    } else {
      var k := |rows| - 1;
      LossExpands(rows[..k], targets[..k], z, d);
      var e, p := Residual(rows[k], targets[k], z), Dot(rows[k], d);
      DotSymmetric(rows[k], Plus(z, d));
      DotPlus(z, d, rows[k]);
      DotSymmetric(z, rows[k]);
      DotSymmetric(d, rows[k]);
      assert Residual(rows[k], targets[k], Plus(z, d)) == e - p;
      Square(e, p);
      DotPlus(Pull(rows[..k], targets[..k], z), Scaled(e, rows[k]), d);
      DotScaled(e, rows[k], d);
    }
  }

  lemma PenaltyExpands(z: Vector, d: Vector)
    requires |z| == |d| > 0
    ensures Penalty(Plus(z, d)) == Penalty(z) + Dot(z[1..], d[1..]) + Dot(z[1..], d[1..]) + Penalty(d)
  {
    PlusTail(z, d);
    var u, v := z[1..], d[1..];
    hide Mul, Plus;
    DotPlus(u, v, Plus(u, v));
    DotSymmetric(u, Plus(u, v));
    DotSymmetric(v, Plus(u, v));
    DotPlus(u, v, u);
    DotPlus(u, v, v);
    DotSymmetric(v, u);
  }

  lemma PenalisedDot(z: Vector, d: Vector)
    requires |z| == |d| > 0
    ensures Dot(Penalised(z), d) == Dot(z[1..], d[1..])
  {
    MulZero(d[0]);
    hide Mul;
    assert Penalised(z)[1..] == z[1..];
  }

  /** Around a balanced point the objective has no linear term. */
  lemma ObjectiveExpands(rows: Matrix, targets: Vector, ridge: real, z: Vector, d: Vector)
    requires |z| == |d| && Design(rows, targets, |z|) && Balanced(rows, targets, ridge, z)
    ensures Objective(rows, targets, ridge, Plus(z, d))
      == Objective(rows, targets, ridge, z) + Energy(rows, d) + Mul(ridge, Penalty(d))
  {
    hide Mul, Plus, Scaled, Loss, Pull, Energy, Penalty;
    LossExpands(rows, targets, z, d);
    PenaltyExpands(z, d);
    PenalisedDot(z, d);
    var c := Dot(z[1..], d[1..]);
    DotScaled(ridge, Penalised(z), d);
    MulSum(Penalty(z) + c + c, Penalty(d), ridge);
    MulSum(Penalty(z) + c, c, ridge);
    MulSum(Penalty(z), c, ridge);
  }

  lemma {:induction false} EnergyNonNegative(rows: Matrix, d: Vector)
    requires Rectangular(rows, |d|)
    ensures Energy(rows, d) >= 0.0
    ensures Energy(rows, d) == 0.0 ==> forall k :: 0 <= k < |rows| ==> Dot(rows[k], d) == 0.0
  {
    hide Mul;
    if rows != [] {
      var last := |rows| - 1;
      EnergyNonNegative(rows[..last], d);
      SquareSign(Dot(rows[last], d));
    }
  }

  /** Where every row is blind to `d`, moving by `d` leaves the pull of the data as it was. */
  lemma {:induction false} BlindPull(rows: Matrix, targets: Vector, z: Vector, d: Vector)
    requires |z| == |d| && Design(rows, targets, |z|)
    requires forall k :: 0 <= k < |rows| ==> Dot(rows[k], d) == 0.0
    ensures Pull(rows, targets, Plus(z, d)) == Pull(rows, targets, z)
  {
    hide Mul, Plus, Scaled;
    if rows != [] {
      var k := |rows| - 1;
      BlindPull(rows[..k], targets[..k], z, d);
      DotSymmetric(rows[k], Plus(z, d));
      DotPlus(z, d, rows[k]);
      DotSymmetric(z, rows[k]);
      DotSymmetric(d, rows[k]);
    }
  }

  lemma BlindPenalty(ridge: real, z: Vector, d: Vector)
    requires |z| == |d| > 0 && ridge >= 0.0 && Mul(ridge, Penalty(d)) == 0.0
    ensures Scaled(ridge, Penalised(Plus(z, d))) == Scaled(ridge, Penalised(z))
  {
    if ridge == 0.0 {
    } else {
      DotSquare(d[1..]);
      if Penalty(d) > 0.0 {
        PositiveProduct(ridge, Penalty(d));
      }
      assert Penalty(d) == 0.0;
      assert Plus(z, d)[1..] == z[1..];
    }
  }

  function Minus(a: Vector, b: Vector): (r: Vector)
    requires |a| == |b|
    ensures |r| == |a| && Plus(b, r) == a
  {
    seq(|a|, i requires 0 <= i < |a| => a[i] - b[i])
  }

  /**
   A balanced point minimises the objective over all real coefficients, and any other point that does
   as well is balanced too.
   */
  lemma BalancedMinimises(rows: Matrix, targets: Vector, ridge: real, z: Vector, y: Vector)
    requires |z| == |y| && Design(rows, targets, |z|) && ridge >= 0.0
    requires Balanced(rows, targets, ridge, z)
    ensures Objective(rows, targets, ridge, z) <= Objective(rows, targets, ridge, y)
    ensures Objective(rows, targets, ridge, z) == Objective(rows, targets, ridge, y) ==>
      Balanced(rows, targets, ridge, y)
  {
    var d := Minus(y, z);
    ObjectiveExpands(rows, targets, ridge, z, d);
    EnergyNonNegative(rows, d);
    DotSquare(d[1..]);
    PenaltySign(ridge, Penalty(d));
    if Objective(rows, targets, ridge, z) == Objective(rows, targets, ridge, y) {
      BlindPull(rows, targets, z, d);
      BlindPenalty(ridge, z, d);
    }
  }

  lemma PenaltySign(ridge: real, p: real)
    requires ridge >= 0.0 && p >= 0.0
    ensures Mul(ridge, p) >= 0.0
  {
  }

  // The normal equations as a square system.

  ghost function Moment(rows: Matrix, i: nat, j: nat): real
    requires forall k :: 0 <= k < |rows| ==> i < |rows[k]| && j < |rows[k]|
  {
    if rows == [] then 0.0
    else
      var k := |rows| - 1;
      Moment(rows[..k], i, j) + Mul(rows[k][i], rows[k][j])
  }

  ghost function Cross(rows: Matrix, targets: Vector, i: nat): real
    requires |rows| == |targets| && forall k :: 0 <= k < |rows| ==> i < |rows[k]|
  {
    if rows == [] then 0.0
    else
      var k := |rows| - 1;
      Cross(rows[..k], targets[..k], i) + Mul(rows[k][i], targets[k])
  }

  lemma {:induction false} MomentSymmetric(rows: Matrix, i: nat, j: nat)
    requires forall k :: 0 <= k < |rows| ==> i < |rows[k]| && j < |rows[k]|
    ensures Moment(rows, i, j) == Moment(rows, j, i)
  {
    hide Mul;
    if rows != [] {
      var k := |rows| - 1;
      MomentSymmetric(rows[..k], i, j);
      MulSwap(rows[k][i], rows[k][j]);
    }
  }

  ghost function Moments(rows: Matrix, i: nat, n: nat): (v: Vector)
    requires Rectangular(rows, n) && i < n
    ensures |v| == n
  {
    seq(n, j requires 0 <= j < n => Moment(rows, i, j))
  }

  /** The pull in direction `i` is what the right-hand side asks for less what the matrix already gives. */
  lemma {:induction false} PullEntry(rows: Matrix, targets: Vector, z: Vector, i: nat)
    requires Design(rows, targets, |z|) && i < |z|
    ensures Pull(rows, targets, z)[i] == Cross(rows, targets, i) - Dot(Moments(rows, i, |z|), z)
  {
    if rows == [] {
      assert Moments(rows, i, |z|) == Zeros(|z|);
      DotZeros(z);
    } else {
      var k := |rows| - 1;
      PullEntry(rows[..k], targets[..k], z, i);
      var x, p := rows[k][i], Dot(rows[k], z);
      assert Moments(rows, i, |z|) == Plus(Moments(rows[..k], i, |z|), Scaled(x, rows[k]));
      hide Mul;
      DotPlus(Moments(rows[..k], i, |z|), Scaled(x, rows[k]), z);
      DotScaled(x, rows[k], z);
      MulSum(targets[k] - p, p, x);
      MulSwap(x, targets[k]);
      MulSwap(x, p);
    }
  }

  /** Row `i` of the normal matrix; the intercept's diagonal entry carries no penalty. */
  ghost function NormalRow(rows: Matrix, ridge: real, i: nat, n: nat): (v: Vector)
    requires Rectangular(rows, n) && i < n
    ensures |v| == n
  {
    seq(n, j requires 0 <= j < n => Moment(rows, i, j) + (if i == j && i > 0 then ridge else 0.0))
  }

  ghost function NormalMatrix(rows: Matrix, ridge: real, n: nat): (m: Matrix)
    requires Rectangular(rows, n)
    ensures |m| == n && Rectangular(m, n)
  {
    seq(n, i requires 0 <= i < n => NormalRow(rows, ridge, i, n))
  }

  ghost function NormalRight(rows: Matrix, targets: Vector, n: nat): (v: Vector)
    requires Rectangular(rows, n) && |rows| == |targets|
    ensures |v| == n
  {
    seq(n, i requires 0 <= i < n => Cross(rows, targets, i))
  }

  lemma NormalRowDot(rows: Matrix, ridge: real, i: nat, z: Vector)
    requires Rectangular(rows, |z|) && i < |z|
    ensures Dot(NormalRow(rows, ridge, i, |z|), z)
      == Dot(Moments(rows, i, |z|), z) + (if i > 0 then Mul(ridge, z[i]) else 0.0)
  {
    if i == 0 {
      assert NormalRow(rows, ridge, i, |z|) == Moments(rows, i, |z|);
    } else {
      var unit := seq(|z|, j requires 0 <= j < |z| => if j == i then 1.0 else 0.0);
      assert NormalRow(rows, ridge, i, |z|) == Plus(Moments(rows, i, |z|), Scaled(ridge, unit));
      hide Mul;
      DotPlus(Moments(rows, i, |z|), Scaled(ridge, unit), z);
      DotScaled(ridge, unit, z);
      DotUnit(unit, z, i);
    }
  }

  /** Solving the normal system and balancing pull against penalty are the same thing. */
  lemma NormalSystem(rows: Matrix, targets: Vector, ridge: real, z: Vector)
    requires Design(rows, targets, |z|)
    ensures SolvesSystem(NormalMatrix(rows, ridge, |z|), NormalRight(rows, targets, |z|), z)
      <==> Balanced(rows, targets, ridge, z)
  {
    MulZero(ridge);
    hide Mul, NormalRow, Pull, Moments, Cross, Dot;
    var pull, push := Pull(rows, targets, z), Scaled(ridge, Penalised(z));
    forall i | 0 <= i < |z|
      ensures Dot(NormalMatrix(rows, ridge, |z|)[i], z) == NormalRight(rows, targets, |z|)[i] <==> pull[i] == push[i]
    {
      PullEntry(rows, targets, z, i);
      NormalRowDot(rows, ridge, i, z);
    }
    assert pull == push <==> forall i :: 0 <= i < |z| ==> pull[i] == push[i];
  }

  // The fit, stated on the training rows as given.

  function DesignRow(row: Vector): Vector { [1.0] + row }

  function DesignRows(inputs: Matrix): (rows: Matrix)
    ensures |rows| == |inputs|
    ensures forall k :: 0 <= k < |rows| ==> rows[k] == DesignRow(inputs[k]) && |rows[k]| == |inputs[k]| + 1
  {
    seq(|inputs|, k requires 0 <= k < |inputs| => DesignRow(inputs[k]))
  }

  function Predict(weights: Vector, intercept: real, row: Vector): real
    requires |weights| == |row|
  {
    intercept + Dot(weights, row)
  }

  ghost function SquaredError(inputs: Matrix, targets: Vector, weights: Vector, intercept: real): real
    requires |inputs| == |targets| && Rectangular(inputs, |weights|)
  {
    if inputs == [] then 0.0
    else
      var k := |inputs| - 1;
      var e := targets[k] - Predict(weights, intercept, inputs[k]);
      SquaredError(inputs[..k], targets[..k], weights, intercept) + Mul(e, e)
  }

  /** What the fit minimises: squared error plus ridge times the squared weights, the intercept free. */
  ghost function PenalisedError(inputs: Matrix, targets: Vector, ridge: real, weights: Vector, intercept: real): real
    requires |inputs| == |targets| && Rectangular(inputs, |weights|)
  {
    SquaredError(inputs, targets, weights, intercept) + Mul(ridge, Dot(weights, weights))
  }

  lemma {:induction false} SquaredErrorIsLoss(inputs: Matrix, targets: Vector, weights: Vector, intercept: real)
    requires |inputs| == |targets| && Rectangular(inputs, |weights|)
    ensures Design(DesignRows(inputs), targets, |weights| + 1)
    ensures SquaredError(inputs, targets, weights, intercept)
      == Loss(DesignRows(inputs), targets, [intercept] + weights)
  {
    var rows, z := DesignRows(inputs), [intercept] + weights;
    assert Rectangular(rows, |z|);
    if inputs != [] {
      var k := |inputs| - 1;
      SquaredErrorIsLoss(inputs[..k], targets[..k], weights, intercept);
      assert rows[..k] == DesignRows(inputs[..k]);
      assert rows[k][1..] == inputs[k] && z[1..] == weights;
      MulSwap(1.0, intercept);
      DotSymmetric(weights, inputs[k]);
    }
  }

  lemma ErrorIsObjective(inputs: Matrix, targets: Vector, ridge: real, weights: Vector, intercept: real)
    requires |inputs| == |targets| && Rectangular(inputs, |weights|)
    ensures Design(DesignRows(inputs), targets, |weights| + 1)
    ensures PenalisedError(inputs, targets, ridge, weights, intercept)
      == Objective(DesignRows(inputs), targets, ridge, [intercept] + weights)
  {
    SquaredErrorIsLoss(inputs, targets, weights, intercept);
    assert ([intercept] + weights)[1..] == weights;
  }

  /** No other weights and intercept do as well as these. */
  ghost predicate UniqueMinimiser(inputs: Matrix, targets: Vector, ridge: real, weights: Vector, intercept: real)
    requires |inputs| == |targets| && Rectangular(inputs, |weights|)
  {
    forall w: Vector, b: real :: |w| == |weights| && (w != weights || b != intercept) ==>
      PenalisedError(inputs, targets, ridge, weights, intercept) < PenalisedError(inputs, targets, ridge, w, b)
  }

  /** `z` solves the normal system of these training rows and nothing else does. */
  ghost predicate SoleSolution(inputs: Matrix, targets: Vector, ridge: real, z: Vector)
    requires Design(DesignRows(inputs), targets, |z|)
  {
    var rows := DesignRows(inputs);
    var matrix, right := NormalMatrix(rows, ridge, |z|), NormalRight(rows, targets, |z|);
    forall x: Vector :: |x| == |z| ==> (SolvesSystem(matrix, right, x) <==> x == z)
  }

  lemma SoleSolutionBalances(inputs: Matrix, targets: Vector, ridge: real, z: Vector, y: Vector)
    requires Design(DesignRows(inputs), targets, |z|) && |y| == |z|
    requires SoleSolution(inputs, targets, ridge, z)
    ensures Balanced(DesignRows(inputs), targets, ridge, y) <==> y == z
  {
    NormalSystem(DesignRows(inputs), targets, ridge, y);
  }

  lemma OtherIsWorse(inputs: Matrix, targets: Vector, ridge: real, z: Vector, w: Vector, b: real)
    requires |z| > 0 && |inputs| == |targets| && Rectangular(inputs, |z| - 1) && ridge >= 0.0
    requires Design(DesignRows(inputs), targets, |z|) && SoleSolution(inputs, targets, ridge, z)
    requires |w| == |z| - 1 && [b] + w != z
    ensures PenalisedError(inputs, targets, ridge, z[1..], z[0]) < PenalisedError(inputs, targets, ridge, w, b)
  {
    hide SoleSolution, PenalisedError, Objective, Balanced;
    var y := [b] + w;
    assert z == [z[0]] + z[1..];
    SoleSolutionBalances(inputs, targets, ridge, z, z);
    SoleSolutionBalances(inputs, targets, ridge, z, y);
    ErrorIsObjective(inputs, targets, ridge, z[1..], z[0]);
    ErrorIsObjective(inputs, targets, ridge, w, b);
    BalancedMinimises(DesignRows(inputs), targets, ridge, z, y);
  }

  /** The sole solution of the normal system is the sole minimiser. */
  lemma SoleSolutionMinimises(inputs: Matrix, targets: Vector, ridge: real, z: Vector)
    requires |z| > 0 && |inputs| == |targets| && Rectangular(inputs, |z| - 1) && ridge >= 0.0
    requires Design(DesignRows(inputs), targets, |z|) && SoleSolution(inputs, targets, ridge, z)
    ensures UniqueMinimiser(inputs, targets, ridge, z[1..], z[0])
  {
    hide SoleSolution, PenalisedError;
    forall w: Vector, b: real | |w| == |z[1..]| && (w != z[1..] || b != z[0])
      ensures PenalisedError(inputs, targets, ridge, z[1..], z[0]) < PenalisedError(inputs, targets, ridge, w, b)
    {
      var y := [b] + w;
      assert y[0] == b && y[1..] == w;
      OtherIsWorse(inputs, targets, ridge, z, w, b);
    }
  }

  /** The solver's run on the normal system of these training rows comes to a negligible column. */
  ghost predicate FitRefused(inputs: Matrix, targets: Vector, ridge: real)
    requires |inputs| == |targets| > 0 && Rectangular(inputs, |inputs[0]|)
  {
    var rows, n := DesignRows(inputs), |inputs[0]| + 1;
    Refuses(NormalMatrix(rows, ridge, n), NormalRight(rows, targets, n))
  }

  /** There are a weight vector and an intercept that no other pair does as well as. */
  ghost predicate HasUniqueFit(inputs: Matrix, targets: Vector, ridge: real)
    requires |inputs| == |targets| > 0 && Rectangular(inputs, |inputs[0]|)
  {
    exists w: Vector, b: real :: |w| == |inputs[0]| && UniqueMinimiser(inputs, targets, ridge, w, b)
  }

  // When the normal system has exactly one solution.

  /** No combination of the columns vanishes on every row but the zero one. */
  ghost predicate Independent(rows: Matrix, n: nat)
    requires Rectangular(rows, n)
  {
    forall d: Vector :: |d| == n && (forall k :: 0 <= k < |rows| ==> Dot(rows[k], d) == 0.0) ==> d == Zeros(n)
  }

  lemma {:induction false} NoTargets(rows: Matrix, i: nat)
    requires forall k :: 0 <= k < |rows| ==> i < |rows[k]|
    ensures Cross(rows, Zeros(|rows|), i) == 0.0
  {
    if rows != [] {
      var k := |rows| - 1;
      NoTargets(rows[..k], i);
      assert Zeros(|rows|)[..k] == Zeros(k);
      MulZero(rows[k][i]);
    }
  }

  /** A vector the normal matrix sends to zero balances the fit to targets that are all zero. */
  lemma KernelBalances(rows: Matrix, ridge: real, d: Vector)
    requires rows != [] && |d| > 0 && Rectangular(rows, |d|)
    ensures Design(rows, Zeros(|rows|), |d|)
    ensures Balanced(rows, Zeros(|rows|), ridge, d) <==>
      forall r :: 0 <= r < |d| ==> Dot(NormalMatrix(rows, ridge, |d|)[r], d) == 0.0
  {
    var none := Zeros(|rows|);
    NormalSystem(rows, none, ridge, d);
    forall i | 0 <= i < |d| ensures NormalRight(rows, none, |d|)[i] == 0.0 {
      NoTargets(rows, i);
    }
    hide Balanced, NormalMatrix, Cross;
  }

  /** Where the normal matrix sends `d` to zero, every row is blind to it, and so is the penalty. */
  lemma KernelIsBlind(rows: Matrix, ridge: real, d: Vector)
    requires rows != [] && |d| > 0 && Rectangular(rows, |d|) && ridge >= 0.0
    requires forall r :: 0 <= r < |d| ==> Dot(NormalMatrix(rows, ridge, |d|)[r], d) == 0.0
    ensures Mul(ridge, Penalty(d)) == 0.0 && forall k :: 0 <= k < |rows| ==> Dot(rows[k], d) == 0.0
  {
    hide Balanced, Objective, Energy, NormalMatrix, Mul, Dot;
    var none, zero := Zeros(|rows|), Zeros(|d|);
    KernelBalances(rows, ridge, d);
    KernelBalances(rows, ridge, zero);
    forall r | 0 <= r < |d| ensures Dot(NormalMatrix(rows, ridge, |d|)[r], zero) == 0.0 {
      DotSymmetric(NormalMatrix(rows, ridge, |d|)[r], zero);
      DotZeros(NormalMatrix(rows, ridge, |d|)[r]);
    }
    assert Plus(zero, d) == d;
    ObjectiveExpands(rows, none, ridge, zero, d);
    BalancedMinimises(rows, none, ridge, d, zero);
    EnergyNonNegative(rows, d);
    DotSquare(d[1..]);
    PenaltySign(ridge, Penalty(d));
  }

  /** Where every row is blind to `d` and there is no penalty, the normal matrix sends it to zero. */
  lemma BlindIsKernel(rows: Matrix, d: Vector)
    requires rows != [] && |d| > 0 && Rectangular(rows, |d|)
    requires forall k :: 0 <= k < |rows| ==> Dot(rows[k], d) == 0.0
    ensures forall r :: 0 <= r < |d| ==> Dot(NormalMatrix(rows, 0.0, |d|)[r], d) == 0.0
  {
    var none, zero := Zeros(|rows|), Zeros(|d|);
    BlindPull(rows, none, zero, d);
    assert Plus(zero, d) == d;
    forall r | 0 <= r < |d| ensures Dot(NormalMatrix(rows, 0.0, |d|)[r], d) == 0.0 {
      PullEntry(rows, none, zero, r);
      PullEntry(rows, none, d, r);
      NormalRowDot(rows, 0.0, r, d);
      DotSymmetric(Moments(rows, r, |d|), zero);
      DotZeros(Moments(rows, r, |d|));
      MulZero(d[r]);
    }
  }
}
