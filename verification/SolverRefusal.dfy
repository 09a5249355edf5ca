/**
 When the solver's refusal means what its message says: "the fit has no unique solution". The solver refuses
 when its run comes to a column whose remaining entries are all below 1e-12 in magnitude. Whether the fit has
 a unique solution is another matter, and one a caller can tell from the ridge and the training rows.
 */
module SolverRefusal {
  import opened Forecasting
  import opened GaussJordan
  import opened Linear
  import opened Prelude
  import opened Ridge

  // A square system has exactly one solution when its matrix sends only zero to zero.

  ghost predicate UniquelySolvable(matrix: Matrix, right: Vector)
    requires |matrix| == |right| && Rectangular(matrix, |right|)
  {
    exists s: Vector :: |s| == |right| && OnlySolution(matrix, right, s)
  }

  ghost predicate OnlySolution(matrix: Matrix, right: Vector, s: Vector)
    requires |matrix| == |right| == |s| && Rectangular(matrix, |right|)
  {
    forall x: Vector :: |x| == |right| ==> (SolvesSystem(matrix, right, x) <==> x == s)
  }

  ghost predicate TrivialKernel(matrix: Matrix, n: nat)
    requires Rectangular(matrix, n)
  {
    forall d: Vector :: |d| == n && (forall r :: 0 <= r < |matrix| ==> Dot(matrix[r], d) == 0.0) ==> d == Zeros(n)
  }

  /** How the first columns must move to make up for a unit step in column `c`. */
  function Direction(m: Matrix, c: nat): (v: Vector)
    requires c < |m| && Rectangular(m, |m| + 1)
    ensures |v| == |m| + 1
  {
    seq(|m| + 1, k requires 0 <= k < |m| + 1 => if k < c then -m[k][c] else if k == c then 1.0 else 0.0)
  }

  lemma {:induction false} PrefixDot(m: Matrix, c: nat, r: nat, j: nat)
    requires c < |m| && Rectangular(m, |m| + 1) && UnitColumns(m, c) && r < |m| && j <= |m| + 1
    ensures var v := Direction(m, c);
      Dot(m[r][..j], v[..j]) == if j <= c then (if r < j then v[r] else 0.0) else if r < c then 0.0 else m[r][c]
  {
    if j > 0 {
      var v := Direction(m, c);
      PrefixDot(m, c, r, j - 1);
      assert m[r][..j] == m[r][..j - 1] + [m[r][j - 1]] && v[..j] == v[..j - 1] + [v[j - 1]];
      DotAppend(m[r][..j - 1], v[..j - 1], m[r][j - 1], v[j - 1]);
      MulZero(m[r][j - 1]);
      MulZero(v[j - 1]);
    }
  }

  /** That direction vanishes on the rows done, and shows on each other row just its entry in the column. */
  lemma DirectionShows(m: Matrix, c: nat, r: nat)
    requires c < |m| && Rectangular(m, |m| + 1) && UnitColumns(m, c) && r < |m|
    ensures Dot(m[r], Direction(m, c)) == if r < c then 0.0 else m[r][c]
  {
    PrefixDot(m, c, r, |m| + 1);
    assert m[r][..|m| + 1] == m[r] && Direction(m, c)[..|m| + 1] == Direction(m, c);
  }

  /** With nothing left in the column, that direction vanishes on every row. */
  lemma DirectionVanishes(m: Matrix, c: nat)
    requires c < |m| && Rectangular(m, |m| + 1) && UnitColumns(m, c)
    requires forall r :: c <= r < |m| ==> m[r][c] == 0.0
    ensures Vanishes(m, Direction(m, c))
  {
    forall r | 0 <= r < |m| ensures Dot(m[r], Direction(m, c)) == 0.0 {
      DirectionShows(m, c, r);
    }
  }

  /** Rows on which nothing with a zero at the end vanishes but the zero vector. */
  ghost predicate NoKernel(m: Matrix)
    requires Rectangular(m, |m| + 1)
  {
    forall v: Vector :: |v| == |m| + 1 && v[|m|] == 0.0 && Vanishes(m, v) ==> v == Zeros(|m| + 1)
  }

  /** Exact elimination: without a kernel no column is ever empty, so reduction goes through to the one solution. */
  lemma {:induction false} ReducesFully(given: Matrix, m: Matrix, c: nat)
    requires Rectangular(given, |given| + 1) && |m| == |given| && Rectangular(m, |m| + 1) && c <= |m|
    requires UnitColumns(m, c) && SameNull(given, m, |m| + 1) && NoKernel(given)
    ensures exists s: Vector :: |s| == |m| && forall x: Vector :: |x| == |m| ==> (Solves(given, x) <==> x == s)
    decreases |m| - c
  {
    if c == |m| {
      var s := seq(|m|, r requires 0 <= r < |m| => m[r][|m|]);
      UnitSystem(m, s);
      NullSolutions(given, m, |m|);
      assert forall x: Vector :: |x| == |m| ==> (Solves(given, x) <==> x == s);
    } else {
      var p := Largest(m, c, |m|);
      SomethingLeft(given, m, c);
      var swapped := Swapped(m, c, p);
      SwapKeeps(m, c, p, |m|);
      SwapUnit(m, c, p);
      ClearKeeps(swapped, c);
      ClearUnit(swapped, c);
      NullTransitive(given, m, swapped, |m| + 1);
      NullTransitive(given, swapped, Cleared(swapped, c), |m| + 1);
      hide Solves, SameNull, NoKernel, UnitColumns;
      ReducesFully(given, Cleared(swapped, c), c + 1);
    }
  }

  lemma NullTransitive(a: Matrix, b: Matrix, c: Matrix, width: nat)
    requires Rectangular(a, width) && Rectangular(b, width) && Rectangular(c, width)
    requires SameNull(a, b, width) && SameNull(b, c, width)
    ensures SameNull(a, c, width)
  {
  }

  /** A column with nothing left in it shows a vector that the given rows cannot see. */
  lemma EmptyColumnKernel(given: Matrix, m: Matrix, c: nat)
    requires Rectangular(given, |given| + 1) && |m| == |given| && Rectangular(m, |m| + 1) && c < |m|
    requires UnitColumns(m, c) && SameNull(given, m, |m| + 1)
    requires forall r :: c <= r < |m| ==> m[r][c] == 0.0
    ensures !NoKernel(given)
  {
    hide UnitColumns;
    DirectionVanishes(m, c);
    var v := Direction(m, c);
    assert v[c] == 1.0 && v[|m|] == 0.0;
    assert Vanishes(given, v);
    assert Zeros(|m| + 1)[c] == 0.0;
  }

  lemma SomethingLeft(given: Matrix, m: Matrix, c: nat)
    requires Rectangular(given, |given| + 1) && |m| == |given| && Rectangular(m, |m| + 1) && c < |m|
    requires UnitColumns(m, c) && SameNull(given, m, |m| + 1) && NoKernel(given)
    ensures m[Largest(m, c, |m|)][c] != 0.0
  {
    hide UnitColumns, SameNull, NoKernel;
    if forall r :: c <= r < |m| ==> m[r][c] == 0.0 {
      EmptyColumnKernel(given, m, c);
    }
  }

  lemma AugmentedKernel(matrix: Matrix, right: Vector, d: Vector)
    requires |matrix| == |right| == |d| && Rectangular(matrix, |right|)
    ensures Rectangular(Augmented(matrix, right), |d| + 1)
    ensures Vanishes(Augmented(matrix, right), d + [0.0])
      <==> forall r :: 0 <= r < |matrix| ==> Dot(matrix[r], d) == 0.0
  {
    var m := Augmented(matrix, right);
    hide Dot;
    forall r | 0 <= r < |m| ensures Dot(m[r], d + [0.0]) == Dot(matrix[r], d) {
      DotAppend(matrix[r], d, right[r], 0.0);
      MulZero(right[r]);
    }
  }

  lemma TrivialAugmented(matrix: Matrix, right: Vector)
    requires |matrix| == |right| && Rectangular(matrix, |right|) && TrivialKernel(matrix, |right|)
    ensures NoKernel(Augmented(matrix, right))
  {
    hide Dot, Vanishes;
    var m, n := Augmented(matrix, right), |right|;
    forall v: Vector | |v| == n + 1 && v[n] == 0.0 && Vanishes(m, v) ensures v == Zeros(n + 1) {
      assert v == v[..n] + [0.0];
      AugmentedKernel(matrix, right, v[..n]);
      assert v[..n] == Zeros(n);
    }
  }

  /** A square system of any size has exactly one solution if and only if its matrix has a trivial kernel. */
  lemma UniqueExactly(matrix: Matrix, right: Vector)
    requires |matrix| == |right| && Rectangular(matrix, |right|)
    ensures UniquelySolvable(matrix, right) <==> TrivialKernel(matrix, |right|)
  {
    if TrivialKernel(matrix, |right|) {
      KernelSolves(matrix, right);
    }
    if UniquelySolvable(matrix, right) {
      var s: Vector :| |s| == |right| && OnlySolution(matrix, right, s);
      forall d: Vector | |d| == |right| && (forall r :: 0 <= r < |matrix| ==> Dot(matrix[r], d) == 0.0)
        ensures d == Zeros(|right|)
      {
        KernelShifts(matrix, right, s, d);
      }
    }
  }

  lemma KernelSolves(matrix: Matrix, right: Vector)
    requires |matrix| == |right| && Rectangular(matrix, |right|) && TrivialKernel(matrix, |right|)
    ensures UniquelySolvable(matrix, right)
  {
    var given := Augmented(matrix, right);
    TrivialAugmented(matrix, right);
    assert UnitColumns(given, 0) && SameNull(given, given, |given| + 1);
    ReducesFully(given, given, 0);
    var s: Vector :| |s| == |given| && forall x: Vector :: |x| == |given| ==> (Solves(given, x) <==> x == s);
    forall x: Vector | |x| == |right| ensures SolvesSystem(matrix, right, x) <==> x == s {
      AugmentedSolutions(matrix, right, x);
    }
    assert OnlySolution(matrix, right, s);
  }

  lemma KernelShifts(matrix: Matrix, right: Vector, s: Vector, d: Vector)
    requires |matrix| == |right| == |s| == |d| && Rectangular(matrix, |right|) && OnlySolution(matrix, right, s)
    requires forall r :: 0 <= r < |matrix| ==> Dot(matrix[r], d) == 0.0
    ensures d == Zeros(|right|)
  {
    assert SolvesSystem(matrix, right, s);
    var x := Plus(s, d);
    forall r | 0 <= r < |matrix| ensures Dot(matrix[r], x) == right[r] {
      DotSymmetric(matrix[r], x);
      DotPlus(s, d, matrix[r]);
      DotSymmetric(s, matrix[r]);
      DotSymmetric(d, matrix[r]);
    }
    assert SolvesSystem(matrix, right, x);
    forall i | 0 <= i < |d| ensures d[i] == 0.0 {
      assert x[i] == s[i] + d[i];
    }
  }

  // What a refusal, and the lack of one, say about the given system.

  /** Where the run finds a column that is exactly empty, the given system has no unique solution: the message is right. */
  lemma RefusalIsRight(matrix: Matrix, right: Vector, c: nat)
    requires |matrix| == |right| && Rectangular(matrix, |right|) && StuckAt(Augmented(matrix, right), c)
    requires forall r :: c <= r < |right| ==> Reach(Augmented(matrix, right), c).value[r][c] == 0.0
    ensures !UniquelySolvable(matrix, right)
  {
    hide Reach, Negligible, Solves, UniquelySolvable, NoKernel, TrivialKernel;
    var given := Augmented(matrix, right);
    ReachKeeps(given, c);
    EmptyColumnKernel(given, Reach(given, c).value, c);
    UniqueExactly(matrix, right);
    if TrivialKernel(matrix, |right|) {
      TrivialAugmented(matrix, right);
    }
  }

  lemma {:induction false} NeverStuckReaches(m: Matrix, c: nat)
    requires Rectangular(m, |m| + 1) && c <= |m| && forall k :: 0 <= k < c ==> !StuckAt(m, k)
    ensures Reach(m, c).Some?
  {
    hide Negligible, Advanced;
    if c > 0 {
      NeverStuckReaches(m, c - 1);
      assert !StuckAt(m, c - 1);
    }
  }

  /** A system the solver does not refuse has exactly one solution. */
  lemma AcceptedIsUnique(matrix: Matrix, right: Vector)
    requires |matrix| == |right| && Rectangular(matrix, |right|) && !Refuses(matrix, right)
    ensures UniquelySolvable(matrix, right)
  {
    var given, n := Augmented(matrix, right), |right|;
    NeverStuckReaches(given, n);
    hide StuckAt, Reach, SolvesSystem;
    var m := Reach(given, n).value;
    var s := seq(n, r requires 0 <= r < n && |m| == n && |m[r]| == n + 1 => m[r][n]);
    Finished(matrix, right, s);
    assert OnlySolution(matrix, right, s);
  }

  // When the fit itself has a unique solution.

  /** With a penalty at work, a constant column and no residual, nothing can move. */
  lemma PenaltyPins(row: Vector, ridge: real, d: Vector)
    requires |row| == |d| > 0 && row[0] == 1.0 && ridge > 0.0
    requires Mul(ridge, Penalty(d)) == 0.0 && Dot(row, d) == 0.0
    ensures d == Zeros(|d|)
  {
    hide Mul;
    DotSquare(d[1..]);
    NonzeroProduct(ridge, Penalty(d));
    DotSymmetric(row[1..], d[1..]);
    DotZeros(row[1..]);
    DotUnit([1.0], [d[0]], 0);
    assert Mul(1.0, d[0]) == d[0] by {
      MulOne(d[0]);
    }
    assert d == [d[0]] + d[1..];
  }

  lemma MulOne(a: real)
    ensures Mul(1.0, a) == a && Mul(a, 1.0) == a
  {
  }

  /** A penalised normal matrix always has a trivial kernel; an unpenalised one when the design columns are independent. */
  lemma NormalKernel(rows: Matrix, ridge: real, n: nat)
    requires rows != [] && n > 0 && Rectangular(rows, n) && ridge >= 0.0 && rows[0][0] == 1.0
    ensures TrivialKernel(NormalMatrix(rows, ridge, n), n) <==> ridge > 0.0 || Independent(rows, n)
  {
    hide NormalMatrix, Mul, Penalty, Dot;
    var m := NormalMatrix(rows, ridge, n);
    if ridge > 0.0 || Independent(rows, n) {
      forall d: Vector | |d| == n && (forall r :: 0 <= r < n ==> Dot(m[r], d) == 0.0) ensures d == Zeros(n) {
        KernelIsBlind(rows, ridge, d);
        if ridge > 0.0 {
          PenaltyPins(rows[0], ridge, d);
        }
      }
    }
    if TrivialKernel(m, n) && ridge == 0.0 {
      forall d: Vector | |d| == n && (forall k :: 0 <= k < |rows| ==> Dot(rows[k], d) == 0.0) ensures d == Zeros(n) {
        BlindIsKernel(rows, d);
      }
    }
  }

  lemma {:induction false} BlindLoss(rows: Matrix, targets: Vector, z: Vector, d: Vector)
    requires |z| == |d| && Design(rows, targets, |z|)
    requires forall k :: 0 <= k < |rows| ==> Dot(rows[k], d) == 0.0
    ensures Loss(rows, targets, Plus(z, d)) == Loss(rows, targets, z)
  {
    hide Mul, Plus;
    if rows != [] {
      var k := |rows| - 1;
      BlindLoss(rows[..k], targets[..k], z, d);
      DotSymmetric(rows[k], Plus(z, d));
      DotPlus(z, d, rows[k]);
      DotSymmetric(z, rows[k]);
      DotSymmetric(d, rows[k]);
    }
  }

  /** Without a penalty, a fit can be moved in a direction no row sees and do exactly as well. */
  lemma BlindFit(inputs: Matrix, targets: Vector, w: Vector, b: real, d: Vector)
    requires |inputs| == |targets| && Rectangular(inputs, |w|) && |d| == |w| + 1
    requires var rows := DesignRows(inputs); forall k :: 0 <= k < |rows| ==> Dot(rows[k], d) == 0.0
    ensures PenalisedError(inputs, targets, 0.0, Plus(w, d[1..]), b + d[0]) == PenalisedError(inputs, targets, 0.0, w, b)
  {
    hide Mul, Loss, SquaredError, Penalty, PenalisedError, DesignRow;
    var rows, w' := DesignRows(inputs), Plus(w, d[1..]);
    ErrorIsObjective(inputs, targets, 0.0, w, b);
    ErrorIsObjective(inputs, targets, 0.0, w', b + d[0]);
    assert Plus([b] + w, d) == [b + d[0]] + w';
    BlindLoss(rows, targets, [b] + w, d);
    MulZero(Penalty([b] + w));
    MulZero(Penalty([b + d[0]] + w'));
  }

  lemma Shifted(w: Vector, b: real, d: Vector)
    requires |d| == |w| + 1
    ensures Plus(w, d[1..]) == w && b + d[0] == b ==> d == Zeros(|d|)
  {
    var w' := Plus(w, d[1..]);
    assert forall i :: 0 <= i < |w| ==> w'[i] == w[i] + d[i + 1];
    if w' == w && b + d[0] == b {
      forall i | 0 <= i < |d| ensures d[i] == 0.0 {
        if i > 0 {
          assert w'[i - 1] == w[i - 1];
        }
      }
    }
  }

  lemma DependentFit(inputs: Matrix, targets: Vector)
    requires |inputs| == |targets| > 0 && Rectangular(inputs, |inputs[0]|)
    requires !Independent(DesignRows(inputs), |inputs[0]| + 1)
    ensures !HasUniqueFit(inputs, targets, 0.0)
  {
    hide PenalisedError, Dot;
    var n := |inputs[0]| + 1;
    var rows := DesignRows(inputs);
    var d: Vector :| |d| == n && (forall k :: 0 <= k < |rows| ==> Dot(rows[k], d) == 0.0) && d != Zeros(n);
    forall w: Vector, b: real | |w| == |inputs[0]| ensures !UniqueMinimiser(inputs, targets, 0.0, w, b) {
      BlindFit(inputs, targets, w, b, d);
      Shifted(w, b, d);
    }
  }

  lemma IndependentFit(inputs: Matrix, targets: Vector, ridge: real)
    requires |inputs| == |targets| > 0 && Rectangular(inputs, |inputs[0]|)
    requires var rows, n := DesignRows(inputs), |inputs[0]| + 1;
      ridge >= 0.0 && UniquelySolvable(NormalMatrix(rows, ridge, n), NormalRight(rows, targets, n))
    ensures HasUniqueFit(inputs, targets, ridge)
  {
    hide NormalMatrix, NormalRight, UniqueMinimiser, SolvesSystem;
    var rows, n := DesignRows(inputs), |inputs[0]| + 1;
    var s: Vector :| |s| == n && OnlySolution(NormalMatrix(rows, ridge, n), NormalRight(rows, targets, n), s);
    assert SoleSolution(inputs, targets, ridge, s);
    SoleSolutionMinimises(inputs, targets, ridge, s);
  }

  /** A fit has a unique solution exactly when there is a penalty or the training columns and the constant are independent. */
  lemma UniqueFitExactly(inputs: Matrix, targets: Vector, ridge: real)
    requires |inputs| == |targets| > 0 && Rectangular(inputs, |inputs[0]|) && ridge >= 0.0
    ensures HasUniqueFit(inputs, targets, ridge)
      <==> ridge > 0.0 || Independent(DesignRows(inputs), |inputs[0]| + 1)
  {
    hide HasUniqueFit, Independent, NormalMatrix, NormalRight, UniquelySolvable, TrivialKernel;
    var rows, n := DesignRows(inputs), |inputs[0]| + 1;
    NormalKernel(rows, ridge, n);
    UniqueExactly(NormalMatrix(rows, ridge, n), NormalRight(rows, targets, n));
    if ridge > 0.0 || Independent(rows, n) {
      IndependentFit(inputs, targets, ridge);
    } else {
      DependentFit(inputs, targets);
    }
  }

  /**
   The message "the fit has no unique solution" against the fit. A fit without a unique solution is always
   refused; a refusal is right exactly when there is no penalty and the training columns and the constant
   are dependent. So every refusal of a penalised fit is wrong.
   */
  lemma RefusalExactly(inputs: Matrix, targets: Vector, ridge: real)
    requires |inputs| == |targets| > 0 && Rectangular(inputs, |inputs[0]|) && ridge >= 0.0
    ensures FitRefused(inputs, targets, ridge) && !HasUniqueFit(inputs, targets, ridge)
      <==> ridge == 0.0 && !Independent(DesignRows(inputs), |inputs[0]| + 1)
    ensures !FitRefused(inputs, targets, ridge) ==> HasUniqueFit(inputs, targets, ridge)
  {
    hide HasUniqueFit, Independent, NormalMatrix, NormalRight, UniquelySolvable, Refuses;
    UniqueFitExactly(inputs, targets, ridge);
    if !FitRefused(inputs, targets, ridge) {
      var rows, n := DesignRows(inputs), |inputs[0]| + 1;
      AcceptedIsUnique(NormalMatrix(rows, ridge, n), NormalRight(rows, targets, n));
      IndependentFit(inputs, targets, ridge);
    }
  }

  // A family of forecasts on which the message is wrong.

  /** One feature that is 0 and `e` by turns: never collinear with the constant unless `e` is 0. */
  function Alternating(e: real): (inputs: Matrix)
    ensures |inputs| == 8 && Rectangular(inputs, 1)
  {
    [[0.0], [e], [0.0], [e], [0.0], [e], [0.0], [e]]
  }

  lemma AlternatingRows(e: real)
    ensures DesignRows(Alternating(e)[..4]) == [[1.0, 0.0], [1.0, e], [1.0, 0.0], [1.0, e]]
  {
    var half := Alternating(e)[..4];
    assert half == [[0.0], [e], [0.0], [e]];
    assert DesignRow([0.0]) == [1.0, 0.0] && DesignRow([e]) == [1.0, e];
  }

  lemma AlternatingMoments(e: real, i: nat, j: nat)
    requires i < 2 && j < 2
    ensures Moment(DesignRows(Alternating(e)[..4]), i, j)
      == if i == 0 && j == 0 then 4.0 else if i == 1 && j == 1 then e * e + e * e else e + e
  {
    AlternatingRows(e);
    FourRows(DesignRows(Alternating(e)[..4]), i, j);
    hide DesignRows, Alternating, Moment;
  }

  lemma AlternatingNormal(e: real, ridge: real)
    ensures NormalMatrix(DesignRows(Alternating(e)[..4]), ridge, 2) == [[4.0, e + e], [e + e, e * e + e * e + ridge]]
  {
    var rows := DesignRows(Alternating(e)[..4]);
    AlternatingRows(e);
    AlternatingMoments(e, 0, 0);
    AlternatingMoments(e, 0, 1);
    AlternatingMoments(e, 1, 0);
    AlternatingMoments(e, 1, 1);
    hide DesignRows, Alternating, Moment;
    assert NormalRow(rows, ridge, 0, 2) == [4.0, e + e];
    assert NormalRow(rows, ridge, 1, 2) == [e + e, e * e + e * e + ridge];
  }

  lemma FourRows(rows: Matrix, i: nat, j: nat)
    requires |rows| == 4 && Rectangular(rows, 2) && i < 2 && j < 2
    ensures Moment(rows, i, j)
      == Mul(rows[0][i], rows[0][j]) + Mul(rows[1][i], rows[1][j]) + Mul(rows[2][i], rows[2][j])
         + Mul(rows[3][i], rows[3][j])
  {
    hide Mul;
    assert rows[..3][..2] == rows[..2] && rows[..2][..1] == rows[..1] && rows[..1][..0] == [];
    assert Moment(rows[..1], i, j) == Moment([], i, j) + Mul(rows[0][i], rows[0][j]);
    assert Moment(rows[..2], i, j) == Moment(rows[..1], i, j) + Mul(rows[1][i], rows[1][j]);
    assert Moment(rows[..3], i, j) == Moment(rows[..2], i, j) + Mul(rows[2][i], rows[2][j]);
  }

  /** The solver's run on a system of two equations whose first pivot is the 4 in the corner. */
  lemma TwoByTwo(s: real, t: real, a: real, b: real)
    requires Abs(s) <= 4.0
    ensures var matrix: Matrix := [[4.0, s], [s, t]];
      Refuses(matrix, [a, b]) <==> Abs(t - Mul(s, s / 4.0)) < SINGULAR
  {
    var matrix: Matrix := [[4.0, s], [s, t]];
    var given := Augmented(matrix, [a, b]);
    assert matrix[0] + [a] == [4.0, s, a] && matrix[1] + [b] == [s, t, b];
    assert given == [[4.0, s, a], [s, t, b]];
    FirstColumn(s, t, a, b);
    var next := Advanced(given, 0);
    assert Reach(given, 0) == Some(given) && Reach(given, 1) == Some(next);
    assert !StuckAt(given, 0);
    assert StuckAt(given, 1) <==> Negligible(next, 1);
    assert Negligible(next, 1) <==> Abs(next[1][1]) < SINGULAR;
  }

  lemma FirstColumn(s: real, t: real, a: real, b: real)
    requires Abs(s) <= 4.0
    ensures var given: Matrix := [[4.0, s, a], [s, t, b]];
      !Negligible(given, 0) && Advanced(given, 0)[1][1] == t - Mul(s, s / 4.0)
  {
    var given: Matrix := [[4.0, s, a], [s, t, b]];
    assert Largest(given, 0, 1) == 0 && Largest(given, 0, 2) == 0;
    assert Swapped(given, 0, 0) == given;
    assert !(Abs(given[0][0]) < SINGULAR);
    assert Cleared(given, 0)[1] == Eliminate(given[1], Divide(given[0], 4.0), s);
  }

  lemma AlternatingRun(e: real, goals: Vector, ridge: real)
    requires |goals| == 4 && ridge >= 0.0 && 0.0 < e <= 2.0
    ensures FitRefused(Alternating(e)[..4], goals, ridge) <==> e * e + ridge < SINGULAR
  {
    hide Refuses, Moment, Cross, DesignRows, NormalMatrix;
    var inputs := Alternating(e)[..4];
    var rows := DesignRows(inputs);
    assert |inputs[0]| == 1;
    AlternatingNormal(e, ridge);
    var right := NormalRight(rows, goals, 2);
    assert right == [right[0], right[1]];
    hide Mul, Alternating, NormalRight;
    TwoByTwo(e + e, e * e + e * e + ridge, right[0], right[1]);
    Halves(e, ridge);
  }

  /**
   For such a feature, and any targets, the arguments are in order and the fit has a unique solution. It is
   refused all the same exactly when the square of the feature's step and the ridge together are below 1e-12.
   */
  lemma TinyFeatureRefused(e: real, targets: Vector, ridge: real)
    requires |targets| == 8 && ridge >= 0.0 && 0.0 < e <= 2.0
    ensures Admissible(Alternating(e), targets, 1, 1, ridge, 0.5)
    ensures TrainingRefused(Alternating(e), targets, ridge, 0.5) <==> e * e + ridge < SINGULAR
    ensures HasUniqueFit(Alternating(e)[..4], targets[..4], ridge)
  {
    hide FitRefused, HasUniqueFit, Independent, Alternating, DesignRows;
    assert Split(8, 0.5) == 4;
    AlternatingRun(e, targets[..4], ridge);
    AlternatingIndependent(e);
    UniqueFitExactly(Alternating(e)[..4], targets[..4], ridge);
  }

  lemma Halves(e: real, ridge: real)
    requires 0.0 < e && ridge >= 0.0
    ensures e * e + e * e + ridge - Mul(e + e, (e + e) / 4.0) == e * e + ridge
    ensures e * e + ridge >= 0.0
  {
    assert (e + e) * ((e + e) / 4.0) == e * e + e * e - e * e;
  }

  lemma AlternatingIndependent(e: real)
    requires e != 0.0
    ensures Independent(DesignRows(Alternating(e)[..4]), 2)
  {
    AlternatingRows(e);
    var rows := DesignRows(Alternating(e)[..4]);
    forall d: Vector | |d| == 2 && (forall k :: 0 <= k < |rows| ==> Dot(rows[k], d) == 0.0) ensures d == Zeros(2) {
      assert Dot(rows[0], d) == 0.0 && Dot(rows[1], d) == 0.0;
      TwoProducts(1.0, 0.0, d);
      TwoProducts(1.0, e, d);
      NonzeroProduct(e, d[1]);
    }
  }

  lemma TwoProducts(a: real, b: real, d: Vector)
    requires |d| == 2
    ensures Dot([a, b], d) == Mul(a, d[0]) + Mul(b, d[1])
  {
    hide Mul;
    assert d == [d[0]] + [d[1]] && [a, b] == [a] + [b];
    DotAppend([a], [d[0]], b, d[1]);
    DotAppend([], [], a, d[0]);
    assert [] + [a] == [a] && [] + [d[0]] == [d[0]];
  }
}
