/**
 Gauss-Jordan elimination with partial pivoting, as src/omnitensor/forecasting.py runs it, over exact
 reals. An augmented row holds the coefficients and then the right-hand side.
 */
module GaussJordan {
  import opened Prelude
  import opened Linear

  datatype FitError = FitDegenerate | BoundsInvalid | FeaturesInvalid | TrainingInvalid | InsufficientHistory

  type Matrix = seq<Vector>

  ghost predicate Rectangular(m: Matrix, width: nat) {
    forall r :: 0 <= r < |m| ==> |m[r]| == width
  }

  /** `x` satisfies an augmented row: coefficients times x equals the right-hand side. */
  ghost predicate Satisfies(row: Vector, x: Vector)
    requires |row| == |x| + 1
  {
    Dot(row, x + [-1.0]) == 0.0
  }

  ghost predicate Solves(m: Matrix, x: Vector)
    requires Rectangular(m, |x| + 1)
  {
    forall r :: 0 <= r < |m| ==> Satisfies(m[r], x)
  }

  /** `x` solves the square system matrix * x == right. */
  ghost predicate SolvesSystem(matrix: Matrix, right: Vector, x: Vector)
    requires |matrix| == |right| && Rectangular(matrix, |x|)
  {
    forall r :: 0 <= r < |matrix| ==> Dot(matrix[r], x) == right[r]
  }

  /** Every row is orthogonal to `v`. */
  ghost predicate Vanishes(m: Matrix, v: Vector)
    requires Rectangular(m, |v|)
  {
    forall r :: 0 <= r < |m| ==> Dot(m[r], v) == 0.0
  }

  /** The same vectors vanish on both: for augmented rows, the same solutions, and the same differences of them. */
  ghost predicate SameNull(m: Matrix, m': Matrix, width: nat)
    requires Rectangular(m, width) && Rectangular(m', width)
  {
    forall v: Vector :: |v| == width ==> (Vanishes(m, v) <==> Vanishes(m', v))
  }

  /** The same vectors solve both augmented systems. */
  ghost predicate SameSolutions(m: Matrix, m': Matrix, n: nat)
    requires Rectangular(m, n + 1) && Rectangular(m', n + 1)
  {
    forall x: Vector :: |x| == n ==> (Solves(m, x) <==> Solves(m', x))
  }

  lemma NullSolutions(m: Matrix, m': Matrix, n: nat)
    requires Rectangular(m, n + 1) && Rectangular(m', n + 1) && SameNull(m, m', n + 1)
    ensures SameSolutions(m, m', n)
  {
    forall x: Vector | |x| == n ensures Solves(m, x) <==> Solves(m', x) {
      assert Vanishes(m, x + [-1.0]) <==> Vanishes(m', x + [-1.0]);
      assert Solves(m, x) <==> Vanishes(m, x + [-1.0]);
      assert Solves(m', x) <==> Vanishes(m', x + [-1.0]);
    }
  }

  /** The first `c` columns are the first `c` unit columns. */
  ghost predicate UnitColumns(m: Matrix, c: nat)
    requires c <= |m| && Rectangular(m, |m| + 1)
  {
    forall r, k :: 0 <= r < |m| && 0 <= k < c ==> m[r][k] == (if r == k then 1.0 else 0.0)
  }

  function Abs(x: real): real { if x < 0.0 then -x else x }

  const SINGULAR := 0.000000000001

  /** The row `value - factor * pivot`, entry by entry. */
  function Eliminate(row: Vector, pivot: Vector, factor: real): (r: Vector)
    requires |row| == |pivot|
    ensures |r| == |row|
  {
    seq(|row|, i requires 0 <= i < |row| => row[i] - Mul(factor, pivot[i]))
  }

  function Divide(row: Vector, scale: real): (r: Vector)
    requires scale != 0.0
    ensures |r| == |row|
  {
    seq(|row|, i requires 0 <= i < |row| => row[i] / scale)
  }

  // The elimination as a run: one column after another, up to one with nothing left to divide by.

  /** The row from `c` on, among the first `n`, whose entry in column `c` is largest in magnitude; the first such row. */
  function Largest(m: Matrix, c: nat, n: nat): (p: nat)
    requires c < n <= |m| && forall r :: 0 <= r < |m| ==> c < |m[r]|
    ensures c <= p < n
    ensures forall r :: c <= r < n ==> Abs(m[r][c]) <= Abs(m[p][c])
    ensures forall r :: c <= r < p ==> Abs(m[r][c]) < Abs(m[p][c])
  {
    if n == c + 1 then c
    else
      var p := Largest(m, c, n - 1);
      if Abs(m[n - 1][c]) > Abs(m[p][c]) then n - 1 else p
  }

  function Swapped(m: Matrix, i: nat, j: nat): (r: Matrix)
    requires i < |m| && j < |m|
    ensures |r| == |m|
  {
    m[i := m[j]][j := m[i]]
  }

  /** Row `c` scaled to have 1 in column `c`, and that column cleared out of every other row. */
  function Cleared(m: Matrix, c: nat): (r: Matrix)
    requires c < |m| && Rectangular(m, |m| + 1) && m[c][c] != 0.0
    ensures |r| == |m| && Rectangular(r, |m| + 1)
  {
    var pivot := Divide(m[c], m[c][c]);
    seq(|m|, r requires 0 <= r < |m| => if r == c then pivot else Eliminate(m[r], pivot, m[r][c]))
  }

  /** Every entry left in column `c` is below 1e-12 in magnitude. */
  predicate Negligible(m: Matrix, c: nat)
    requires c < |m| && Rectangular(m, |m| + 1)
    ensures Negligible(m, c) <==> Abs(m[Largest(m, c, |m|)][c]) < SINGULAR
  {
    forall r :: c <= r < |m| ==> Abs(m[r][c]) < SINGULAR
  }

  /** One column dealt with: the pivot row swapped up, scaled, and its column cleared. */
  function Advanced(m: Matrix, c: nat): (r: Matrix)
    requires c < |m| && Rectangular(m, |m| + 1) && !Negligible(m, c)
    ensures |r| == |m| && Rectangular(r, |m| + 1)
  {
    Cleared(Swapped(m, c, Largest(m, c, |m|)), c)
  }

  function Advance(m: Matrix, c: nat): (r: Option<Matrix>)
    requires c < |m| && Rectangular(m, |m| + 1)
    ensures r.None? <==> Negligible(m, c)
    ensures r.Some? ==> r.value == Advanced(m, c) && |r.value| == |m| && Rectangular(r.value, |m| + 1)
  {
    if Negligible(m, c) then None else Some(Advanced(m, c))
  }

  /** What is reached after `c` columns, if none of them was negligible. */
  function Reach(m: Matrix, c: nat): (r: Option<Matrix>)
    requires Rectangular(m, |m| + 1) && c <= |m|
    ensures r.Some? ==> |r.value| == |m| && Rectangular(r.value, |m| + 1)
  {
    if c == 0 then Some(m)
    else
      var before := Reach(m, c - 1);
      if before.None? then None else Advance(before.value, c - 1)
  }

  /** The run gets as far as column `c`, and finds nothing there. */
  predicate StuckAt(m: Matrix, c: nat)
    requires Rectangular(m, |m| + 1)
  {
    c < |m| && Reach(m, c).Some? && Negligible(Reach(m, c).value, c)
  }

  /** The solver's run on this system comes to a column whose remaining entries are all negligible. */
  predicate Refuses(matrix: Matrix, right: Vector)
    requires |matrix| == |right| && Rectangular(matrix, |right|)
  {
    exists c :: 0 <= c < |right| && StuckAt(Augmented(matrix, right), c)
  }

  lemma {:induction false} ReachPrefix(m: Matrix, c: nat, n: nat)
    requires Rectangular(m, |m| + 1) && c < n <= |m| && Reach(m, n).Some?
    ensures Reach(m, c).Some? && !StuckAt(m, c)
  {
    hide Advanced, Negligible, Rectangular;
    if n - 1 > c {
      ReachPrefix(m, c, n - 1);
    }
  }

  // Each step keeps the solutions.

  lemma NegatedMul(a: real, b: real)
    ensures Mul(-a, b) == -Mul(a, b)
  {
  }

  lemma QuotientMul(a: real, scale: real)
    requires scale != 0.0
    ensures a / scale == Mul(1.0 / scale, a)
  {
  }

  lemma DotEliminated(row: Vector, pivot: Vector, factor: real, v: Vector)
    requires |row| == |pivot| == |v|
    ensures Dot(Eliminate(row, pivot, factor), v) == Dot(row, v) - Mul(factor, Dot(pivot, v))
  {
    hide Mul;
    var minus := Scaled(-factor, pivot);
    forall i | 0 <= i < |row| ensures row[i] - Mul(factor, pivot[i]) == row[i] + Mul(-factor, pivot[i]) {
      NegatedMul(factor, pivot[i]);
    }
    assert Eliminate(row, pivot, factor) == Plus(row, minus);
    DotPlus(row, minus, v);
    DotScaled(-factor, pivot, v);
    NegatedMul(factor, Dot(pivot, v));
  }

  lemma NonzeroProduct(k: real, x: real)
    requires k != 0.0
    ensures Mul(k, x) == 0.0 <==> x == 0.0
  {
    if x != 0.0 {
      assert k * x != 0.0;
    }
  }

  lemma DotDivided(row: Vector, scale: real, v: Vector)
    requires |row| == |v| && scale != 0.0
    ensures Dot(Divide(row, scale), v) == 0.0 <==> Dot(row, v) == 0.0
  {
    hide Mul;
    var k := 1.0 / scale;
    forall i | 0 <= i < |row| ensures row[i] / scale == Mul(k, row[i]) {
      QuotientMul(row[i], scale);
    }
    assert Divide(row, scale) == Scaled(k, row);
    DotScaled(k, row, v);
    NonzeroInverse(scale);
    NonzeroProduct(k, Dot(row, v));
  }

  lemma NonzeroInverse(scale: real)
    requires scale != 0.0
    ensures 1.0 / scale != 0.0
  {
    assert (1.0 / scale) * scale == 1.0;
  }

  lemma SwapKeeps(m: Matrix, i: nat, j: nat, n: nat)
    requires Rectangular(m, n + 1) && i < |m| && j < |m|
    ensures Rectangular(Swapped(m, i, j), n + 1)
    ensures SameNull(m, Swapped(m, i, j), n + 1) && SameSolutions(m, Swapped(m, i, j), n)
  {
    var m' := Swapped(m, i, j);
    forall v: Vector | |v| == n + 1 ensures Vanishes(m, v) <==> Vanishes(m', v) {
      if Vanishes(m', v) {
        forall r | 0 <= r < |m| ensures Dot(m[r], v) == 0.0 {
          assert m[r] == m'[if r == i then j else if r == j then i else r];
        }
      }
    }
    NullSolutions(m, m', n);
  }

  /** Dividing the pivot row and clearing its column out of the others changes no solution. */
  lemma ClearKeeps(m: Matrix, c: nat)
    requires c < |m| && Rectangular(m, |m| + 1) && m[c][c] != 0.0
    ensures SameNull(m, Cleared(m, c), |m| + 1) && SameSolutions(m, Cleared(m, c), |m|)
  {
    var m' := Cleared(m, c);
    var pivot := Divide(m[c], m[c][c]);
    forall v: Vector | |v| == |m| + 1 ensures Vanishes(m, v) <==> Vanishes(m', v) {
      DotDivided(m[c], m[c][c], v);
      forall r | 0 <= r < |m| && r != c ensures Dot(m'[r], v) == Dot(m[r], v) - Mul(m[r][c], Dot(pivot, v)) {
        DotEliminated(m[r], pivot, m[r][c], v);
      }
      forall r | 0 <= r < |m| ensures Mul(m[r][c], 0.0) == 0.0 {
        MulZero(m[r][c]);
      }
      assert m'[c] == pivot;
    }
    NullSolutions(m, m', |m|);
  }

  lemma ClearUnit(m: Matrix, c: nat)
    requires c < |m| && Rectangular(m, |m| + 1) && UnitColumns(m, c) && m[c][c] != 0.0
    ensures UnitColumns(Cleared(m, c), c + 1)
  {
    var m' := Cleared(m, c);
    var pivot := Divide(m[c], m[c][c]);
    assert pivot[c] == 1.0 && forall k :: 0 <= k < c ==> pivot[k] == 0.0;
    forall r, k | 0 <= r < |m| && 0 <= k < c + 1 ensures m'[r][k] == (if r == k then 1.0 else 0.0) {
      if r != c {
        assert m'[r][k] == m[r][k] - Mul(m[r][c], pivot[k]);
        MulZero(m[r][c]);
      }
    }
  }

  lemma SwapUnit(m: Matrix, c: nat, p: nat)
    requires c <= p < |m| && Rectangular(m, |m| + 1) && UnitColumns(m, c)
    ensures var m' := Swapped(m, c, p); Rectangular(m', |m| + 1) && UnitColumns(m', c) && m'[c] == m[p]
  {
  }

  lemma AdvancedKeeps(m: Matrix, c: nat)
    requires c < |m| && Rectangular(m, |m| + 1) && !Negligible(m, c)
    ensures SameNull(m, Advanced(m, c), |m| + 1)
    ensures UnitColumns(m, c) ==> UnitColumns(Advanced(m, c), c + 1)
  {
    hide Vanishes, Cleared, Solves;
    var p := Largest(m, c, |m|);
    SwapKeeps(m, c, p, |m|);
    ClearKeeps(Swapped(m, c, p), c);
    if UnitColumns(m, c) {
      SwapUnit(m, c, p);
      ClearUnit(Swapped(m, c, p), c);
    }
  }

  /** As far as the run gets, the columns done are unit columns and the solutions are those of the given system. */
  lemma {:induction false} ReachKeeps(m: Matrix, c: nat)
    requires Rectangular(m, |m| + 1) && c <= |m| && Reach(m, c).Some?
    ensures var r := Reach(m, c).value;
      UnitColumns(r, c) && SameNull(m, r, |m| + 1) && SameSolutions(m, r, |m|)
  {
    hide Vanishes, Solves, Advanced, Negligible;
    if c > 0 {
      ReachKeeps(m, c - 1);
      AdvancedKeeps(Reach(m, c - 1).value, c - 1);
    }
    NullSolutions(m, Reach(m, c).value, |m|);
  }

  /** Once every column is a unit column, the last column is the one and only solution. */
  lemma UnitSystem(m: Matrix, s: Vector)
    requires Rectangular(m, |m| + 1) && UnitColumns(m, |m|)
    requires |s| == |m| && forall r :: 0 <= r < |m| ==> s[r] == m[r][|m|]
    ensures forall x: Vector :: |x| == |m| ==> (Solves(m, x) <==> x == s)
  {
    forall x: Vector, r | |x| == |m| && 0 <= r < |m| ensures Satisfies(m[r], x) <==> x[r] == s[r] {
      var u := m[r][..|m|];
      assert m[r] == u + [s[r]];
      DotAppend(u, x, s[r], -1.0);
      DotUnit(u, x, r);
    }
  }

  function Augmented(matrix: Matrix, right: Vector): (m: Matrix)
    requires |matrix| == |right|
    ensures |m| == |matrix|
    ensures Rectangular(matrix, |right|) ==> Rectangular(m, |right| + 1)
  {
    seq(|matrix|, r requires 0 <= r < |matrix| => matrix[r] + [right[r]])
  }

  lemma AugmentedSolutions(matrix: Matrix, right: Vector, x: Vector)
    requires |matrix| == |right| == |x| && Rectangular(matrix, |x|)
    ensures Rectangular(Augmented(matrix, right), |x| + 1)
    ensures Solves(Augmented(matrix, right), x) <==> SolvesSystem(matrix, right, x)
  {
    var m := Augmented(matrix, right);
    forall r | 0 <= r < |m| ensures Satisfies(m[r], x) <==> Dot(matrix[r], x) == right[r] {
      DotAppend(matrix[r], x, right[r], -1.0);
    }
  }

  /** The pivot search: the largest entry at or below the diagonal, the first such row. */
  method Pivot(m: array<Vector>, column: nat) returns (pivot: nat)
    requires column < m.Length && Rectangular(m[..], m.Length + 1)
    ensures pivot == Largest(m[..], column, m.Length)
    ensures column <= pivot < m.Length
    ensures forall r :: column <= r < m.Length ==> Abs(m[r][column]) <= Abs(m[pivot][column])
  {
    pivot := column;
    for r := column + 1 to m.Length
      invariant column <= pivot < r && pivot == Largest(m[..], column, r)
    {
      assert m[..][r] == m[r] && m[..][pivot] == m[pivot];
      if Abs(m[r][column]) > Abs(m[pivot][column]) {
        pivot := r;
      }
    }
    assert forall r :: column <= r < m.Length ==> m[..][r] == m[r];
  }

  lemma EliminateNothing(row: Vector, pivot: Vector)
    requires |row| == |pivot|
    ensures Eliminate(row, pivot, 0.0) == row
  {
    forall i | 0 <= i < |row| ensures Eliminate(row, pivot, 0.0)[i] == row[i] {
      MulZero(pivot[i]);
    }
  }

  /** One column made a unit column below and above its pivot, rows replaced in place. */
  method ReduceColumn(m: array<Vector>, column: nat)
    requires column < m.Length && Rectangular(m[..], m.Length + 1) && m[column][column] != 0.0
    modifies m
    ensures m[..] == Cleared(old(m[..]), column)
    ensures SameSolutions(old(m[..]), m[..], m.Length)
    ensures old(UnitColumns(m[..], column)) ==> UnitColumns(m[..], column + 1)
  {
    hide SameNull, SameSolutions, UnitColumns, Vanishes, Solves, Divide, Eliminate, Cleared;
    ghost var start := m[..];
    ghost var done := Cleared(start, column);
    ClearedRows(start, column);
    var scale := m[column][column];
    m[column] := Divide(m[column], scale);
    for row := 0 to m.Length
      invariant m[column] == done[column]
      invariant forall r :: 0 <= r < row ==> m[r] == done[r]
      invariant forall r :: row <= r < m.Length && r != column ==> m[r] == start[r]
    {
      if row != column {
        var factor := m[row][column];
        if factor != 0.0 {
          m[row] := Eliminate(m[row], m[column], factor);
        } else {
          EliminateNothing(m[row], m[column]);
        }
      }
    }
    assert m[..] == done;
    ClearKeeps(start, column);
    if UnitColumns(start, column) {
      ClearUnit(start, column);
    }
  }

  lemma ClearedRows(m: Matrix, c: nat)
    requires c < |m| && Rectangular(m, |m| + 1) && m[c][c] != 0.0
    ensures Cleared(m, c)[c] == Divide(m[c], m[c][c])
    ensures forall r :: 0 <= r < |m| && r != c ==> Cleared(m, c)[r] == Eliminate(m[r], Cleared(m, c)[c], m[r][c])
  {
  }

  /** One turn of the solver's loop: nothing to divide by, or the column dealt with in place. */
  method AdvanceColumn(m: array<Vector>, column: nat) returns (stuck: bool)
    requires column < m.Length && Rectangular(m[..], m.Length + 1)
    modifies m
    ensures stuck <==> Negligible(old(m[..]), column)
    ensures !stuck ==> m[..] == Advanced(old(m[..]), column)
  {
    hide Cleared, SameSolutions, UnitColumns;
    var pivot := Pivot(m, column);
    assert m[..][pivot] == m[pivot];
    if Abs(m[pivot][column]) < SINGULAR {
      return true;
    }
    ghost var before := m[..];
    m[column], m[pivot] := m[pivot], m[column];
    assert m[..] == Swapped(before, column, pivot);
    ReduceColumn(m, column);
    stuck := false;
  }

  /** The solver's loop over the columns, the augmented rows replaced in place. */
  method Eliminated(m: array<Vector>) returns (stuck: bool)
    requires Rectangular(m[..], m.Length + 1)
    modifies m
    ensures stuck ==> exists c :: 0 <= c < m.Length && StuckAt(old(m[..]), c)
    ensures !stuck ==> Reach(old(m[..]), m.Length) == Some(m[..])
  {
    hide Advanced, Negligible;
    ghost var given := m[..];
    for column := 0 to m.Length
      invariant Reach(given, column) == Some(m[..])
    {
      stuck := AdvanceColumn(m, column);
      if stuck {
        assert StuckAt(given, column);
        return;
      }
    }
    stuck := false;
  }

  /**
   The solver: the vector it returns solves the given system and is the only vector that does, and it
   refuses exactly when its run comes to a column whose remaining entries are all below 1e-12.
   */
  method Solve(matrix: Matrix, right: Vector) returns (result: Result<Vector, FitError>)
    requires |matrix| == |right| && Rectangular(matrix, |right|)
    ensures result.Err? <==> Refuses(matrix, right)
    ensures result.Err? ==> result.error == FitDegenerate
    ensures result.Ok? ==> |result.value| == |right|
    ensures result.Ok? ==>
      forall x: Vector :: |x| == |right| ==> (SolvesSystem(matrix, right, x) <==> x == result.value)
  {
    hide StuckAt, Reach;
    var size := |right|;
    var m := new Vector[size](r requires 0 <= r < size => matrix[r] + [right[r]]);
    assert m[..] == Augmented(matrix, right);
    var stuck := Eliminated(m);
    if stuck {
      return Err(FitDegenerate);
    }
    var rows := m[..];
    var solution := seq(size, r requires 0 <= r < size && |rows| == size && |rows[r]| == size + 1 => rows[r][size]);
    Finished(matrix, right, solution);
    return Ok(solution);
  }

  /** A run that gets through every column was never stuck, and its last column is the only solution. */
  lemma Finished(matrix: Matrix, right: Vector, solution: Vector)
    requires |matrix| == |right| == |solution| && Rectangular(matrix, |right|)
    requires var m := Reach(Augmented(matrix, right), |right|);
      m.Some? && forall r :: 0 <= r < |right| ==> solution[r] == m.value[r][|right|]
    ensures !Refuses(matrix, right)
    ensures forall x: Vector :: |x| == |right| ==> (SolvesSystem(matrix, right, x) <==> x == solution)
  {
    var given := Augmented(matrix, right);
    forall c | 0 <= c < |right| ensures !StuckAt(given, c) {
      ReachPrefix(given, c, |right|);
    }
    ReachKeeps(given, |right|);
    UnitSystem(Reach(given, |right|).value, solution);
    forall x: Vector | |x| == |right| ensures SolvesSystem(matrix, right, x) <==> x == solution {
      AugmentedSolutions(matrix, right, x);
    }
  }
}
