/**
 How much ridge is enough: a bound on the feature values and the number of features, and a ridge above which
 the solver never refuses a fit, however the features depend on each other.

 A run that is stuck shows a vector the given matrix nearly sends to zero. For normal equations with a ridge
 there is no such vector: the ridge alone makes it too large.
 */
module SolverMargin {
  import opened Forecasting
  import opened GaussJordan
  import opened Linear
  import opened Ridge
  import opened SolverRefusal

  // What the given rows show of a vector on which the rows done vanish.

  ghost predicate Unseen(m: Matrix, c: nat, v: Vector)
    requires c <= |m| && Rectangular(m, |v|)
  {
    forall j :: 0 <= j < c ==> Dot(m[j], v) == 0.0
  }

  /** Nothing, or what some remaining row shows. */
  ghost predicate LeftOver(x: real, m: Matrix, c: nat, v: Vector)
    requires Rectangular(m, |v|)
  {
    x == 0.0 || exists k: nat :: c <= k < |m| && x == Dot(m[k], v)
  }

  ghost predicate Tracks(given: Matrix, m: Matrix, c: nat)
    requires c <= |m| && Rectangular(given, |m| + 1) && Rectangular(m, |m| + 1)
  {
    forall v: Vector, r :: |v| == |m| + 1 && 0 <= r < |given| && Unseen(m, c, v) ==> LeftOver(Dot(given[r], v), m, c, v)
  }

  lemma ClearedShows(m: Matrix, c: nat, v: Vector, r: nat)
    requires c < |m| && Rectangular(m, |m| + 1) && m[c][c] != 0.0 && |v| == |m| + 1 && r < |m|
    requires Dot(Cleared(m, c)[c], v) == 0.0
    ensures Dot(m[r], v) == if r == c then 0.0 else Dot(Cleared(m, c)[r], v)
  {
    ClearedRows(m, c);
    hide Cleared, Dot;
    if r == c {
      DotDivided(m[c], m[c][c], v);
    } else {
      DotEliminated(m[r], Cleared(m, c)[c], m[r][c], v);
      MulZero(m[r][c]);
    }
  }

  /** What a row showed before a column is dealt with, it, the row it changed places with, or nothing shows after. */
  lemma AdvancedShows(m: Matrix, c: nat, v: Vector, k: nat)
    requires c < |m| && Rectangular(m, |m| + 1) && !Negligible(m, c) && |v| == |m| + 1 && k < |m|
    requires Unseen(Advanced(m, c), c + 1, v)
    ensures k < c ==> Dot(m[k], v) == 0.0
    ensures k >= c ==> LeftOver(Dot(m[k], v), Advanced(m, c), c + 1, v)
  {
    var p := Largest(m, c, |m|);
    var swapped := Swapped(m, c, p);
    SwapKeeps(m, c, p, |m|);
    var at := if k == c then p else if k == p then c else k;
    assert swapped[at] == m[k];
    hide Cleared, Dot, Negligible;
    ClearedShows(swapped, c, v, at);
  }

  lemma AdvancedTracks(given: Matrix, m: Matrix, c: nat)
    requires c < |m| && Rectangular(given, |m| + 1) && Rectangular(m, |m| + 1) && !Negligible(m, c) && Tracks(given, m, c)
    ensures Tracks(given, Advanced(m, c), c + 1)
  {
    hide Advanced, Negligible, Dot;
    var next := Advanced(m, c);
    forall v: Vector, r | |v| == |m| + 1 && 0 <= r < |given| && Unseen(next, c + 1, v)
      ensures LeftOver(Dot(given[r], v), next, c + 1, v)
    {
      forall j | 0 <= j < c ensures Dot(m[j], v) == 0.0 {
        AdvancedShows(m, c, v, j);
      }
      assert LeftOver(Dot(given[r], v), m, c, v);
      if k: nat :| c <= k < |m| && Dot(given[r], v) == Dot(m[k], v) {
        AdvancedShows(m, c, v, k);
      }
    }
  }

  lemma StartTracks(given: Matrix)
    requires Rectangular(given, |given| + 1)
    ensures Tracks(given, given, 0)
  {
  }

  lemma {:induction false} ReachTracks(m: Matrix, c: nat)
    requires Rectangular(m, |m| + 1) && c <= |m| && Reach(m, c).Some?
    ensures Tracks(m, Reach(m, c).value, c)
  {
    hide Tracks, Advanced, Negligible;
    if c == 0 {
      StartTracks(m);
    } else {
      ReachTracks(m, c - 1);
      AdvancedTracks(m, Reach(m, c - 1).value, c - 1);
    }
  }

  /** A unit step in column `c`, all columns after it at rest, that every row of the matrix shows as less than 1e-12. */
  ghost predicate NearlyBlind(matrix: Matrix, d: Vector, c: nat)
    requires c < |d| && Rectangular(matrix, |d|)
  {
    && d[c] == 1.0 && (forall k :: c < k < |d| ==> d[k] == 0.0)
    && forall r :: 0 <= r < |matrix| ==> Abs(Dot(matrix[r], d)) < SINGULAR
  }

  lemma StuckShows(given: Matrix, c: nat, r: nat)
    requires Rectangular(given, |given| + 1) && StuckAt(given, c) && r < |given|
    ensures var v := Direction(Reach(given, c).value, c); |v| == |given| + 1 && Abs(Dot(given[r], v)) < SINGULAR
  {
    var m := Reach(given, c).value;
    var v := Direction(m, c);
    ReachKeeps(given, c);
    ReachTracks(given, c);
    hide Reach, SameNull, SameSolutions, Dot;
    forall k | 0 <= k < |m| ensures Dot(m[k], v) == if k < c then 0.0 else m[k][c] {
      DirectionShows(m, c, k);
    }
    assert Unseen(m, c, v);
    assert LeftOver(Dot(given[r], v), m, c, v);
  }

  lemma WithoutLast(row: Vector, d: Vector, b: real)
    requires |row| == |d|
    ensures Dot(row + [b], d + [0.0]) == Dot(row, d)
  {
    DotAppend(row, d, b, 0.0);
    MulZero(b);
  }

  lemma DirectionEnds(m: Matrix, c: nat)
    requires c < |m| && Rectangular(m, |m| + 1)
    ensures var v := Direction(m, c); v[c] == 1.0 && forall k :: c < k < |v| ==> v[k] == 0.0
  {
  }

  /** What shows on the system's rows shows on the matrix, the right side having no part in it. */
  lemma StillBlind(matrix: Matrix, right: Vector, d: Vector, c: nat)
    requires |matrix| == |right| == |d| && Rectangular(matrix, |d|) && c < |d|
    requires d[c] == 1.0 && forall k :: c < k < |d| ==> d[k] == 0.0
    requires forall r :: 0 <= r < |matrix| ==> Abs(Dot(Augmented(matrix, right)[r], d + [0.0])) < SINGULAR
    ensures NearlyBlind(matrix, d, c)
  {
    hide Dot, Abs;
    forall r | 0 <= r < |matrix| ensures Abs(Dot(matrix[r], d)) < SINGULAR {
      assert Augmented(matrix, right)[r] == matrix[r] + [right[r]];
      WithoutLast(matrix[r], d, right[r]);
    }
  }

  /** Where the run is stuck, the given matrix nearly sends such a vector to zero. */
  lemma StuckIsNearlyBlind(matrix: Matrix, right: Vector, c: nat)
    requires |matrix| == |right| && Rectangular(matrix, |right|) && StuckAt(Augmented(matrix, right), c)
    ensures exists d: Vector :: |d| == |right| && NearlyBlind(matrix, d, c)
  {
    var given, n := Augmented(matrix, right), |right|;
    StuckReach(given, c);
    var v := Direction(Reach(given, c).value, c);
    DirectionEnds(Reach(given, c).value, c);
    hide StuckAt, Reach, Dot, Abs, Direction, Augmented, NearlyBlind;
    var d := v[..n];
    assert v == d + [0.0];
    forall r | 0 <= r < n ensures Abs(Dot(given[r], d + [0.0])) < SINGULAR {
      StuckShows(given, c, r);
    }
    StillBlind(matrix, right, d, c);
  }

  lemma StuckReach(given: Matrix, c: nat)
    requires Rectangular(given, |given| + 1) && StuckAt(given, c)
    ensures c < |given| && Reach(given, c).Some? && Rectangular(Reach(given, c).value, |given| + 1)
    ensures |Reach(given, c).value| == |given|
  {
    ReachKeeps(given, c);
    hide Reach;
  }

  // The normal matrix as a quadratic form.

  /** The normal matrix applied to `d`. */
  ghost function Image(rows: Matrix, ridge: real, d: Vector): (v: Vector)
    requires Rectangular(rows, |d|)
    ensures |v| == |d|
  {
    seq(|d|, i requires 0 <= i < |d| => Dot(NormalMatrix(rows, ridge, |d|)[i], d))
  }

  lemma NegatedSquareMul(p: real)
    ensures Mul(0.0 - p, p) == -Mul(p, p)
  {
  }

  lemma {:induction false} PullEnergy(rows: Matrix, d: Vector)
    requires |d| > 0 && Rectangular(rows, |d|)
    ensures Dot(Pull(rows, Zeros(|rows|), d), d) == -Energy(rows, d)
  {
    hide Mul, Plus, Scaled;
    if rows == [] {
      DotZeros(d);
    } else {
      var k := |rows| - 1;
      var p := Dot(rows[k], d);
      PullEnergy(rows[..k], d);
      assert Zeros(|rows|)[..k] == Zeros(k);
      DotPlus(Pull(rows[..k], Zeros(k), d), Scaled(0.0 - p, rows[k]), d);
      DotScaled(0.0 - p, rows[k], d);
      NegatedSquareMul(p);
    }
  }

  lemma ImageEntry(rows: Matrix, ridge: real, d: Vector, i: nat)
    requires rows != [] && |d| > 0 && Rectangular(rows, |d|) && i < |d|
    ensures Image(rows, ridge, d)[i] == Mul(ridge, Penalised(d)[i]) - Pull(rows, Zeros(|rows|), d)[i]
  {
    PullEntry(rows, Zeros(|rows|), d, i);
    NoTargets(rows, i);
    NormalRowDot(rows, ridge, i, d);
    MulZero(ridge);
    hide Mul, Pull, Cross, Moments, Dot, NormalRow;
  }

  lemma ImageDot(rows: Matrix, ridge: real, d: Vector)
    requires rows != [] && |d| > 0 && Rectangular(rows, |d|)
    ensures Dot(Image(rows, ridge, d), d) == Energy(rows, d) + Mul(ridge, Penalty(d))
  {
    hide Mul, Pull, Energy, Image;
    var pull, push := Pull(rows, Zeros(|rows|), d), Scaled(ridge, Penalised(d));
    forall i | 0 <= i < |d| ensures Image(rows, ridge, d)[i] == push[i] + Mul(-1.0, pull[i]) {
      ImageEntry(rows, ridge, d, i);
      MinusOne(pull[i]);
    }
    assert Image(rows, ridge, d) == Plus(push, Scaled(-1.0, pull));
    DotPlus(push, Scaled(-1.0, pull), d);
    DotScaled(-1.0, pull, d);
    MinusOne(Dot(pull, d));
    PullEnergy(rows, d);
    DotScaled(ridge, Penalised(d), d);
    PenalisedDot(d, d);
  }

  lemma MinusOne(a: real)
    ensures Mul(-1.0, a) == -a
  {
  }

  // Bounds.

  /** The magnitudes added up. */
  function Size(d: Vector): (s: real)
    ensures s >= 0.0
  {
    if d == [] then 0.0 else Abs(d[0]) + Size(d[1..])
  }

  lemma AbsProduct(a: real, b: real, cap: real)
    requires Abs(a) <= cap
    ensures Abs(Mul(a, b)) <= Mul(cap, Abs(b))
  {
    if b >= 0.0 {
      assert -cap * b <= a * b <= cap * b;
    } else {
      assert -cap * -b <= a * -b <= cap * -b;
      assert a * -b == -(a * b);
    }
  }

  lemma {:induction false} DotBound(a: Vector, d: Vector, cap: real)
    requires |a| == |d| && forall i :: 0 <= i < |a| ==> Abs(a[i]) <= cap
    ensures Abs(Dot(a, d)) <= Mul(cap, Size(d))
  {
    MulZero(cap);
    hide Mul;
    if a != [] {
      DotBound(a[1..], d[1..], cap);
      AbsProduct(a[0], d[0], cap);
      MulSum(Abs(d[0]), Size(d[1..]), cap);
    }
  }

  lemma TwiceAtMost(x: real)
    ensures Abs(x) + Abs(x) <= Mul(x, x) + 1.0
  {
    assert (x - 1.0) * (x - 1.0) >= 0.0;
    assert (x + 1.0) * (x + 1.0) >= 0.0;
  }

  lemma {:induction false} SizeSquares(u: Vector)
    ensures Size(u) + Size(u) <= Dot(u, u) + |u| as real
  {
    hide Mul;
    if u != [] {
      SizeSquares(u[1..]);
      TwiceAtMost(u[0]);
    }
  }

  lemma {:induction false} UnitStepSquares(u: Vector, i: nat)
    requires i < |u| && u[i] == 1.0
    ensures Dot(u, u) >= 1.0
  {
    DotSquare(u[1..]);
    SquareSign(u[0]);
    if i == 0 {
    } else {
      UnitStepSquares(u[1..], i - 1);
    }
  }

  /** Training rows with a constant column, and no feature larger than `cap` in magnitude. */
  ghost predicate Capped(rows: Matrix, cap: real) {
    forall k, i :: 0 <= k < |rows| && 0 <= i < |rows[k]| ==> if i == 0 then rows[k][i] == 1.0 else Abs(rows[k][i]) <= cap
  }

  lemma RowShows(row: Vector, d: Vector, cap: real)
    requires |row| == |d| > 0 && row[0] == 1.0 && forall i :: 0 < i < |row| ==> Abs(row[i]) <= cap
    ensures Abs(Dot(row, d) - d[0]) <= Mul(cap, Size(d[1..]))
  {
    MulOne(d[0]);
    hide Mul;
    assert Dot(row, d) == Mul(1.0, d[0]) + Dot(row[1..], d[1..]);
    DotBound(row[1..], d[1..], cap);
  }

  /** The intercept's equation: its pull is the number of rows times the intercept, give or take the features. */
  lemma {:induction false} InterceptPull(rows: Matrix, d: Vector, cap: real)
    requires |d| > 0 && Rectangular(rows, |d|) && Capped(rows, cap)
    ensures Abs(Pull(rows, Zeros(|rows|), d)[0] + Mul(|rows| as real, d[0])) <= Mul(|rows| as real, Mul(cap, Size(d[1..])))
  {
    var each := Mul(cap, Size(d[1..]));
    MulZero(d[0]);
    MulZero(each);
    MulOne(d[0]);
    MulOne(each);
    hide Mul;
    if rows != [] {
      var k := |rows| - 1;
      InterceptPull(rows[..k], d, cap);
      assert Zeros(|rows|)[..k] == Zeros(k);
      var p := Dot(rows[k], d);
      MulOne(0.0 - p);
      RowShows(rows[k], d, cap);
      assert Pull(rows, Zeros(|rows|), d)[0] == Pull(rows[..k], Zeros(k), d)[0] - p;
      MulSum(k as real, 1.0, d[0]);
      MulSum(k as real, 1.0, each);
      assert |rows| as real == k as real + 1.0;
    }
  }

  lemma InterceptSmall(count: real, x: real, intercept: real, each: real)
    requires count >= 1.0 && Abs(x) < SINGULAR && each >= 0.0
    requires Abs(Mul(count, intercept) - x) <= Mul(count, each)
    ensures Abs(intercept) <= SINGULAR + each
  {
    var gap := Abs(intercept) - each;
    assert count * Abs(intercept) == Abs(count * intercept);
    assert count * gap == count * Abs(intercept) - count * each;
    if gap > 0.0 {
      assert (count - 1.0) * gap >= 0.0;
    }
  }

  // The margin.

  /** The ridge that is enough for `features` columns of values no larger than `cap` in magnitude. */
  function Margin(features: nat, cap: real): real {
    SINGULAR * (SINGULAR + (1.0 + cap) * (1.0 + features as real) / 2.0)
  }

  /** A vector the normal matrix nearly sends to zero moves some weight, and its intercept is small beside them. */
  lemma NearlyBlindSize(rows: Matrix, ridge: real, d: Vector, c: nat, cap: real)
    requires rows != [] && |d| > 0 && Rectangular(rows, |d|) && Capped(rows, cap) && cap >= 0.0
    requires c < |d| && NearlyBlind(NormalMatrix(rows, ridge, |d|), d, c)
    ensures Abs(d[0]) <= SINGULAR + Mul(cap, Size(d[1..]))
    ensures Penalty(d) >= 1.0
  {
    var each := Mul(cap, Size(d[1..]));
    PenaltySign(cap, Size(d[1..]));
    ImageEntry(rows, ridge, d, 0);
    MulZero(ridge);
    InterceptPull(rows, d, cap);
    hide Mul, Pull, Dot, NormalMatrix, Size;
    var x := Image(rows, ridge, d)[0];
    assert Abs(x) < SINGULAR;
    InterceptSmall(|rows| as real, x, d[0], each);
    if c == 0 {
      assert d[1..] == Zeros(|d| - 1);
      NoSize(|d| - 1);
      MulZero(cap);
    } else {
      assert d[1..][c - 1] == 1.0;
      UnitStepSquares(d[1..], c - 1);
    }
  }

  lemma {:induction false} NoSize(n: nat)
    ensures Size(Zeros(n)) == 0.0
  {
    if n > 0 {
      assert Zeros(n)[1..] == Zeros(n - 1);
      NoSize(n - 1);
    }
  }

  lemma ImageSmall(rows: Matrix, ridge: real, d: Vector, c: nat)
    requires rows != [] && c < |d| && Rectangular(rows, |d|)
    requires NearlyBlind(NormalMatrix(rows, ridge, |d|), d, c)
    ensures Energy(rows, d) + Mul(ridge, Penalty(d)) <= Mul(SINGULAR, Size(d))
  {
    hide Mul, Dot, NormalMatrix, Energy, Penalty;
    ImageDot(rows, ridge, d);
    DotBound(Image(rows, ridge, d), d, SINGULAR);
  }

  /** The arithmetic of it: `s` the squared weights, `u` their magnitudes added up, `w` their number. */
  lemma MarginArithmetic(ridge: real, s: real, u: real, w: nat, cap: real)
    requires s >= 1.0 && cap >= 0.0 && u + u <= s + w as real
    requires Mul(ridge, s) <= Mul(SINGULAR, SINGULAR + Mul(cap, u) + u)
    ensures ridge <= Margin(w, cap)
  {
    var half := (1.0 + cap) / 2.0;
    assert (1.0 + cap) * u == half * (u + u);
    assert half * (u + u) <= half * (s + w as real);
    assert w as real <= s * w as real by {
      assert (s - 1.0) * w as real >= 0.0;
    }
    var most := s * (1.0 + w as real);
    assert s + w as real <= most;
    assert half * (s + w as real) <= half * most;
    assert half * most == s * (half * (1.0 + w as real));
    var per := SINGULAR + half * (1.0 + w as real);
    assert SINGULAR + cap * u + u <= s * per;
    assert Margin(w, cap) == SINGULAR * per;
    assert ridge * s <= SINGULAR * (s * per) == Margin(w, cap) * s;
    if ridge > Margin(w, cap) {
      PositiveProduct(ridge - Margin(w, cap), s);
    }
  }

  lemma NotNearlyBlind(rows: Matrix, ridge: real, d: Vector, c: nat, cap: real)
    requires rows != [] && c < |d| && Rectangular(rows, |d|) && Capped(rows, cap) && cap >= 0.0
    requires NearlyBlind(NormalMatrix(rows, ridge, |d|), d, c)
    ensures ridge <= Margin(|d| - 1, cap)
  {
    hide NormalMatrix, NearlyBlind, Margin, Energy, Mul, Dot, Capped;
    NearlyBlindSize(rows, ridge, d, c, cap);
    ImageSmall(rows, ridge, d, c);
    EnergyNonNegative(rows, d);
    SizeSquares(d[1..]);
    var u := Size(d[1..]);
    assert Size(d) == Abs(d[0]) + u;
    SingularGrows(Size(d), SINGULAR + Mul(cap, u) + u);
    MarginArithmetic(ridge, Penalty(d), u, |d| - 1, cap);
  }

  lemma SingularGrows(a: real, b: real)
    requires a <= b
    ensures Mul(SINGULAR, a) <= Mul(SINGULAR, b)
  {
  }

  /** No feature value is larger than `cap` in magnitude. */
  ghost predicate Within(inputs: Matrix, cap: real) {
    forall k, i :: 0 <= k < |inputs| && 0 <= i < |inputs[k]| ==> Abs(inputs[k][i]) <= cap
  }

  lemma WithinCapped(inputs: Matrix, cap: real)
    requires Within(inputs, cap)
    ensures Capped(DesignRows(inputs), cap)
  {
    var rows := DesignRows(inputs);
    forall k, i | 0 <= k < |rows| && 0 <= i < |rows[k]|
      ensures if i == 0 then rows[k][i] == 1.0 else Abs(rows[k][i]) <= cap
    {
      assert rows[k] == [1.0] + inputs[k];
      assert i > 0 ==> rows[k][i] == inputs[k][i - 1];
    }
  }

  /**
   With a ridge above the margin no fit is refused, for any number of rows and any targets, and however the
   features depend on each other.
   */
  lemma MarginSuffices(inputs: Matrix, targets: Vector, ridge: real, cap: real)
    requires |inputs| == |targets| > 0 && Rectangular(inputs, |inputs[0]|)
    requires cap >= 0.0 && Within(inputs, cap) && ridge > Margin(|inputs[0]|, cap)
    ensures !FitRefused(inputs, targets, ridge)
  {
    hide NormalMatrix, NormalRight, StuckAt, NearlyBlind, Margin, Within;
    var rows, n := DesignRows(inputs), |inputs[0]| + 1;
    var matrix, right := NormalMatrix(rows, ridge, n), NormalRight(rows, targets, n);
    WithinCapped(inputs, cap);
    forall c | 0 <= c < n ensures !StuckAt(Augmented(matrix, right), c) {
      if StuckAt(Augmented(matrix, right), c) {
        StuckIsNearlyBlind(matrix, right, c);
        var d: Vector :| |d| == n && NearlyBlind(matrix, d, c);
        NotNearlyBlind(rows, ridge, d, c, cap);
      }
    }
  }

  const DEFAULT_RIDGE := 0.000001

  /** So with the default ridge no admissible fit on values up to 3800 is refused, up to the most features there may be. */
  lemma DefaultRidgeSuffices(inputs: Matrix, targets: Vector, features: nat, window: int, holdout: real)
    requires Admissible(inputs, targets, features, window, DEFAULT_RIDGE, holdout) && Within(inputs, 3800.0)
    ensures !TrainingRefused(inputs, targets, DEFAULT_RIDGE, holdout)
  {
    hide FitRefused, Split;
    var split := Split(|inputs|, holdout);
    var w := |inputs[0]|;
    assert w <= MAX_FEATURES_PER_FIT;
    assert Margin(w, 3800.0) < DEFAULT_RIDGE by {
      assert 3801.0 * (1.0 + w as real) <= 3801.0 * 513.0;
    }
    MarginSuffices(inputs[..split], targets[..split], DEFAULT_RIDGE, 3800.0);
  }
}
