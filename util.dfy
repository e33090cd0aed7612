/**
 * Helpers of the motor controller: the polar-to-Cartesian map of an antenna
 * position (dist2coordinates) and the Khachiyan iteration of
 * outer_ellipsoid_fit, which weights the antenna coordinates so that their
 * enclosing ellipse can be read off.
 *
 * np.cos/np.sin of an antenna angle are given as a Direction; the leverage
 * vector m = diag(q^T (q diag(u) q^T)^-1 q), which needs a matrix inverse, is
 * a function parameter of the weights.
 */
module Util {
  import opened PyBuiltins

  /** Cartesian coordinates [x, y] of an antenna. */
  datatype Point = Point(x: real, y: real)

  /** (cos, sin) of an antenna angle. */
  datatype Direction = Direction(cos: real, sin: real)

  predicate IsUnit(dir: Direction)
  {
    dir.cos * dir.cos + dir.sin * dir.sin == 1.0
  }

  /** dist2coordinates: the point at radius `distance` along the angle's direction. */
  function Dist2Coordinates(distance: real, dir: Direction): Point
  {
    Point(distance * dir.cos, distance * dir.sin)
  }

  /**
   * The point lies on the line through the origin along the direction, and
   * for a unit direction its distance from the origin is `distance`.
   */
  lemma Dist2CoordinatesPolar(distance: real, dir: Direction)
    ensures var p := Dist2Coordinates(distance, dir);
      p.x * dir.sin == p.y * dir.cos
    ensures var p := Dist2Coordinates(distance, dir);
      IsUnit(dir) ==> p.x * p.x + p.y * p.y == distance * distance
  {
    ScaledNorm(distance, dir.cos, dir.sin);
  }

  lemma ScaledNorm(r: real, c: real, s: real)
    ensures (r * c) * s == (r * s) * c
    ensures (r * c) * (r * c) + (r * s) * (r * s) == (r * r) * (c * c + s * s)
  {
  }

  /**
   * cos/sin of the antenna angles 90, 45, 0, 315, 270, 225, 180, 135 degrees,
   * where h stands for cos 45 degrees.
   */
  function CompassDirections(h: real): (dirs: seq<Direction>)
    requires h > 0.0 && h * h == 0.5
    ensures |dirs| == 8
    ensures forall k :: 0 <= k < 8 ==> IsUnit(dirs[k])
  {
    [Direction(0.0, 1.0), Direction(h, h), Direction(1.0, 0.0), Direction(h, -h),
     Direction(0.0, -1.0), Direction(-h, -h), Direction(-1.0, 0.0), Direction(-h, h)]
  }

  // ---------------------------------------------------------------------
  // Vectors of reals

  function Sum(s: seq<real>): real
  {
    if |s| == 0 then 0.0 else s[0] + Sum(s[1..])
  }

  /** Inner product of two vectors of the same length. */
  function Dot(u: seq<real>, v: seq<real>): real
    requires |u| == |v|
  {
    if |u| == 0 then 0.0 else u[0] * v[0] + Dot(u[1..], v[1..])
  }

  predicate NonNegative(u: seq<real>)
  {
    forall i :: 0 <= i < |u| ==> u[i] >= 0.0
  }

  /** A weight vector: non-negative entries that sum to one. */
  predicate IsProbability(u: seq<real>)
  {
    NonNegative(u) && Sum(u) == 1.0
  }

  lemma {:induction false} SumUpdate(u: seq<real>, j: int, v: real)
    requires 0 <= j < |u|
    ensures Sum(u[j := v]) == Sum(u) - u[j] + v
  {
    if j > 0 {
      assert u[j := v][1..] == u[1..][j - 1 := v];
      SumUpdate(u[1..], j - 1, v);
    } else {
      assert u[j := v][1..] == u[1..];
    }
  }

  lemma {:induction false} SumConstant(n: nat, c: real)
    ensures Sum(seq(n, _ => c)) == n as real * c
  {
    if n > 0 {
      assert seq(n, _ => c)[1..] == seq(n - 1, _ => c);
      SumConstant(n - 1, c);
    }
  }

  // ---------------------------------------------------------------------
  // outer_ellipsoid_fit

  /** The weights at the start: u = np.ones(n) / n. */
  function Uniform(n: nat): (u: seq<real>)
    requires n >= 1
    ensures |u| == n && IsProbability(u)
  {
    SumConstant(n, 1.0 / n as real);
    seq(n, _ => 1.0 / n as real)
  }

  /**
   * The leverage vector m of a weight vector w: entry i is
   * q_i^T (q diag(w) q^T)^-1 q_i with q_i the point i extended by a 1. For an
   * exact inverse the w-weighted sum of the entries is the trace of the
   * (d+1) x (d+1) identity.
   */
  ghost predicate IsLeverageOracle(leverage: seq<real> -> seq<real>, n: nat, d: nat)
  {
    forall w: seq<real> :: |w| == n && IsProbability(w) ==>
      |leverage(w)| == n && Dot(w, leverage(w)) == (d + 1) as real
  }

  lemma {:induction false} DotUpperBound(u: seq<real>, v: seq<real>, hi: real)
    requires |u| == |v| && NonNegative(u)
    requires forall i :: 0 <= i < |v| ==> v[i] <= hi
    ensures Dot(u, v) <= hi * Sum(u)
  {
    if |u| > 0 {
      DotUpperBound(u[1..], v[1..], hi);
      MulMonotone(u[0], v[0], hi);
    }
  }

  lemma {:induction false} DotLowerBound(u: seq<real>, v: seq<real>, lo: real)
    requires |u| == |v| && NonNegative(u)
    requires forall i :: 0 <= i < |v| ==> lo <= v[i]
    ensures lo * Sum(u) <= Dot(u, v)
  {
    if |u| > 0 {
      DotLowerBound(u[1..], v[1..], lo);
      MulMonotone(u[0], lo, v[0]);
    }
  }

  lemma MulMonotone(w: real, a: real, b: real)
    requires w >= 0.0 && a <= b
    ensures w * a <= w * b
  {
    assert w * b - w * a == w * (b - a);
  }

  /** The largest leverage of a probability vector is at least d + 1 (the leverage average). */
  lemma MaxLeverageAtLeast(leverage: seq<real> -> seq<real>, w: seq<real>, d: nat)
    requires IsLeverageOracle(leverage, |w|, d)
    requires |w| >= 1 && IsProbability(w)
    ensures |leverage(w)| == |w|
    ensures leverage(w)[FirstArgMax(leverage(w))] >= (d + 1) as real
  {
    var m := leverage(w);
    var j := FirstArgMax(m);
    DotUpperBound(w, m, m[j]);
  }

  /** step_size = (m_j - d - 1) / ((d + 1)(m_j - 1)). */
  function StepSize(mj: real, d: nat): real
    requires mj > 1.0
  {
    MulPositive(d as real + 1.0, mj - 1.0);
    (mj - d as real - 1.0) / ((d as real + 1.0) * (mj - 1.0))
  }

  /** With m_j >= d + 1 the step lies in [0, 1/(d+1)), so it is a proper convex weight. */
  lemma StepSizeBounds(mj: real, d: nat)
    requires d >= 1 && mj >= (d + 1) as real
    ensures 0.0 <= StepSize(mj, d) < 1.0 / (d as real + 1.0)
    ensures StepSize(mj, d) < 1.0
  {
    var k, den := d as real + 1.0, mj - 1.0;
    var step := StepSize(mj, d);
    QuotientBounds(mj - k, k, den, step);
  }

  lemma QuotientBounds(num: real, k: real, den: real, step: real)
    requires k >= 2.0 && 0.0 <= num < den && step == num / (k * den)
    ensures 0.0 <= step < 1.0 / k
  {
    assert den > 0.0;
    assert k * den > 0.0;
    assert step * (k * den) == num;
    assert (1.0 / k) * (k * den) == den;
  }

  /** new_u = (1 - step) * u; new_u[jdx] += step. */
  function Update(u: seq<real>, j: int, step: real): (r: seq<real>)
    requires 0 <= j < |u|
    ensures |r| == |u|
    ensures forall i :: 0 <= i < |u| && i != j ==> r[i] == (1.0 - step) * u[i]
    ensures r[j] == (1.0 - step) * u[j] + step
  {
    Scale(1.0 - step, u)[j := (1.0 - step) * u[j] + step]
  }

  function Scale(k: real, u: seq<real>): (r: seq<real>)
    ensures |r| == |u| && forall i :: 0 <= i < |u| ==> r[i] == k * u[i]
  {
    seq(|u|, i requires 0 <= i < |u| => k * u[i])
  }

  lemma {:induction false} SumScale(k: real, u: seq<real>)
    ensures Sum(Scale(k, u)) == k * Sum(u)
  {
    if |u| > 0 {
      assert forall i :: 0 <= i < |u| - 1 ==> Scale(k, u)[1..][i] == k * u[1..][i];
      assert Scale(k, u)[1..] == Scale(k, u[1..]);
      SumScale(k, u[1..]);
    }
  }

  /** The weight update keeps u a probability vector. */
  lemma UpdateKeepsProbability(u: seq<real>, j: int, step: real)
    requires 0 <= j < |u| && IsProbability(u) && 0.0 <= step <= 1.0
    ensures IsProbability(Update(u, j, step))
  {
    var k := 1.0 - step;
    var s := Scale(k, u);
    var r := Update(u, j, step);
    assert r == s[j := k * u[j] + step];
    SumScale(k, u);
    assert Sum(s) == k;
    SumUpdate(s, j, k * u[j] + step);
    assert Sum(r) == k + step;
    forall i | 0 <= i < |u|
      ensures r[i] >= 0.0
    {
      MulMonotone(k, 0.0, u[i]);
    }
  }

  /** Squared Euclidean distance ||a - b||^2. */
  function SqDist(a: seq<real>, b: seq<real>): (r: real)
    requires |a| == |b|
    ensures r >= 0.0
  {
    if |a| == 0 then 0.0
    else
      var t := a[0] - b[0];
      SquareNonNegative(t);
      t * t + SqDist(a[1..], b[1..])
  }

  lemma SquareNonNegative(t: real)
    ensures t * t >= 0.0
  {
    if t < 0.0 {
      MulMonotone(-t, 0.0, -t);
      assert t * t == (-t) * (-t);
    } else {
      MulMonotone(t, 0.0, t);
    }
  }

  /** `err > tol` stated on err^2 = errSq. */
  predicate Exceeds(errSq: real, tol: real)
  {
    tol < 0.0 || errSq > tol * tol
  }

  /** For a norm err >= 0, err > tol exactly when Exceeds(err * err, tol). */
  lemma ExceedsIffNormAbove(err: real, tol: real)
    requires err >= 0.0
    ensures err > tol <==> Exceeds(err * err, tol)
  {
    if tol >= 0.0 {
      if err > tol {
        MulMonotone(err, tol, err);
        MulMonotone(tol, tol, err);
        assert tol * tol < err * err by {
          StrictSquare(tol, err);
        }
      } else {
        MulMonotone(err, err, tol);
        MulMonotone(tol, err, tol);
      }
    }
  }

  lemma StrictSquare(a: real, b: real)
    requires 0.0 <= a < b
    ensures a * a < b * b
  {
    MulPositive(b - a, b + a);
    assert (b - a) * (b + a) == b * b - a * a;
  }

  lemma MulPositive(p: real, q: real)
    requires p > 0.0 && q > 0.0
    ensures p * q > 0.0
  {
  }

  /** Column `col` of the point matrix. */
  function Column(points: seq<seq<real>>, col: nat): (c: seq<real>)
    requires forall i :: 0 <= i < |points| ==> col < |points[i]|
    ensures |c| == |points| && forall i :: 0 <= i < |points| ==> c[i] == points[i][col]
  {
    seq(|points|, i requires 0 <= i < |points| => points[i][col])
  }

  predicate Rectangular(points: seq<seq<real>>, d: nat)
  {
    forall i :: 0 <= i < |points| ==> |points[i]| == d
  }

  /** c = u * points: the u-weighted sum of the points. */
  function Centre(u: seq<real>, points: seq<seq<real>>, d: nat): (c: seq<real>)
    requires |u| == |points| && Rectangular(points, d)
    ensures |c| == d
  {
    seq(d, col requires 0 <= col < d => Dot(u, Column(points, col)))
  }

  /** For a probability vector each centre coordinate lies between that coordinate's extremes. */
  lemma CentreWithinBounds(u: seq<real>, points: seq<seq<real>>, d: nat, col: nat)
    requires |u| == |points| >= 1 && Rectangular(points, d) && col < d
    requires IsProbability(u)
    ensures Min(Column(points, col)) <= Centre(u, points, d)[col] <= Max(Column(points, col))
  {
    var c := Column(points, col);
    DotUpperBound(u, c, Max(c));
    DotLowerBound(u, c, Min(c));
  }

  /**
   * One round of the while loop of outer_ellipsoid_fit: move the weights
   * towards the first point of largest leverage by the step size.
   */
  function KhachiyanStep(leverage: seq<real> -> seq<real>, u: seq<real>, d: nat): (r: seq<real>)
    requires d >= 1 && |u| >= 1 && IsProbability(u) && IsLeverageOracle(leverage, |u|, d)
    ensures |r| == |u| && IsProbability(r)
  {
    MaxLeverageAtLeast(leverage, u, d);
    var m := leverage(u);
    var jdx := FirstArgMax(m);
    StepSizeBounds(m[jdx], d);
    UpdateKeepsProbability(u, jdx, StepSize(m[jdx], d));
    Update(u, jdx, StepSize(m[jdx], d))
  }

  /** The weights after k rounds, starting from ones(n)/n. */
  function Iterate(leverage: seq<real> -> seq<real>, n: nat, d: nat, k: nat): (u: seq<real>)
    requires d >= 1 && n >= 1 && IsLeverageOracle(leverage, n, d)
    ensures |u| == n && IsProbability(u)
  {
    if k == 0 then Uniform(n) else KhachiyanStep(leverage, Iterate(leverage, n, d, k - 1), d)
  }

  /** err^2 of round k: how far round k moved the weights. */
  function RoundMove(leverage: seq<real> -> seq<real>, n: nat, d: nat, k: nat): real
    requires d >= 1 && n >= 1 && IsLeverageOracle(leverage, n, d) && k >= 1
  {
    SqDist(Iterate(leverage, n, d, k), Iterate(leverage, n, d, k - 1))
  }

  /**
   * The body of the while loop in round k + 1: the new weights and
   * err^2 = ||new_u - u||^2.
   */
  method KhachiyanRound(leverage: seq<real> -> seq<real>, n: nat, d: nat, u: seq<real>, ghost k: nat)
    returns (newU: seq<real>, errSq: real)
    requires d >= 1 && n >= 1 && IsLeverageOracle(leverage, n, d)
    requires u == Iterate(leverage, n, d, k)
    ensures newU == Iterate(leverage, n, d, k + 1)
    ensures errSq == RoundMove(leverage, n, d, k + 1)
  {
    var m := leverage(u);
    MaxLeverageAtLeast(leverage, u, d);
    var jdx := FirstArgMax(m);
    StepSizeBounds(m[jdx], d);
    var step := StepSize(m[jdx], d);
    newU := Update(u, jdx, step);
    errSq := SqDist(newU, u);
  }

  /**
   * The rounds of the while loop still to run from round `it`, where `above`
   * is the loop condition err > tol, e the last err^2 and moves(k) the err^2
   * of round k: the number of rounds, the final value of the condition and
   * the final err^2.
   */
  function FitFrom(moves: nat -> real, tol: real, fuel: nat, it: nat, above: bool, e: real): (nat, bool, real)
    requires it <= fuel
    decreases fuel - it
  {
    if above && it < fuel then
      FitFrom(moves, tol, fuel, it + 1, Exceeds(moves(it + 1), tol), moves(it + 1))
    else (it, above, e)
  }

  /**
   * The loop stops within the fuel, only when err <= tol or the fuel has run
   * out, and every round before the last moved the weights by more than tol.
   */
  lemma {:induction false} FitFromShape(moves: nat -> real, tol: real, fuel: nat, it: nat, above: bool, e: real)
    requires it <= fuel
    ensures var r := FitFrom(moves, tol, fuel, it, above, e);
      && it <= r.0 <= fuel
      && (r.1 ==> r.0 == fuel)
      && (r.0 == it ==> r.1 == above && r.2 == e)
      && (r.0 > it ==> above && r.2 == moves(r.0) && (r.1 <==> Exceeds(r.2, tol)))
    ensures var r := FitFrom(moves, tol, fuel, it, above, e);
      forall k: nat :: it < k < r.0 ==> Exceeds(moves(k), tol)
    decreases fuel - it
  {
    if above && it < fuel {
      FitFromShape(moves, tol, fuel, it + 1, Exceeds(moves(it + 1), tol), moves(it + 1));
    }
  }

  /**
   * What the loop has done once its condition is false, read off FitFrom
   * with moves(k) the err^2 of round k.
   */
  lemma KhachiyanExit(leverage: seq<real> -> seq<real>, n: nat, d: nat, tol: real, fuel: nat,
                      moves: nat -> real, iterations: nat, errAbove: bool, lastErrSq: real)
    requires n >= 1 && d >= 1 && IsLeverageOracle(leverage, n, d)
    requires forall k: nat :: k >= 1 ==> moves(k) == RoundMove(leverage, n, d, k)
    requires iterations <= fuel && !(errAbove && iterations < fuel)
    requires FitFrom(moves, tol, fuel, iterations, errAbove, lastErrSq) == FitFrom(moves, tol, fuel, 0, true, 0.0)
    ensures fuel >= 1 ==> iterations >= 1
    ensures iterations >= 1 ==> lastErrSq == RoundMove(leverage, n, d, iterations)
    ensures forall k :: 1 <= k < iterations ==> Exceeds(RoundMove(leverage, n, d, k), tol)
    ensures !errAbove <==> iterations >= 1 && !Exceeds(lastErrSq, tol)
    ensures errAbove ==> iterations == fuel
  {
    assert FitFrom(moves, tol, fuel, iterations, errAbove, lastErrSq) == (iterations, errAbove, lastErrSq);
    FitFromShape(moves, tol, fuel, 0, true, 0.0);
    forall k | 1 <= k < iterations
      ensures Exceeds(RoundMove(leverage, n, d, k), tol)
    {
      assert Exceeds(moves(k), tol);
    }
  }

  /**
   * The while loop of outer_ellipsoid_fit on n points of dimension d, run for
   * at most `fuel` rounds. Returns the final weights, the number of rounds,
   * whether the loop stopped on its own condition, and err^2 of the last
   * round.
   */
  method KhachiyanLoop(n: nat, d: nat, tol: real, leverage: seq<real> -> seq<real>, fuel: nat)
    returns (u: seq<real>, iterations: nat, converged: bool, lastErrSq: real)
    requires n >= 1 && d >= 1 && IsLeverageOracle(leverage, n, d)
    ensures u == Iterate(leverage, n, d, iterations)
    ensures iterations <= fuel && (fuel >= 1 ==> iterations >= 1)
    ensures iterations >= 1 ==> lastErrSq == RoundMove(leverage, n, d, iterations)
    ensures forall k :: 1 <= k < iterations ==> Exceeds(RoundMove(leverage, n, d, k), tol)
    ensures converged <==> iterations >= 1 && !Exceeds(lastErrSq, tol)
    ensures !converged ==> iterations == fuel
  {
    ghost var moves := (k: nat) => if k >= 1 then RoundMove(leverage, n, d, k) else 0.0;
    u := Uniform(n);
    var errAbove := true;  // err = 1 + tol starts above tol
    iterations := 0;
    lastErrSq := 0.0;
    while errAbove && iterations < fuel
      invariant iterations <= fuel
      invariant u == Iterate(leverage, n, d, iterations)
      invariant FitFrom(moves, tol, fuel, iterations, errAbove, lastErrSq) == FitFrom(moves, tol, fuel, 0, true, 0.0)
      decreases fuel - iterations
    {
      var newU;
      newU, lastErrSq := KhachiyanRound(leverage, n, d, u, iterations);
      errAbove := Exceeds(lastErrSq, tol);
      u := newU;
      iterations := iterations + 1;
    }
    converged := !errAbove;
    KhachiyanExit(leverage, n, d, tol, fuel, moves, iterations, errAbove, lastErrSq);
  }

  /**
   * outer_ellipsoid_fit: the weights of the Khachiyan loop and the centre
   * c = u * points.
   */
  method OuterEllipsoidFit(points: seq<seq<real>>, tol: real,
                           leverage: seq<real> -> seq<real>, fuel: nat)
    returns (u: seq<real>, centre: seq<real>, iterations: nat, converged: bool, lastErrSq: real)
    requires |points| >= 1 && |points[0]| >= 1 && Rectangular(points, |points[0]|)
    requires IsLeverageOracle(leverage, |points|, |points[0]|)
    ensures u == Iterate(leverage, |points|, |points[0]|, iterations)
    ensures |u| == |points| && IsProbability(u)
    ensures centre == Centre(u, points, |points[0]|)
    ensures forall col :: 0 <= col < |points[0]| ==>
      Min(Column(points, col)) <= centre[col] <= Max(Column(points, col))
    ensures iterations <= fuel && (fuel >= 1 ==> iterations >= 1)
    ensures iterations >= 1 ==> lastErrSq == RoundMove(leverage, |points|, |points[0]|, iterations)
    ensures forall k :: 1 <= k < iterations ==> Exceeds(RoundMove(leverage, |points|, |points[0]|, k), tol)
    ensures converged <==> iterations >= 1 && !Exceeds(lastErrSq, tol)
    ensures !converged ==> iterations == fuel
  {
    var d := |points[0]|;
    u, iterations, converged, lastErrSq := KhachiyanLoop(|points|, d, tol, leverage, fuel);
    centre := Centre(u, points, d);
    forall col | 0 <= col < d
      ensures Min(Column(points, col)) <= centre[col] <= Max(Column(points, col))
    {
      CentreWithinBounds(u, points, d, col);
    }
  }
}
