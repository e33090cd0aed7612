/**
 * Intersection of an antenna's axis with the fitted ellipse and selection of
 * the physically valid root (MotorControl.solve_ellipse_system), and the
 * post-solve case split of MotorControl.create_ellipse.
 *
 * np.tan, np.roots and np.sqrt are not modelled: the slope t of the axis is a
 * real input, np.roots is a function parameter from the coefficient triple to
 * the list of roots it returns, and np.sqrt is a function parameter.
 */
module AxisSolver {
  import opened Wrappers
  import opened PyBuiltins

  /** An ellipse in centre form a(x-cx)^2 + 2b(x-cx)(y-cy) + c(y-cy)^2 = 1. */
  datatype Ellipse = Ellipse(a: real, b: real, c: real, cx: real, cy: real)

  /** The coefficient list [cp2, cp1, cp0] handed to np.roots. */
  datatype Quad = Quad(p2: real, p1: real, p0: real)

  /** An element of the array np.roots returns. */
  datatype Complex = Complex(re: real, im: real)

  /** One entry (xsol[i], ysol[i]) of the candidate list `sol`. */
  datatype Candidate = Candidate(x: Complex, y: Complex)

  /** The rounded point picked for an antenna. */
  datatype Target = Target(x: int, y: int)

  /** The triple returned by solve_ellipse_system. */
  datatype Solution = Solution(x: int, y: int, delta: int)

  /** Why solve_ellipse_system aborts (the source warns and exits, or raises). */
  datatype SolveError =
    | IndexError            // np.roots returned fewer than two roots
    | ComplexSolutions      // 'Found Complex Solutions in Equation System'
    | WrongSolutionCount(n: int) // 'Number of Solutions ... must be == 2'
    | RoundOfComplex        // round() applied to a complex value raises TypeError

  function EllipseForm(e: Ellipse, x: real, y: real): real
  {
    e.a * (x - e.cx) * (x - e.cx) + 2.0 * e.b * (x - e.cx) * (y - e.cy)
    + e.c * (y - e.cy) * (y - e.cy)
  }

  predicate OnEllipse(e: Ellipse, x: real, y: real)
  {
    EllipseForm(e, x, y) == 1.0
  }

  function Eval(q: Quad, x: real): real
  {
    q.p2 * x * x + q.p1 * x + q.p0
  }

  /** The coefficients of the scalar quadratic obtained by substituting y = t*x. */
  function Coefficients(e: Ellipse, t: real): Quad
  {
    var cp2 := e.a + 2.0 * e.b * t + e.c * t * t;
    var cp1 := -2.0 * (e.a * e.cx + e.b * (e.cx * t + e.cy) + e.c * e.cy * t);
    var cp0 := e.a * e.cx * e.cx + 2.0 * e.b * e.cx * e.cy + e.c * e.cy * e.cy - 1.0;
    Quad(cp2, cp1, cp0)
  }

  /** The quadratic is exactly the ellipse equation restricted to the axis line y = t*x. */
  lemma CoefficientsIdentity(e: Ellipse, t: real, x: real)
    ensures Eval(Coefficients(e, t), x) == EllipseForm(e, x, t * x) - 1.0
  {
    var u, v := x - e.cx, t * x - e.cy;
    assert u * u == x * x - 2.0 * e.cx * x + e.cx * e.cx;
    assert u * v == t * x * x - (e.cx * t + e.cy) * x + e.cx * e.cy;
    assert v * v == t * t * x * x - 2.0 * e.cy * t * x + e.cy * e.cy;
    assert e.a * (x - e.cx) * (x - e.cx) == e.a * (u * u);
    assert 2.0 * e.b * (x - e.cx) * (t * x - e.cy) == 2.0 * e.b * (u * v);
    assert e.c * (t * x - e.cy) * (t * x - e.cy) == e.c * (v * v);
    Distribute3(e.a, x * x, -2.0 * e.cx * x, e.cx * e.cx);
    Distribute3(2.0 * e.b, t * x * x, -(e.cx * t + e.cy) * x, e.cx * e.cy);
    Distribute3(e.c, t * t * x * x, -2.0 * e.cy * t * x, e.cy * e.cy);
  }

  lemma Distribute3(k: real, p: real, q: real, r: real)
    ensures k * (p + q + r) == k * p + k * q + k * r
  {
  }

  /** A real x is a root of the quadratic iff (x, t*x) lies on the ellipse (and it lies on the axis by construction). */
  lemma RootIffOnEllipse(e: Ellipse, t: real, x: real)
    ensures Eval(Coefficients(e, t), x) == 0.0 <==> OnEllipse(e, x, t * x)
  {
    CoefficientsIdentity(e, t, x);
  }

  /** Sign fact the solver does not find unaided. */
  lemma PositiveFactor(p: real, q: real)
    requires p * q > 0.0 && q > 0.0
    ensures p > 0.0
  {
  }

  /** ysol = xsol * tanth, element by element. */
  function Times(z: Complex, t: real): Complex
  {
    Complex(z.re * t, z.im * t)
  }

  /** sol = [(xsol[0], ysol[0]), (xsol[1], ysol[1])]; indexing raises IndexError with fewer than two roots. */
  function CandidatePairs(xsol: seq<Complex>, t: real): (r: Result<seq<Candidate>, SolveError>)
    ensures r.Success? <==> |xsol| >= 2
    ensures r.Failure? ==> r.error == IndexError
    ensures r.Success? ==> |r.value| == 2 && forall i :: 0 <= i < 2 ==>
      r.value[i].x == xsol[i] && r.value[i].y.re == t * xsol[i].re && r.value[i].y.im == t * xsol[i].im
  {
    if |xsol| < 2 then Failure(IndexError)
    else Success([Candidate(xsol[0], Times(xsol[0], t)), Candidate(xsol[1], Times(xsol[1], t))])
  }

  /**
   * numpy returns a complex array exactly when some root has a non-zero
   * imaginary part; every element of such an array (and of xsol * tanth) is
   * an instance of `complex`, so the four isinstance tests of the source
   * (one of them duplicated) all have this value.
   */
  predicate IsComplexArray(xsol: seq<Complex>)
  {
    exists i :: 0 <= i < |xsol| && xsol[i].im != 0.0
  }

  /** Antennas 0 and 4 sit on the y axis and select by their y roots. */
  predicate UsesY(antenna: int)
  {
    antenna == 0 || antenna == 4
  }

  /** +1 for the antennas that select a positive root (0..3), -1 for the others. */
  function AxisSide(antenna: int): int
  {
    if 0 <= antenna <= 3 then 1 else -1
  }

  /** The y coordinate that goes with a selected x. */
  function YOfX(antenna: int, x: int): int
  {
    if antenna == 1 || antenna == 5 then x
    else if antenna == 2 || antenna == 6 then 0
    else -x
  }

  /** 'v1 if v1 has the antenna's sign else v2': the other root is the fallback, whatever its sign. */
  function Prefer(v1: int, v2: int, side: int): (v: int)
    ensures v == v1 || v == v2
    ensures (side * v1 > 0 || side * v2 > 0) ==> side * v > 0
    ensures side * v1 > 0 ==> v == v1
    ensures side * v1 <= 0 && side * v2 <= 0 ==> v == v2
  {
    if side * v1 > 0 then v1 else v2
  }

  /** The fixed per-antenna selection table applied to the rounded roots. */
  function SelectRoot(antenna: int, x1: int, y1: int, x2: int, y2: int): (p: Target)
    ensures UsesY(antenna) ==> p.x == 0 && p.y == Prefer(y1, y2, AxisSide(antenna))
    ensures !UsesY(antenna) ==> p.x == Prefer(x1, x2, AxisSide(antenna)) && p.y == YOfX(antenna, p.x)
  {
    if antenna == 0 then Target(0, if y1 > 0 then y1 else y2)
    else if antenna == 1 then var x := if x1 > 0 then x1 else x2; Target(x, x)
    else if antenna == 2 then var x := if x1 > 0 then x1 else x2; Target(x, 0)
    else if antenna == 3 then var x := if x1 > 0 then x1 else x2; Target(x, -x)
    else if antenna == 4 then Target(0, if y1 < 0 then y1 else y2)
    else if antenna == 5 then var x := if x1 < 0 then x1 else x2; Target(x, x)
    else if antenna == 6 then var x := if x1 < 0 then x1 else x2; Target(x, 0)
    else var x := if x1 < 0 then x1 else x2; Target(x, -x)
  }

  /** Integer direction of each antenna's axis, at angles 90, 45, 0, 315, 270, 225, 180, 135 degrees. */
  function AxisDirection(antenna: int): (int, int)
    requires 0 <= antenna < 8
  {
    [(0, 1), (1, 1), (1, 0), (1, -1), (0, -1), (-1, -1), (-1, 0), (-1, 1)][antenna]
  }

  /**
   * The selected point always lies on the antenna's axis line, and on the
   * antenna's own half of it whenever one of the two rounded roots has the
   * antenna's sign.
   */
  lemma SelectionOnAxis(antenna: int, x1: int, y1: int, x2: int, y2: int)
    requires 0 <= antenna < 8
    ensures var p, d := SelectRoot(antenna, x1, y1, x2, y2), AxisDirection(antenna);
      p.x * d.1 - p.y * d.0 == 0
    ensures var p, d := SelectRoot(antenna, x1, y1, x2, y2), AxisDirection(antenna);
      var s := AxisSide(antenna);
      (if UsesY(antenna) then s * y1 > 0 || s * y2 > 0 else s * x1 > 0 || s * x2 > 0)
      ==> p.x * d.0 + p.y * d.1 > 0
  {
    var p := SelectRoot(antenna, x1, y1, x2, y2);
    var s := AxisSide(antenna);
    if UsesY(antenna) {
      var v := Prefer(y1, y2, s);
      assert p == Target(0, v);
    } else {
      var v := Prefer(x1, x2, s);
      assert p.x == v && p.y == YOfX(antenna, v);
    }
  }

  /**
   * The tail of solve_ellipse_system on the rounded roots (x1, y1) and
   * (x2, y2): the table's pick and round() of its radial distance minus the
   * antenna's position. The delta is within 1/2 of that difference and even
   * at a tie, which makes it the half-to-even rounding (RoundHalfEvenUnique).
   */
  function MeasureTail(antenna: int, pos: real, x1: int, y1: int, x2: int, y2: int, sqrt: real -> real): (s: Solution)
    ensures Target(s.x, s.y) == SelectRoot(antenna, x1, y1, x2, y2)
    ensures var v := sqrt((s.x * s.x + s.y * s.y) as real) - pos;
      -0.5 <= v - s.delta as real <= 0.5
    ensures var v := sqrt((s.x * s.x + s.y * s.y) as real) - pos;
      (v - s.delta as real == 0.5 || s.delta as real - v == 0.5) ==> s.delta % 2 == 0
  {
    var p := SelectRoot(antenna, x1, y1, x2, y2);
    Solution(p.x, p.y, RoundHalfEven(sqrt((p.x * p.x + p.y * p.y) as real) - pos))
  }

  /**
   * solve_ellipse_system for an antenna with number `antenna`, current
   * position `pos` and axis slope t = tan(angle): substitute the axis into
   * the ellipse, take np.roots of the quadratic, round, select, and return
   * the rounded radial delta.
   */
  function SolveEllipseSystem(antenna: int, pos: real, e: Ellipse, t: real,
                              npRoots: Quad -> seq<Complex>, sqrt: real -> real): (r: Result<Solution, SolveError>)
    ensures var xsol := npRoots(Coefficients(e, t));
      && (r == Failure(IndexError) <==> |xsol| < 2)
      && (r == Failure(ComplexSolutions) <==> |xsol| >= 2 && IsComplexArray(xsol))
      && (r.Success? <==> |xsol| >= 2 && !IsComplexArray(xsol))
    ensures r.Success? ==> var xsol := npRoots(Coefficients(e, t));
      r.value == MeasureTail(antenna, pos,
        RoundHalfEven(xsol[0].re), RoundHalfEven(t * xsol[0].re),
        RoundHalfEven(xsol[1].re), RoundHalfEven(t * xsol[1].re), sqrt)
  {
    var q := Coefficients(e, t);
    var xsol := npRoots(q);
    var sol :- CandidatePairs(xsol, t);
    if IsComplexArray(xsol) then Failure(ComplexSolutions)
    else
      var x1 := RoundHalfEven(sol[0].x.re);
      var y1 := RoundHalfEven(sol[0].y.re);
      var x2 := RoundHalfEven(sol[1].x.re);
      var y2 := RoundHalfEven(sol[1].y.re);
      Success(MeasureTail(antenna, pos, x1, y1, x2, y2, sqrt))
  }

  /**
   * Worked example: the ellipse 0.1 x^2 + 0.05 y^2 = 1 on antenna 2's axis
   * (t = 0) has roots -s and s with s*s = 10; the antenna gets the rounded
   * positive root 3 and y = 0.
   */
  lemma ExampleAntennaTwo(s: real, npRoots: Quad -> seq<Complex>, sqrt: real -> real, pos: real)
    requires s > 0.0 && s * s == 10.0
    requires npRoots(Quad(0.1, 0.0, -1.0)) == [Complex(-s, 0.0), Complex(s, 0.0)]
    ensures var r := SolveEllipseSystem(2, pos, Ellipse(0.1, 0.0, 0.05, 0.0, 0.0), 0.0, npRoots, sqrt);
      r.Success? && r.value.x == 3 && r.value.y == 0
  {
    var e := Ellipse(0.1, 0.0, 0.05, 0.0, 0.0);
    assert Coefficients(e, 0.0) == Quad(0.1, 0.0, -1.0);
    var lo, hi := s - 3.0, 3.5 - s;
    assert lo * (s + 3.0) == 1.0;
    PositiveFactor(lo, s + 3.0);
    assert hi * (3.5 + s) == 2.25;
    PositiveFactor(hi, 3.5 + s);
    assert RoundHalfEven(s) == 3;
    assert RoundHalfEven(-s) == -3;
    assert !IsComplexArray(npRoots(Coefficients(e, 0.0)));
  }

  /** The discriminant test of create_ellipse, as written (b^2 - 4ac although the form uses 2b). */
  predicate DiscriminantRejects(a: real, b: real, c: real)
  {
    b * b - 4.0 * a * c >= 0.0
  }

  /**
   * The test as written lets through a form that is not positive definite:
   * a = b = c = 1 passes although b^2 < ac fails, and on the axis of
   * antenna 3 (t = -1) both the quadratic and the linear coefficient vanish,
   * so np.roots returns no root and building `sol` raises IndexError.
   */
  lemma DiscriminantAdmitsDegenerateAxis(cx: real, cy: real)
    ensures var e := Ellipse(1.0, 1.0, 1.0, cx, cy);
      !DiscriminantRejects(e.a, e.b, e.c) && !(e.b * e.b < e.a * e.c)
    ensures var q := Coefficients(Ellipse(1.0, 1.0, 1.0, cx, cy), -1.0);
      q.p2 == 0.0 && q.p1 == 0.0
  {
  }

  /** What create_ellipse does with one antenna's delta. */
  datatype MoveDecision = MoveBack(distance: real) | AbortNegative(distance: real)

  /**
   * Clamp the delta to the home position, move it back if non-negative, move
   * zero if it lies in (-2, 0), otherwise abort.
   */
  function PostSolveDecision(delta: real, pos: real, outer: real): (d: MoveDecision)
    ensures var v := if delta < outer - pos then delta else outer - pos;
      && (d.AbortNegative? <==> v <= -2.0)
      && (d.AbortNegative? ==> d.distance == v)
      && (d.MoveBack? ==> d.distance == (if v > 0.0 then v else 0.0))
    ensures d.MoveBack? ==> 0.0 <= d.distance && (d.distance > 0.0 ==> pos + d.distance <= outer)
    ensures d.AbortNegative? <==> (delta <= -2.0 || outer - pos <= -2.0)
  {
    var distance := if delta + pos > outer then outer - pos else delta;
    if distance >= 0.0 then MoveBack(distance)
    else if 0.0 > distance > -2.0 then MoveBack(0.0)
    else AbortNegative(distance)
  }
}
