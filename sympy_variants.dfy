/**
 * The two alternative ellipse solvers kept beside the main one: the sympy
 * version of solve_ellipse_system (archive/solve_ellipse_sympy.py), which
 * hands the ellipse equation and the antenna's axis line to sympy.solve,
 * and the numpy substitute of testing_hardware/substitute_sympy.py, which
 * substitutes y = tan(angle) * x and calls np.roots.
 *
 * sympy.solve is a function parameter from the ellipse and the axis
 * direction (cos, sin) to the list of solution dicts it returns. A value is
 * modelled as either real or an instance of Python `complex`, so that the
 * isinstance tests of the sympy version can be stated; since both symbols
 * are declared real, sympy.solve itself only returns real sympy numbers, and
 * for those the tests are all false (RealSolutionsSkipComplexTests).
 */
module SympyVariants {
  import opened Wrappers
  import opened PyBuiltins
  import opened AxisSolver

  /** A value in a sympy solution dict. */
  datatype SymValue = Real(r: real) | PyComplex(re: real, im: real)

  /** One solution dict {x: ..., y: ...}. */
  datatype SymSolution = SymSolution(x: SymValue, y: SymValue)

  /** The left-hand side of the ellipse equation handed to sympy. */
  function EllipseEquation(e: Ellipse, x: real, y: real): real
  {
    EllipseForm(e, x, y) - 1.0
  }

  /** The driver equation: y*cos(theta) - x*sin(theta), zero on the antenna's axis line. */
  function DriverEquation(cos: real, sin: real, x: real, y: real): real
  {
    y * cos - x * sin
  }

  /** int(round(v)): half-even rounding of a real, TypeError on a complex. */
  function RoundValue(v: SymValue): (r: Result<int, SolveError>)
    ensures r.Success? <==> v.Real?
    ensures r.Failure? ==> r.error == RoundOfComplex
    ensures r.Success? ==> -0.5 <= v.r - r.value as real <= 0.5
    ensures r.Success? ==> (v.r - r.value as real == 0.5 || r.value as real - v.r == 0.5) ==> r.value % 2 == 0
  {
    if v.PyComplex? then Failure(RoundOfComplex) else Success(RoundHalfEven(v.r))
  }

  /**
   * The complex test as written: sol[0][y] is tested twice and sol[1][y]
   * not at all.
   */
  predicate ComplexAsWritten(sol: seq<SymSolution>)
    requires |sol| == 2
  {
    sol[0].x.PyComplex? || sol[1].x.PyComplex? || sol[0].y.PyComplex? || sol[0].y.PyComplex?
  }

  /** The test the four-way disjunction evidently means: every value of both solutions. */
  predicate AnyComplex(sol: seq<SymSolution>)
    requires |sol| == 2
  {
    sol[0].x.PyComplex? || sol[1].x.PyComplex? || sol[0].y.PyComplex? || sol[1].y.PyComplex?
  }

  /** The shared tail of both versions: round the four values, select, and compute the delta. */
  function SelectAndMeasure(antenna: int, pos: real, sol: seq<SymSolution>, sqrt: real -> real)
    : (r: Result<Solution, SolveError>)
    requires |sol| == 2
    ensures r.Success? <==> sol[0].x.Real? && sol[0].y.Real? && sol[1].x.Real? && sol[1].y.Real?
    ensures r.Failure? ==> r.error == RoundOfComplex
    ensures r.Success? ==>
      r.value == MeasureTail(antenna, pos,
        RoundHalfEven(sol[0].x.r), RoundHalfEven(sol[0].y.r),
        RoundHalfEven(sol[1].x.r), RoundHalfEven(sol[1].y.r), sqrt)
  {
    var x1 :- RoundValue(sol[0].x);
    var y1 :- RoundValue(sol[0].y);
    var x2 :- RoundValue(sol[1].x);
    var y2 :- RoundValue(sol[1].y);
    Success(MeasureTail(antenna, pos, x1, y1, x2, y2, sqrt))
  }

  /**
   * solve_ellipse_system, sympy version, for an antenna with number
   * `antenna`, axis direction (cos, sin) and current position `pos`.
   */
  function SolveEllipseSystemSympy(antenna: int, pos: real, e: Ellipse, cos: real, sin: real,
                                   solve: (Ellipse, real, real) -> seq<SymSolution>,
                                   sqrt: real -> real): (r: Result<Solution, SolveError>)
    ensures var sol := solve(e, cos, sin);
      r == Failure(WrongSolutionCount(|sol|)) <==> |sol| != 2
    ensures var sol := solve(e, cos, sin);
      r == Failure(ComplexSolutions) <==> |sol| == 2 && ComplexAsWritten(sol)
    ensures var sol := solve(e, cos, sin);
      |sol| == 2 && !ComplexAsWritten(sol) ==> r == SelectAndMeasure(antenna, pos, sol, sqrt)
  {
    var sol := solve(e, cos, sin);
    if |sol| != 2 then Failure(WrongSolutionCount(|sol|))
    else if ComplexAsWritten(sol) then Failure(ComplexSolutions)
    else SelectAndMeasure(antenna, pos, sol, sqrt)
  }

  /**
   * Because sol[1][y] is never inspected, a complex value there escapes the
   * complex check and reaches round(), which raises TypeError instead of
   * the intended 'Found Complex Solutions' exit.
   */
  lemma SecondYNeverInspected(antenna: int, pos: real, e: Ellipse, cos: real, sin: real,
                              solve: (Ellipse, real, real) -> seq<SymSolution>, sqrt: real -> real)
    requires |solve(e, cos, sin)| == 2
    requires var sol := solve(e, cos, sin);
      sol[0].x.Real? && sol[0].y.Real? && sol[1].x.Real? && sol[1].y.PyComplex?
    ensures var sol := solve(e, cos, sin); AnyComplex(sol) && !ComplexAsWritten(sol)
    ensures SolveEllipseSystemSympy(antenna, pos, e, cos, sin, solve, sqrt) == Failure(RoundOfComplex)
  {
  }

  /** The check over all four values: the corrected sympy version. */
  function SolveEllipseSystemSympyChecked(antenna: int, pos: real, e: Ellipse, cos: real, sin: real,
                                          solve: (Ellipse, real, real) -> seq<SymSolution>,
                                          sqrt: real -> real): (r: Result<Solution, SolveError>)
    ensures var sol := solve(e, cos, sin);
      r == Failure(WrongSolutionCount(|sol|)) <==> |sol| != 2
    ensures var sol := solve(e, cos, sin);
      r == Failure(ComplexSolutions) <==> |sol| == 2 && AnyComplex(sol)
    ensures r != Failure(RoundOfComplex)
  {
    var sol := solve(e, cos, sin);
    if |sol| != 2 then Failure(WrongSolutionCount(|sol|))
    else if AnyComplex(sol) then Failure(ComplexSolutions)
    else SelectAndMeasure(antenna, pos, sol, sqrt)
  }

  /** Every value of every solution is real, as sympy returns for symbols declared real. */
  predicate AllReal(sol: seq<SymSolution>)
  {
    forall i :: 0 <= i < |sol| ==> sol[i].x.Real? && sol[i].y.Real?
  }

  /**
   * With real solutions only, neither the complex exit nor the TypeError of
   * round() can happen: two solutions always reach the selection, so the
   * duplicated test is latent.
   */
  lemma RealSolutionsSkipComplexTests(antenna: int, pos: real, e: Ellipse, cos: real, sin: real,
                                      solve: (Ellipse, real, real) -> seq<SymSolution>, sqrt: real -> real)
    requires AllReal(solve(e, cos, sin))
    ensures var r := SolveEllipseSystemSympy(antenna, pos, e, cos, sin, solve, sqrt);
      r != Failure(ComplexSolutions) && r != Failure(RoundOfComplex)
    ensures |solve(e, cos, sin)| == 2 ==> SolveEllipseSystemSympy(antenna, pos, e, cos, sin, solve, sqrt).Success?
  {
    var sol := solve(e, cos, sin);
    if |sol| == 2 {
      assert sol[0].x.Real? && sol[0].y.Real? && sol[1].x.Real? && sol[1].y.Real?;
    }
  }

  /** Where the solver returns no complex value, both checks agree. */
  lemma CheckedAgreesWithoutComplex(antenna: int, pos: real, e: Ellipse, cos: real, sin: real,
                                    solve: (Ellipse, real, real) -> seq<SymSolution>, sqrt: real -> real)
    requires var sol := solve(e, cos, sin); |sol| != 2 || !AnyComplex(sol)
    ensures SolveEllipseSystemSympyChecked(antenna, pos, e, cos, sin, solve, sqrt)
      == SolveEllipseSystemSympy(antenna, pos, e, cos, sin, solve, sqrt)
  {
  }

  // ---------------------------------------------------------------------
  // The numpy substitute

  /** get_angle of the testing script: the angle table indexed directly, with Python's negative indexing. */
  function GetAngle(k: int): (r: Result<int, SolveError>)
    ensures r.Success? <==> -8 <= k < 8
    ensures r.Failure? ==> r.error == IndexError
    ensures r.Success? ==> r.value == (90 - 45 * k) % 360
  {
    var angles := [90, 45, 0, 315, 270, 225, 180, 135];
    if 0 <= k < 8 then Success(angles[k])
    else if -8 <= k < 0 then Success(angles[8 + k])
    else Failure(IndexError)
  }

  /** The coefficients of solve_ell_numpy, statement by statement. */
  function SubstituteCoefficients(e: Ellipse, t: real): Quad
  {
    var cp2 := e.a + 2.0 * e.b * t + e.c * t * t;
    var cp1a := e.a * e.cx + e.b * (e.cx * t + e.cy);
    var cp1b := cp1a + e.c * e.cy * t;
    var cp1 := cp1b * -2.0;
    var cp0a := e.a * e.cx * e.cx;
    var cp0b := cp0a + 2.0 * e.b * e.cx * e.cy;
    var cp0 := cp0b + (e.c * e.cy * e.cy - 1.0);
    Quad(cp2, cp1, cp0)
  }

  /** The testing script's quadratic is the main solver's. */
  lemma SubstituteMatchesMain(e: Ellipse, t: real)
    ensures SubstituteCoefficients(e, t) == Coefficients(e, t)
  {
  }

  /** solve_ell_numpy: the two root pairs (xsol[i], xsol[i] * tanth). */
  function SolveEllNumpy(e: Ellipse, t: real, npRoots: Quad -> seq<Complex>): (r: Result<seq<Candidate>, SolveError>)
    ensures r.Success? <==> |npRoots(SubstituteCoefficients(e, t))| >= 2
    ensures r.Success? ==> |r.value| == 2
    ensures r.Success? ==> forall i :: 0 <= i < 2 ==>
      r.value[i].x == npRoots(SubstituteCoefficients(e, t))[i] && r.value[i].y == Times(r.value[i].x, t)
  {
    CandidatePairs(npRoots(SubstituteCoefficients(e, t)), t)
  }

  lemma {:induction false} DivisionTimes(sin: real, cos: real)
    requires cos != 0.0
    ensures (sin / cos) * cos == sin
  {
  }

  /**
   * When cos(theta) != 0 the driver equation y*cos - x*sin = 0 holds exactly
   * on the line y = (sin/cos) * x, so the sympy and numpy versions intersect
   * the ellipse with the same line.
   */
  lemma {:induction false} LineFormEquivalence(cos: real, sin: real, x: real, y: real)
    requires cos != 0.0
    ensures DriverEquation(cos, sin, x, y) == 0.0 <==> y == (sin / cos) * x
  {
    var t := sin / cos;
    DivisionTimes(sin, cos);
    assert t * x * cos == x * sin by {
      assert t * x * cos == x * (t * cos);
    }
    if y * cos == x * sin {
      assert (y - t * x) * cos == 0.0;
      assert y - t * x == 0.0;
    }
  }

  /**
   * With t = sin/cos, every real root of the numpy quadratic gives a point
   * that satisfies both equations of the sympy system, and every solution
   * of the sympy system is such a root.
   */
  lemma RootsSolveSympySystem(e: Ellipse, cos: real, sin: real, x: real)
    requires cos != 0.0
    ensures var t := sin / cos;
      Eval(SubstituteCoefficients(e, t), x) == 0.0 <==>
        (EllipseEquation(e, x, t * x) == 0.0 && DriverEquation(cos, sin, x, t * x) == 0.0)
  {
    var t := sin / cos;
    SubstituteMatchesMain(e, t);
    RootIffOnEllipse(e, t, x);
    LineFormEquivalence(cos, sin, x, t * x);
  }

  /**
   * Fed the real numpy roots as its two solutions, the sympy version selects
   * the same point and returns the same triple as the main solver.
   */
  lemma SympyAgreesWithNumpy(antenna: int, pos: real, e: Ellipse, cos: real, sin: real,
                             npRoots: Quad -> seq<Complex>,
                             solve: (Ellipse, real, real) -> seq<SymSolution>, sqrt: real -> real)
    requires cos != 0.0
    requires var xsol := npRoots(Coefficients(e, sin / cos));
      |xsol| >= 2 && !IsComplexArray(xsol)
    requires var xsol, t := npRoots(Coefficients(e, sin / cos)), sin / cos;
      solve(e, cos, sin) == [SymSolution(Real(xsol[0].re), Real(t * xsol[0].re)),
                             SymSolution(Real(xsol[1].re), Real(t * xsol[1].re))]
    ensures SolveEllipseSystemSympy(antenna, pos, e, cos, sin, solve, sqrt)
      == SolveEllipseSystem(antenna, pos, e, sin / cos, npRoots, sqrt)
  {
  }
}
