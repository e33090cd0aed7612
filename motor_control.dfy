/**
 * Position bookkeeping of MotorControl: the antenna numbering built from the
 * kit addresses and stepper ids, the mm/step conversions, the one-step
 * position updates, the clamped forward/backward moves, and the circle and
 * ellipse planning of create_circle/create_ellipse.
 *
 * Stepper pulses, GPIO switch readings, pauses and prints are not modelled:
 * a step only updates the bookkept position, and the head switch is taken to
 * stay released during a move (the switch handling is homing logic). The
 * (cos, sin) of each antenna angle is a Direction in the table `trig`, indexed
 * by antenna number and built from h = cos 45 degrees.
 */
module Motors {
  import opened Wrappers
  import opened PyBuiltins
  import opened MotorConfig
  import opened Util
  import opened AxisSolver

  // ---------------------------------------------------------------------
  // Unit conversions (one revolution = 200 steps = 8 mm of lead screw)

  /** _steps2dist: 8 * steps / 200 mm. */
  function Steps2Dist(steps: int): real
  {
    8.0 * steps as real / 200.0
  }

  /** _dist2steps: int(200 * distance / 8), truncated toward zero. */
  function Dist2Steps(distance: real): (steps: int)
    ensures 0.0 <= distance ==> 0 <= steps && Steps2Dist(steps) <= distance < Steps2Dist(steps + 1)
    ensures distance < 0.0 ==> steps <= 0 && Steps2Dist(steps - 1) < distance <= Steps2Dist(steps)
  {
    Trunc(200.0 * distance / 8.0)
  }

  /** Converting a whole number of steps to mm and back gives the same steps. */
  lemma StepsRoundTrip(steps: int)
    ensures Dist2Steps(Steps2Dist(steps)) == steps
  {
    assert 200.0 * Steps2Dist(steps) / 8.0 == steps as real;
  }

  /** The documented examples: 10 mm is 250 steps, 500 steps are 20 mm. */
  lemma ConversionExamples()
    ensures Dist2Steps(10.0) == 250
    ensures Steps2Dist(500) == 20.0
    ensures Steps2Dist(1) == 0.04
  {
    assert 200.0 * 10.0 / 8.0 == 250.0;
  }

  /** The number of iterations of `for _ in range(self._dist2steps(distance))`. */
  function StepCount(distance: real): (n: nat)
    ensures n == 0 <==> distance < Steps2Dist(1)
    ensures 0.0 <= distance ==> Steps2Dist(n) <= distance < Steps2Dist(n) + Steps2Dist(1)
  {
    var s := Dist2Steps(distance);
    if s < 0 then 0 else s
  }

  // ---------------------------------------------------------------------
  // Move clamps

  /** move_forward's cap: shorten the distance so that the antenna stops at its inner limit. */
  function ClampForward(pos: real, inner: real, distance: real): (r: real)
    ensures r <= distance && pos - r >= inner
    ensures r == distance <==> pos - distance >= inner
    ensures r != distance ==> pos - r == inner
  {
    if pos - distance < inner then pos - inner else distance
  }

  /** move_backward's cap: shorten the distance so that the antenna stops at its home position. */
  function ClampBackward(pos: real, outer: real, distance: real): (r: real)
    ensures r <= distance && pos + r <= outer
    ensures r == distance <==> pos + distance <= outer
    ensures r != distance ==> pos + r == outer
  {
    if pos + distance > outer then outer - pos else distance
  }

  /** Position after stepping `distance` (clamped) towards the head. */
  function ForwardOne(pos: real, inner: real, distance: real): real
  {
    pos - Steps2Dist(StepCount(ClampForward(pos, inner, distance)))
  }

  /** Position after stepping `distance` (clamped) away from the head. */
  function BackwardOne(pos: real, outer: real, distance: real): real
  {
    pos + Steps2Dist(StepCount(ClampBackward(pos, outer, distance)))
  }

  /**
   * A forward move never moves away from the head, never passes the inner
   * limit from a position at or outside it, and covers the requested
   * distance to within one step when no clamp applies.
   */
  lemma ForwardOneBounds(pos: real, inner: real, distance: real)
    ensures ForwardOne(pos, inner, distance) <= pos
    ensures pos >= inner ==> ForwardOne(pos, inner, distance) >= inner
    ensures 0.0 <= distance && pos - distance >= inner ==>
      pos - distance <= ForwardOne(pos, inner, distance) < pos - distance + Steps2Dist(1)
  {
  }

  /**
   * A backward move never moves towards the head, never passes the home
   * position from a position at or inside it, and covers the requested
   * distance to within one step when no clamp applies.
   */
  lemma BackwardOneBounds(pos: real, outer: real, distance: real)
    ensures BackwardOne(pos, outer, distance) >= pos
    ensures pos <= outer ==> BackwardOne(pos, outer, distance) <= outer
    ensures 0.0 <= distance && pos + distance <= outer ==>
      pos + distance - Steps2Dist(1) < BackwardOne(pos, outer, distance) <= pos + distance
  {
  }

  predicate NumbersValid(nums: seq<int>)
  {
    forall i :: 0 <= i < |nums| ==> 0 <= nums[i] < NumAntennas
  }

  /**
   * move_forward over motors lo..hi-1 in order. The clamped distance replaces
   * `distance` itself, so a clamp carries over to the motors that follow.
   */
  function ForwardPlan(pos: seq<real>, nums: seq<int>, lo: int, hi: int, distance: real): (r: seq<real>)
    requires |pos| == |nums| && NumbersValid(nums) && 0 <= lo && hi <= |pos|
    ensures |r| == |pos|
    decreases hi - lo
  {
    if lo >= hi then pos
    else
      var d := ClampForward(pos[lo], InnerDist[nums[lo]], distance);
      ForwardPlan(pos[lo := ForwardOne(pos[lo], InnerDist[nums[lo]], distance)], nums, lo + 1, hi, d)
  }

  /** The distance move_forward holds when it reaches motor k. */
  function CarriedDistance(pos: seq<real>, nums: seq<int>, lo: int, k: int, distance: real): real
    requires |pos| == |nums| && NumbersValid(nums) && 0 <= lo && k <= |pos|
    decreases k - lo
  {
    if lo >= k then distance
    else CarriedDistance(pos, nums, lo + 1, k, ClampForward(pos[lo], InnerDist[nums[lo]], distance))
  }

  /**
   * Every motor in lo..hi-1 ends where ForwardOne takes it from its own start
   * with the carried distance; motors outside the range are untouched; the
   * carried distance never grows.
   */
  lemma {:induction false} ForwardPlanEffect(pos: seq<real>, nums: seq<int>, lo: int, hi: int, distance: real, i: int)
    requires |pos| == |nums| && NumbersValid(nums) && 0 <= lo && hi <= |pos| && 0 <= i < |pos|
    ensures lo <= i < hi ==> (ForwardPlan(pos, nums, lo, hi, distance)[i]
      == ForwardOne(pos[i], InnerDist[nums[i]], CarriedDistance(pos, nums, lo, i, distance)))
    ensures !(lo <= i < hi) ==> ForwardPlan(pos, nums, lo, hi, distance)[i] == pos[i]
    ensures lo <= i ==> CarriedDistance(pos, nums, lo, i, distance) <= distance
    decreases hi - lo
  {
    if lo < hi {
      var d := ClampForward(pos[lo], InnerDist[nums[lo]], distance);
      var pos' := pos[lo := ForwardOne(pos[lo], InnerDist[nums[lo]], distance)];
      ForwardPlanEffect(pos', nums, lo + 1, hi, d, i);
      if lo < i {
        CarriedFromUntouched(pos, pos', nums, lo + 1, i, d);
      }
    } else if lo <= i {
      CarriedBound(pos, nums, lo, i, distance);
    }
  }

  lemma {:induction false} CarriedBound(pos: seq<real>, nums: seq<int>, lo: int, k: int, distance: real)
    requires |pos| == |nums| && NumbersValid(nums) && 0 <= lo && k <= |pos|
    ensures CarriedDistance(pos, nums, lo, k, distance) <= distance
    decreases k - lo
  {
    if lo < k {
      CarriedBound(pos, nums, lo + 1, k, ClampForward(pos[lo], InnerDist[nums[lo]], distance));
    }
  }

  /** The carried distance only reads positions lo..k-1. */
  lemma {:induction false} CarriedFromUntouched(pos: seq<real>, pos': seq<real>, nums: seq<int>, lo: int, k: int, distance: real)
    requires |pos| == |pos'| == |nums| && NumbersValid(nums) && 1 <= lo && k <= |pos|
    requires forall j :: lo <= j < |pos| ==> pos[j] == pos'[j]
    ensures CarriedDistance(pos, nums, lo, k, distance) == CarriedDistance(pos', nums, lo, k, distance)
    decreases k - lo
  {
    if lo < k {
      CarriedFromUntouched(pos, pos', nums, lo + 1, k, ClampForward(pos[lo], InnerDist[nums[lo]], distance));
    }
  }

  /**
   * The carry-over: with antenna 3 at 80 mm (inner limit 60) and antenna 0 at
   * its home 110.5 mm (inner limit 70.5), moving both forward by 45 mm clamps
   * the first move to 20 mm, and the second antenna then also moves only
   * 20 mm although it had 40 mm of travel.
   */
  lemma ForwardCarryExample()
    ensures ForwardPlan([80.0, 110.5], [3, 0], 0, 2, 45.0) == [60.0, 90.5]
  {
    assert ClampForward(80.0, InnerDist[3], 45.0) == 20.0;
    assert Dist2Steps(20.0) == 500;
    assert ForwardOne(80.0, InnerDist[3], 45.0) == 60.0;
    assert ClampForward(110.5, InnerDist[0], 20.0) == 20.0;
    assert ForwardOne(110.5, InnerDist[0], 20.0) == 90.5;
  }

  /** move_backward over motors lo..hi-1: each motor clamps its own copy of `distance`. */
  function BackwardPlan(pos: seq<real>, nums: seq<int>, lo: int, hi: int, distance: real): (r: seq<real>)
    requires |pos| == |nums| && NumbersValid(nums) && 0 <= lo && hi <= |pos|
    ensures |r| == |pos|
    decreases hi - lo
  {
    if lo >= hi then pos
    else BackwardPlan(pos[lo := BackwardOne(pos[lo], OuterDist[nums[lo]], distance)], nums, lo + 1, hi, distance)
  }

  /** Every motor in lo..hi-1 makes its own clamped backward move; the others are untouched. */
  lemma {:induction false} BackwardPlanEffect(pos: seq<real>, nums: seq<int>, lo: int, hi: int, distance: real, i: int)
    requires |pos| == |nums| && NumbersValid(nums) && 0 <= lo && hi <= |pos| && 0 <= i < |pos|
    ensures lo <= i < hi ==> (BackwardPlan(pos, nums, lo, hi, distance)[i]
      == BackwardOne(pos[i], OuterDist[nums[i]], distance))
    ensures !(lo <= i < hi) ==> BackwardPlan(pos, nums, lo, hi, distance)[i] == pos[i]
    decreases hi - lo
  {
    if lo < hi {
      BackwardPlanEffect(pos[lo := BackwardOne(pos[lo], OuterDist[nums[lo]], distance)], nums, lo + 1, hi, distance, i);
    }
  }

  /** move_backward of a single motor k. */
  lemma BackwardPlanSingle(pos: seq<real>, nums: seq<int>, k: int, distance: real)
    requires |pos| == |nums| && NumbersValid(nums) && 0 <= k < |pos|
    ensures BackwardPlan(pos, nums, k, k + 1, distance) == pos[k := BackwardOne(pos[k], OuterDist[nums[k]], distance)]
  {
  }

  // ---------------------------------------------------------------------
  // Circle planning

  /** What create_circle does after the antennas are set on the head. */
  datatype CircleOutcome =
    | NoMotors             // max() of an empty position list raises ValueError
    | OutOfReach           // 'CANNOT CREATE CIRCLE', nothing moves
    | Circle(target: real) // every antenna moves back to `target`

  function CircleTarget(pos: seq<real>, distanceFromHead: real): (r: CircleOutcome)
    ensures r == NoMotors <==> |pos| == 0
    ensures r == OutOfReach <==> |pos| > 0 && Max(pos) > MinOuter()
    ensures r.Circle? ==> (|pos| > 0 && Max(pos) <= MinOuter()
      && r.target <= MinOuter()
      && r.target == (if Max(pos) + distanceFromHead > MinOuter() then MinOuter() else Max(pos) + distanceFromHead))
  {
    if |pos| == 0 then NoMotors
    else if Max(pos) > MinOuter() then OutOfReach
    else
      var target := Max(pos) + distanceFromHead;
      Circle(if target > MinOuter() then MinOuter() else target)
  }

  /** Each motor k moves backward by target - pos[k], read before the motor moves. */
  function CirclePlan(pos: seq<real>, nums: seq<int>, lo: int, target: real): (r: seq<real>)
    requires |pos| == |nums| && NumbersValid(nums) && 0 <= lo <= |pos|
    ensures |r| == |pos|
    decreases |pos| - lo
  {
    if lo == |pos| then pos
    else CirclePlan(pos[lo := BackwardOne(pos[lo], OuterDist[nums[lo]], target - pos[lo])], nums, lo + 1, target)
  }

  lemma {:induction false} CirclePlanAt(pos: seq<real>, nums: seq<int>, lo: int, target: real, i: int)
    requires |pos| == |nums| && NumbersValid(nums) && 0 <= lo <= |pos| && 0 <= i < |pos|
    ensures CirclePlan(pos, nums, lo, target)[i]
      == if lo <= i then BackwardOne(pos[i], OuterDist[nums[i]], target - pos[i]) else pos[i]
    decreases |pos| - lo
  {
    if lo < |pos| {
      CirclePlanAt(pos[lo := BackwardOne(pos[lo], OuterDist[nums[lo]], target - pos[lo])], nums, lo + 1, target, i);
    }
  }

  /**
   * For d >= 0 every commanded distance target - pos[k] lies in
   * [0, OuterDist - pos[k]], so no clamp applies, and every antenna ends
   * within one step short of the common target.
   */
  lemma CircleWithinLimits(pos: seq<real>, nums: seq<int>, distanceFromHead: real, k: int)
    requires |pos| == |nums| && NumbersValid(nums) && 0 <= k < |pos|
    requires distanceFromHead >= 0.0 && CircleTarget(pos, distanceFromHead).Circle?
    ensures var t := CircleTarget(pos, distanceFromHead).target;
      0.0 <= t - pos[k] <= OuterDist[nums[k]] - pos[k]
    ensures var t := CircleTarget(pos, distanceFromHead).target;
      t - Steps2Dist(1) < CirclePlan(pos, nums, 0, t)[k] <= t
  {
    var t := CircleTarget(pos, distanceFromHead).target;
    assert pos[k] <= Max(pos);
    assert MinOuter() <= OuterDist[nums[k]];
    CirclePlanAt(pos, nums, 0, t, k);
    BackwardOneBounds(pos[k], OuterDist[nums[k]], t - pos[k]);
  }

  // ---------------------------------------------------------------------
  // Ellipse planning

  /** How create_ellipse ends. */
  datatype EllipseOutcome =
    | TooFewPoints                      // 'Cannot Compute Ellipse from only 2 points'
    | NotAnEllipse                      // b^2 - 4ac >= 0: exit before any solve
    | SolveFailed(motor: int, why: SolveError) // exit inside solve_ellipse_system
    | NegativeMove(motor: int, distance: real) // 'Cannot move NEGATIVE distance'
    | EllipseDone(xs: seq<int>, ys: seq<int>)  // every antenna moved onto the ellipse

  /** The fitted ellipse and the primitives solve_ellipse_system relies on. */
  datatype Fit = Fit(e: Ellipse, tans: seq<real>, npRoots: Quad -> seq<Complex>, sqrt: real -> real)

  /**
   * solve_ellipse_system for motor j at position x: its antenna number and
   * axis slope; IndexError for a motor the numbering does not have.
   */
  function SolveFor(nums: seq<int>, fit: Fit, x: real, j: int): Result<Solution, SolveError>
  {
    if NumbersValid(nums) && |fit.tans| == NumAntennas && 0 <= j < |nums| then
      SolveEllipseSystem(nums[j], x, fit.e, fit.tans[nums[j]], fit.npRoots, fit.sqrt)
    else Failure(IndexError)
  }

  /** The home distance of every motor. */
  function Outers(nums: seq<int>): (r: seq<real>)
    requires NumbersValid(nums)
    ensures |r| == |nums| && forall k :: 0 <= k < |nums| ==> r[k] == OuterDist[nums[k]]
  {
    seq(|nums|, k requires 0 <= k < |nums| => OuterDist[nums[k]])
  }

  /**
   * The per-motor loop of create_ellipse from motor k on, for a solver
   * solve(x, j) of motor j at position x and the home distances `outer`:
   * `pos` holds the positions after the motors before k have moved, xs/ys
   * the points found so far.
   */
  function LoopWith(pos: seq<real>, outer: seq<real>, solve: (real, int) -> Result<Solution, SolveError>,
                    k: int, xs: seq<int>, ys: seq<int>): (r: (EllipseOutcome, seq<real>))
    requires |outer| == |pos| && 0 <= k <= |pos|
    ensures |r.1| == |pos|
    decreases |pos| - k
  {
    if k == |pos| then (EllipseDone(xs, ys), pos)
    else match solve(pos[k], k)
      case Failure(why) => (SolveFailed(k, why), pos)
      case Success(s) =>
        match PostSolveDecision(s.delta as real, pos[k], outer[k])
        case AbortNegative(d) => (NegativeMove(k, d), pos)
        case MoveBack(d) =>
          LoopWith(pos[k := BackwardOne(pos[k], outer[k], d)], outer, solve, k + 1, xs + [s.x], ys + [s.y])
  }

  /** The per-motor loop of create_ellipse with solve_ellipse_system as the solver. */
  function EllipseLoop(pos: seq<real>, nums: seq<int>, fit: Fit, k: int, xs: seq<int>, ys: seq<int>)
    : (r: (EllipseOutcome, seq<real>))
    requires |pos| == |nums| && NumbersValid(nums) && 0 <= k <= |pos|
    ensures |r.1| == |pos|
  {
    LoopWith(pos, Outers(nums), (x, j) => SolveFor(nums, fit, x, j), k, xs, ys)
  }

  /**
   * create_ellipse after the antennas are set on the head: move every antenna
   * back by distanceFromHead, stop for exactly two motors, fit, test the
   * discriminant, then solve and move motor by motor.
   */
  function EllipsePlan(pos: seq<real>, nums: seq<int>, distanceFromHead: real, fit: Fit)
    : (r: (EllipseOutcome, seq<real>))
    requires |pos| == |nums| && NumbersValid(nums) && |fit.tans| == NumAntennas
    ensures |r.1| == |pos|
    ensures r.0 == TooFewPoints <==> |pos| == 2
    ensures r.0 == NotAnEllipse <==> |pos| != 2 && DiscriminantRejects(fit.e.a, fit.e.b, fit.e.c)
    ensures r.0 == TooFewPoints || r.0 == NotAnEllipse ==>
      r.1 == BackwardPlan(pos, nums, 0, |pos|, distanceFromHead)
  {
    var moved := BackwardPlan(pos, nums, 0, |pos|, distanceFromHead);
    if |pos| == 2 then (TooFewPoints, moved)
    else if DiscriminantRejects(fit.e.a, fit.e.b, fit.e.c) then (NotAnEllipse, moved)
    else
      EllipseLoopOutcome(moved, nums, fit, 0, [], []);
      EllipseLoop(moved, nums, fit, 0, [], [])
  }

  /** The loop never ends in TooFewPoints or NotAnEllipse. */
  lemma {:induction false} LoopWithOutcome(pos: seq<real>, outer: seq<real>, solve: (real, int) -> Result<Solution, SolveError>,
                                           k: int, xs: seq<int>, ys: seq<int>)
    requires |outer| == |pos| && 0 <= k <= |pos|
    ensures var r := LoopWith(pos, outer, solve, k, xs, ys).0;
      r != TooFewPoints && r != NotAnEllipse
    decreases |pos| - k
  {
    if k < |pos| {
      match solve(pos[k], k)
      case Failure(_) =>
      case Success(s) =>
        match PostSolveDecision(s.delta as real, pos[k], outer[k])
        case AbortNegative(_) =>
        case MoveBack(d) =>
          LoopWithOutcome(pos[k := BackwardOne(pos[k], outer[k], d)], outer, solve, k + 1, xs + [s.x], ys + [s.y]);
    }
  }

  /** The loop keeps antenna i between its position before the loop and its home. */
  lemma {:induction false} LoopWithBounds(pos: seq<real>, outer: seq<real>, solve: (real, int) -> Result<Solution, SolveError>,
                                          k: int, xs: seq<int>, ys: seq<int>, i: int)
    requires |outer| == |pos| && 0 <= k <= |pos|
    requires 0 <= i < |pos| && pos[i] <= outer[i]
    ensures var r := LoopWith(pos, outer, solve, k, xs, ys);
      pos[i] <= r.1[i] <= outer[i]
    decreases |pos| - k
  {
    if k < |pos| {
      match solve(pos[k], k)
      case Failure(_) =>
      case Success(s) =>
        match PostSolveDecision(s.delta as real, pos[k], outer[k])
        case AbortNegative(_) =>
        case MoveBack(d) =>
          BackwardOneBounds(pos[k], outer[k], d);
          LoopWithBounds(pos[k := BackwardOne(pos[k], outer[k], d)], outer, solve, k + 1, xs + [s.x], ys + [s.y], i);
    }
  }

  /**
   * The loop leaves the motors before k where they are, and when it
   * completes, one point was recorded per motor and every solve from motor k
   * on succeeded.
   */
  lemma {:induction false} LoopWithComplete(pos: seq<real>, outer: seq<real>, solve: (real, int) -> Result<Solution, SolveError>,
                                            k: int, xs: seq<int>, ys: seq<int>, i: int)
    requires |outer| == |pos| && 0 <= k <= |pos| && 0 <= i < |pos|
    ensures var r := LoopWith(pos, outer, solve, k, xs, ys);
      i < k ==> r.1[i] == pos[i]
    ensures var r := LoopWith(pos, outer, solve, k, xs, ys);
      r.0.EllipseDone? ==> (|r.0.xs| == |xs| + |pos| - k && |r.0.ys| == |ys| + |pos| - k
        && (k <= i ==> solve(pos[i], i).Success?))
    decreases |pos| - k
  {
    if k < |pos| {
      match solve(pos[k], k)
      case Failure(_) =>
      case Success(s) =>
        match PostSolveDecision(s.delta as real, pos[k], outer[k])
        case AbortNegative(_) =>
        case MoveBack(d) =>
          LoopWithComplete(pos[k := BackwardOne(pos[k], outer[k], d)], outer, solve, k + 1, xs + [s.x], ys + [s.y], i);
    }
  }

  /** The loop never ends in TooFewPoints or NotAnEllipse. */
  lemma EllipseLoopOutcome(pos: seq<real>, nums: seq<int>, fit: Fit, k: int, xs: seq<int>, ys: seq<int>)
    requires |pos| == |nums| && NumbersValid(nums) && 0 <= k <= |pos|
    ensures var r := EllipseLoop(pos, nums, fit, k, xs, ys).0;
      r != TooFewPoints && r != NotAnEllipse
  {
    LoopWithOutcome(pos, Outers(nums), (x, j) => SolveFor(nums, fit, x, j), k, xs, ys);
  }

  /**
   * The loop keeps every antenna between its position before the loop and its
   * home position, and leaves the motors before k alone; when it completes,
   * every antenna's solve succeeded and one point per motor was recorded.
   */
  lemma EllipseLoopSafe(pos: seq<real>, nums: seq<int>, fit: Fit, k: int, xs: seq<int>, ys: seq<int>, i: int)
    requires |pos| == |nums| && NumbersValid(nums) && 0 <= k <= |pos|
    requires 0 <= i < |pos| && pos[i] <= OuterDist[nums[i]]
    ensures var r := EllipseLoop(pos, nums, fit, k, xs, ys);
      pos[i] <= r.1[i] <= OuterDist[nums[i]]
    ensures var r := EllipseLoop(pos, nums, fit, k, xs, ys);
      i < k ==> r.1[i] == pos[i]
    ensures var r := EllipseLoop(pos, nums, fit, k, xs, ys);
      r.0.EllipseDone? ==> (|r.0.xs| == |xs| + |pos| - k && |r.0.ys| == |ys| + |pos| - k
        && (k <= i ==> SolveFor(nums, fit, pos[i], i).Success?))
  {
    var solve := (x, j) => SolveFor(nums, fit, x, j);
    LoopWithBounds(pos, Outers(nums), solve, k, xs, ys, i);
    LoopWithComplete(pos, Outers(nums), solve, k, xs, ys, i);
  }

  // ---------------------------------------------------------------------
  // Antenna numbering

  /** A motor: the index of its kit in the address list and its stepper (0 or 1). */
  datatype MotorId = MotorId(kit: int, stepper: int)

  const DefaultKitAddress: seq<int> := [0x60, 0x61, 0x62, 0x63]

  const DefaultMotorId: seq<MotorId> :=
    [MotorId(0, 0), MotorId(0, 1), MotorId(1, 0), MotorId(1, 1),
     MotorId(2, 0), MotorId(2, 1), MotorId(3, 0), MotorId(3, 1)]

  /** Which pair of antennas a kit drives: 0x60, 0x61, 0x62, and any other address. */
  function KitRank(address: int): (r: int)
    ensures 0 <= r < 4
  {
    match address
    case 0x60 => 0
    case 0x61 => 1
    case 0x62 => 2
    case _ => 3
  }

  /** The numbering branch of __init__ for one motor. */
  function AntennaNumber(address: int, stepper: int): (n: int)
    ensures 0 <= n < NumAntennas
    ensures n / 2 == KitRank(address)
    ensures n % 2 == 0 <==> stepper == 0
  {
    if address == 0x60 then (if stepper == 0 then 0 else 1)
    else if address == 0x61 then (if stepper == 0 then 2 else 3)
    else if address == 0x62 then (if stepper == 0 then 4 else 5)
    else (if stepper == 0 then 6 else 7)
  }

  /** A kit index Python accepts for the list `kits`: negative indices count from the end. */
  predicate KitIndexOk(kits: seq<int>, k: int)
  {
    -|kits| <= k < |kits|
  }

  /** kit_address[k] with Python's indexing. */
  function KitAt(kits: seq<int>, k: int): (a: int)
    requires KitIndexOk(kits, k)
    ensures 0 <= k ==> a == kits[k]
    ensures k < 0 ==> a == kits[|kits| + k]
  {
    if k < 0 then kits[|kits| + k] else kits[k]
  }

  predicate KitsValid(kits: seq<int>, ids: seq<MotorId>)
  {
    forall i :: 0 <= i < |ids| ==> KitIndexOk(kits, ids[i].kit)
  }

  function Numbering(kits: seq<int>, ids: seq<MotorId>): (nums: seq<int>)
    requires KitsValid(kits, ids)
    ensures |nums| == |ids| && NumbersValid(nums)
    ensures forall i :: 0 <= i < |ids| ==> nums[i] == AntennaNumber(KitAt(kits, ids[i].kit), ids[i].stepper)
  {
    seq(|ids|, i requires 0 <= i < |ids| => AntennaNumber(KitAt(kits, ids[i].kit), ids[i].stepper))
  }

  /** Why __init__ raises: the kit index of motor `motor` is outside the address list. */
  datatype InitError = KitIndexError(motor: nat)

  /** The first motor from `from` on whose kit index Python rejects, or |ids| if none. */
  function FirstBadKit(kits: seq<int>, ids: seq<MotorId>, from: nat): (m: nat)
    requires from <= |ids|
    ensures from <= m <= |ids|
    ensures forall i :: from <= i < m ==> KitIndexOk(kits, ids[i].kit)
    ensures m < |ids| ==> !KitIndexOk(kits, ids[m].kit)
    decreases |ids| - from
  {
    if from == |ids| || !KitIndexOk(kits, ids[from].kit) then from
    else FirstBadKit(kits, ids, from + 1)
  }

  /**
   * The numbering loop of __init__: IndexError at the first motor whose kit
   * index is outside the address list, otherwise the antenna numbers.
   */
  function NumberingResult(kits: seq<int>, ids: seq<MotorId>): (r: Result<seq<int>, InitError>)
    ensures r.Success? <==> KitsValid(kits, ids)
    ensures r.Failure? ==> (var m := r.error.motor;
      m < |ids| && !KitIndexOk(kits, ids[m].kit) && forall i :: 0 <= i < m ==> KitIndexOk(kits, ids[i].kit))
    ensures r.Success? ==> r.value == Numbering(kits, ids)
  {
    var m := FirstBadKit(kits, ids, 0);
    if m < |ids| then Failure(KitIndexError(m)) else Success(Numbering(kits, ids))
  }

  /** A negative kit index names the same kit as its non-negative counterpart. */
  lemma NegativeKitIndexWraps(kits: seq<int>, ids: seq<MotorId>, i: int)
    requires 0 <= i < |ids| && 0 <= ids[i].kit < |kits|
    ensures var w := ids[i := MotorId(ids[i].kit - |kits|, ids[i].stepper)];
      KitsValid(kits, ids) <==> KitsValid(kits, w)
    ensures var w := ids[i := MotorId(ids[i].kit - |kits|, ids[i].stepper)];
      KitsValid(kits, ids) ==> Numbering(kits, w) == Numbering(kits, ids)
  {
    var w := ids[i := MotorId(ids[i].kit - |kits|, ids[i].stepper)];
    assert forall j :: 0 <= j < |ids| ==> KitIndexOk(kits, ids[j].kit) == KitIndexOk(kits, w[j].kit);
    if KitsValid(kits, ids) {
      assert forall j :: 0 <= j < |ids| ==> KitAt(kits, w[j].kit) == KitAt(kits, ids[j].kit);
    }
  }

  /** The default wiring numbers the motors 0..7 in order. */
  lemma DefaultNumbering()
    ensures KitsValid(DefaultKitAddress, DefaultMotorId)
    ensures Numbering(DefaultKitAddress, DefaultMotorId) == [0, 1, 2, 3, 4, 5, 6, 7]
  {
  }

  function OrDefault<T>(o: Option<T>, default: T): T
  {
    if o.Some? then o.value else default
  }

  // ---------------------------------------------------------------------
  // The controller

  class MotorControl {
    const kitAddress: seq<int>
    const motorId: seq<MotorId>
    /** (cos, sin) of _ANGLES[k] for each antenna number k. */
    const trig: seq<Direction>
    var antennaNumber: seq<int>
    var antennaPos: seq<real>
    var antennaCoords: seq<Point>
    var initSystem: bool

    predicate Valid()
      reads this
    {
      && |antennaNumber| == |antennaPos| == |antennaCoords| == |motorId|
      && |trig| == NumAntennas
      && (forall k :: 0 <= k < NumAntennas ==> IsUnit(trig[k]))
      && NumbersValid(antennaNumber)
      && forall i :: 0 <= i < |antennaPos| ==>
           antennaCoords[i] == Dist2Coordinates(antennaPos[i], trig[antennaNumber[i]])
    }

    /**
     * The loop of __init__: number each motor from its kit address and
     * stepper, put it at its home distance and compute its coordinates.
     */
    static method InitAntennas(kits: seq<int>, ids: seq<MotorId>, trigTable: seq<Direction>)
      returns (nums: seq<int>, posList: seq<real>, coords: seq<Point>)
      requires KitsValid(kits, ids) && |trigTable| == NumAntennas
      ensures nums == Numbering(kits, ids)
      ensures |posList| == |coords| == |ids|
      ensures forall i :: 0 <= i < |ids| ==> posList[i] == OuterDist[nums[i]]
      ensures forall i :: 0 <= i < |ids| ==> coords[i] == Dist2Coordinates(posList[i], trigTable[nums[i]])
    {
      nums, posList, coords := [], [], [];
      var im := 0;
      while im < |ids|
        invariant 0 <= im <= |ids|
        invariant |nums| == |posList| == |coords| == im
        invariant forall i :: 0 <= i < im ==> nums[i] == AntennaNumber(KitAt(kits, ids[i].kit), ids[i].stepper)
        invariant forall i :: 0 <= i < im ==> posList[i] == OuterDist[nums[i]]
        invariant forall i :: 0 <= i < im ==> coords[i] == Dist2Coordinates(posList[i], trigTable[nums[i]])
      {
        var address := KitAt(kits, ids[im].kit);
        var number;
        if address == 0x60 {
          number := if ids[im].stepper == 0 then 0 else 1;
        } else if address == 0x61 {
          number := if ids[im].stepper == 0 then 2 else 3;
        } else if address == 0x62 {
          number := if ids[im].stepper == 0 then 4 else 5;
        } else {
          number := if ids[im].stepper == 0 then 6 else 7;
        }
        nums := nums + [number];
        posList := posList + [OuterDist[number]];
        coords := coords + [Dist2Coordinates(posList[im], trigTable[nums[im]])];
        im := im + 1;
      }
    }

    /**
     * __init__ when every kit index is one Python accepts: resolve the
     * defaults, number the motors and put each at its home position. The
     * (cos, sin) table of _ANGLES is built from h = cos 45 degrees.
     */
    constructor (kitAddressArg: Option<seq<int>>, motorIdArg: Option<seq<MotorId>>, h: real)
      requires h > 0.0 && h * h == 0.5
      requires KitsValid(OrDefault(kitAddressArg, DefaultKitAddress), OrDefault(motorIdArg, DefaultMotorId))
      ensures Valid()
      ensures kitAddress == OrDefault(kitAddressArg, DefaultKitAddress)
      ensures motorId == OrDefault(motorIdArg, DefaultMotorId)
      ensures trig == CompassDirections(h)
      ensures antennaNumber == Numbering(kitAddress, motorId)
      ensures forall i :: 0 <= i < |antennaPos| ==> antennaPos[i] == OuterDist[antennaNumber[i]]
      ensures !initSystem
    {
      var kits := if kitAddressArg.None? then DefaultKitAddress else kitAddressArg.value;
      var ids := if motorIdArg.None? then DefaultMotorId else motorIdArg.value;
      kitAddress := kits;
      motorId := ids;
      var trigTable := CompassDirections(h);
      trig := trigTable;
      var nums, posList, coords := InitAntennas(kits, ids, trigTable);
      antennaNumber := nums;
      antennaPos := posList;
      antennaCoords := coords;
      initSystem := false;
    }

    /**
     * __init__ with any arguments: IndexError when a kit index lies outside
     * the address list (no controller is made), otherwise the controller the
     * constructor builds.
     */
    static method Create(kitAddressArg: Option<seq<int>>, motorIdArg: Option<seq<MotorId>>, h: real)
      returns (r: Result<MotorControl, InitError>)
      requires h > 0.0 && h * h == 0.5
      ensures var kits, ids := OrDefault(kitAddressArg, DefaultKitAddress), OrDefault(motorIdArg, DefaultMotorId);
        r.Failure? <==> NumberingResult(kits, ids).Failure?
      ensures var kits, ids := OrDefault(kitAddressArg, DefaultKitAddress), OrDefault(motorIdArg, DefaultMotorId);
        r.Failure? ==> r.error == NumberingResult(kits, ids).error
      ensures r.Success? ==> (fresh(r.value) && r.value.Valid()
        && r.value.kitAddress == OrDefault(kitAddressArg, DefaultKitAddress)
        && r.value.motorId == OrDefault(motorIdArg, DefaultMotorId)
        && r.value.antennaNumber == Numbering(r.value.kitAddress, r.value.motorId)
        && (forall i :: 0 <= i < |r.value.antennaPos| ==> r.value.antennaPos[i] == OuterDist[r.value.antennaNumber[i]])
        && !r.value.initSystem)
    {
      var kits, ids := OrDefault(kitAddressArg, DefaultKitAddress), OrDefault(motorIdArg, DefaultMotorId);
      var numbering := NumberingResult(kits, ids);
      if numbering.Failure? {
        return Failure(numbering.error);
      }
      var mc := new MotorControl(kitAddressArg, motorIdArg, h);
      return Success(mc);
    }

    /**
     * Each antenna's coordinates lie on its axis at its distance from the
     * centre: the norm of antennaCoords[i] is antennaPos[i].
     */
    lemma CoordinatesAtDistance(i: int)
      requires Valid() && 0 <= i < |antennaPos|
      ensures var p := antennaCoords[i];
        p.x * p.x + p.y * p.y == antennaPos[i] * antennaPos[i]
      ensures var p, dir := antennaCoords[i], trig[antennaNumber[i]];
        p.x * dir.sin == p.y * dir.cos
    {
      Dist2CoordinatesPolar(antennaPos[i], trig[antennaNumber[i]]);
    }

    /** new_position: set motor k's position and recompute its coordinates; nothing else changes. */
    method NewPosition(k: int, distance: real)
      requires Valid() && 0 <= k < |antennaPos|
      modifies this`antennaPos, this`antennaCoords
      ensures Valid()
      ensures antennaPos == old(antennaPos)[k := distance]
      ensures antennaCoords == old(antennaCoords)[k := Dist2Coordinates(distance, trig[antennaNumber[k]])]
    {
      antennaPos := antennaPos[k := distance];
      antennaCoords := antennaCoords[k := Dist2Coordinates(distance, trig[antennaNumber[k]])];
    }

    /** forward: one step towards the head. */
    method Forward(k: int)
      requires Valid() && 0 <= k < |antennaPos|
      modifies this`antennaPos, this`antennaCoords
      ensures Valid()
      ensures antennaPos == old(antennaPos)[k := old(antennaPos)[k] - Steps2Dist(1)]
    {
      NewPosition(k, antennaPos[k] - Steps2Dist(1));
    }

    /** backward: one step away from the head. */
    method Backward(k: int)
      requires Valid() && 0 <= k < |antennaPos|
      modifies this`antennaPos, this`antennaCoords
      ensures Valid()
      ensures antennaPos == old(antennaPos)[k := old(antennaPos)[k] + Steps2Dist(1)]
    {
      NewPosition(k, antennaPos[k] + Steps2Dist(1));
    }

    /** The motor range of a move: `motor`, or every motor when motor == 100. */
    function MoveRange(motor: int): (r: (int, int))
      reads this
      ensures motor == 100 ==> r == (0, |antennaPos|)
      ensures motor != 100 ==> r == (motor, motor + 1)
    {
      if motor == 100 then (0, |antennaPos|) else (motor, motor + 1)
    }

    /** The stepping loop of a move: `for _ in range(steps)` single steps towards the head. */
    method ForwardSteps(k: int, steps: int)
      requires Valid() && 0 <= k < |antennaPos|
      modifies this`antennaPos, this`antennaCoords
      ensures Valid()
      ensures antennaPos == old(antennaPos)[k := old(antennaPos)[k] - Steps2Dist(if steps < 0 then 0 else steps)]
    {
      var s := 0;
      while s < steps
        invariant Valid() && 0 <= s && (s <= steps || s == 0)
        invariant antennaPos == old(antennaPos)[k := old(antennaPos)[k] - Steps2Dist(s)]
      {
        Forward(k);
        s := s + 1;
      }
    }

    /** The stepping loop of a move: `for _ in range(steps)` single steps away from the head. */
    method BackwardSteps(k: int, steps: int)
      requires Valid() && 0 <= k < |antennaPos|
      modifies this`antennaPos, this`antennaCoords
      ensures Valid()
      ensures antennaPos == old(antennaPos)[k := old(antennaPos)[k] + Steps2Dist(if steps < 0 then 0 else steps)]
    {
      var s := 0;
      while s < steps
        invariant Valid() && 0 <= s && (s <= steps || s == 0)
        invariant antennaPos == old(antennaPos)[k := old(antennaPos)[k] + Steps2Dist(s)]
      {
        Backward(k);
        s := s + 1;
      }
    }

    /** One motor of move_forward: clamp the held distance, then step. Returns the (new) held distance. */
    method ForwardOneMotor(k: int, distance: real) returns (held: real)
      requires Valid() && 0 <= k < |antennaPos|
      modifies this`antennaPos, this`antennaCoords
      ensures Valid()
      ensures held == ClampForward(old(antennaPos)[k], InnerDist[antennaNumber[k]], distance)
      ensures antennaPos == old(antennaPos)[k := ForwardOne(old(antennaPos)[k], InnerDist[antennaNumber[k]], distance)]
    {
      held := distance;
      if antennaPos[k] - held < InnerDist[antennaNumber[k]] {
        held := antennaPos[k] - InnerDist[antennaNumber[k]];
      }
      ForwardSteps(k, Dist2Steps(held));
    }

    /** One motor of move_backward: clamp a copy of the distance, then step. */
    method BackwardOneMotor(k: int, distance: real)
      requires Valid() && 0 <= k < |antennaPos|
      modifies this`antennaPos, this`antennaCoords
      ensures Valid()
      ensures antennaPos == old(antennaPos)[k := BackwardOne(old(antennaPos)[k], OuterDist[antennaNumber[k]], distance)]
    {
      var distanceHead := distance;
      if antennaPos[k] + distance > OuterDist[antennaNumber[k]] {
        distanceHead := OuterDist[antennaNumber[k]] - antennaPos[k];
      }
      BackwardSteps(k, Dist2Steps(distanceHead));
    }

    /** move_forward: step each motor of the range towards the head, clamped at its inner limit. */
    method MoveForward(motor: int, distance: real)
      requires Valid() && (motor == 100 || 0 <= motor < |antennaPos|)
      modifies this`antennaPos, this`antennaCoords
      ensures Valid()
      ensures antennaPos == ForwardPlan(old(antennaPos), antennaNumber, MoveRange(motor).0, MoveRange(motor).1, distance)
    {
      var (lo, hi) := MoveRange(motor);
      var d := distance;
      var k := lo;
      while k < hi
        invariant lo <= k <= hi && Valid()
        invariant ForwardPlan(old(antennaPos), antennaNumber, lo, hi, distance)
          == ForwardPlan(antennaPos, antennaNumber, k, hi, d)
      {
        d := ForwardOneMotor(k, d);
        k := k + 1;
      }
    }

    /** move_backward: step each motor of the range away from the head, clamped at its home position. */
    method MoveBackward(motor: int, distance: real)
      requires Valid() && (motor == 100 || 0 <= motor < |antennaPos|)
      modifies this`antennaPos, this`antennaCoords
      ensures Valid()
      ensures antennaPos == BackwardPlan(old(antennaPos), antennaNumber, MoveRange(motor).0, MoveRange(motor).1, distance)
    {
      var (lo, hi) := MoveRange(motor);
      var k := lo;
      while k < hi
        invariant lo <= k <= hi && Valid()
        invariant BackwardPlan(old(antennaPos), antennaNumber, lo, hi, distance)
          == BackwardPlan(antennaPos, antennaNumber, k, hi, distance)
      {
        BackwardOneMotor(k, distance);
        k := k + 1;
      }
    }

    /** create_circle, from the positions reached on the head. */
    method CreateCircle(distanceFromHead: real) returns (outcome: CircleOutcome)
      requires Valid() && |antennaPos| <= 100
      modifies this`antennaPos, this`antennaCoords
      ensures Valid()
      ensures outcome == CircleTarget(old(antennaPos), distanceFromHead)
      ensures outcome.Circle? ==> antennaPos == CirclePlan(old(antennaPos), antennaNumber, 0, outcome.target)
      ensures !outcome.Circle? ==> antennaPos == old(antennaPos)
    {
      outcome := CircleTarget(antennaPos, distanceFromHead);
      if outcome.Circle? {
        MoveAllTo(outcome.target);
      }
    }

    /** The motor loop of create_circle: move_backward(k, target - pos[k]) for every motor k. */
    method MoveAllTo(target: real)
      requires Valid() && |antennaPos| <= 100
      modifies this`antennaPos, this`antennaCoords
      ensures Valid()
      ensures antennaPos == CirclePlan(old(antennaPos), antennaNumber, 0, target)
    {
      var k := 0;
      while k < |antennaPos|
        invariant 0 <= k <= |antennaPos| && Valid()
        invariant CirclePlan(old(antennaPos), antennaNumber, 0, target)
          == CirclePlan(antennaPos, antennaNumber, k, target)
      {
        ghost var before := antennaPos;
        MoveBackward(k, target - antennaPos[k]);
        BackwardPlanSingle(before, antennaNumber, k, target - before[k]);
        k := k + 1;
      }
    }

    /** create_ellipse, from the positions reached on the head, with the fit as input. */
    method CreateEllipse(distanceFromHead: real, fit: Fit) returns (outcome: EllipseOutcome)
      requires Valid() && |antennaPos| <= 100 && |fit.tans| == NumAntennas
      modifies this`antennaPos, this`antennaCoords
      ensures Valid()
      ensures (outcome, antennaPos) == EllipsePlan(old(antennaPos), antennaNumber, distanceFromHead, fit)
    {
      MoveBackward(100, distanceFromHead);
      if |motorId| == 2 {
        return TooFewPoints;
      }
      if DiscriminantRejects(fit.e.a, fit.e.b, fit.e.c) {
        return NotAnEllipse;
      }
      var xs: seq<int> := [];
      var ys: seq<int> := [];
      var k := 0;
      while k < |motorId|
        invariant 0 <= k <= |motorId| && Valid()
        invariant EllipsePlan(old(antennaPos), antennaNumber, distanceFromHead, fit)
          == EllipseLoop(antennaPos, antennaNumber, fit, k, xs, ys)
      {
        var r := SolveFor(antennaNumber, fit, antennaPos[k], k);
        if r.Failure? {
          return SolveFailed(k, r.error);
        }
        var decision := PostSolveDecision(r.value.delta as real, antennaPos[k], OuterDist[antennaNumber[k]]);
        if decision.AbortNegative? {
          return NegativeMove(k, decision.distance);
        }
        xs := xs + [r.value.x];
        ys := ys + [r.value.y];
        ghost var before := antennaPos;
        MoveBackward(k, decision.distance);
        BackwardPlanSingle(before, antennaNumber, k, decision.distance);
        k := k + 1;
      }
      outcome := EllipseDone(xs, ys);
    }
  }
}
