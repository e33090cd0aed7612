# brainscanner-motor-control in Dafny

This project models the control software of a microwave brain scanner. The
scanner has eight antennas on a ring around the head, and each antenna sits on
a stepper-driven linear driver. The model covers the following parts.

- **Motor bookkeeping** (`motor_control.dfy`, module `Motors`):
  - `MotorControl` numbers its motors from the kit addresses and stepper ids.
  - It keeps each antenna's distance from the centre and its `(x, y)`.
  - It converts millimetres to steps and back.
  - `move_forward` and `move_backward` are clamped at each antenna's inner limit and home position. `move_forward` carries a clamped distance over to the motors after it. `move_backward` clamps a fresh copy for every motor.
  - `create_circle` moves every antenna to a common radius.
  - `create_ellipse` fits an ellipse through the antenna coordinates and moves each antenna onto it.
- **The axis solver** (`axis_solver.dfy`, module `AxisSolver`):
  - `solve_ellipse_system` substitutes the antenna's axis `y = tan(θ)·x` into the ellipse equation.
  - It takes the roots of the resulting quadratic and rounds them.
  - It picks the root on the antenna's side of the centre with a fixed per-antenna table, falling back to the other root.
  - It returns the rounded radial delta.
  - The module also holds the discriminant test and the per-antenna move decision of `create_ellipse`.
- **Helpers** (`util.py`, module `Util`):
  - `dist2coordinates` is the polar-to-Cartesian map.
  - `outer_ellipsoid_fit` is the Khachiyan iteration for the minimum-volume enclosing ellipse. The model covers its weight updates, its stopping test and its centre.
- **VNA control** (`vna_control.dfy`, module `VnaControl`):
  - The S-parameter → trace-number formula of `_index2traceid`, with its range and order errors.
  - The three trace lists that `setup` puts in its display windows: reflection, neighbour and transmission.
  - The resource string `connect` opens, and the connected / not-connected state that `@_check_connected` guards.
  - The `ip_address` setter and the argument checks of `setup_user_interface`.
- **Alternative solvers** (`sympy_variants.dfy`, module `SympyVariants`):
  - The sympy version of `solve_ellipse_system` in `archive/`.
  - The numpy substitute in `testing_hardware/substitute_sympy.py`.
- **Shared pieces**:
  - `wrappers.dfy` holds `Option` and `Result`.
  - `py_builtins.dfy` holds Python's `int()` and `round()` with exact reals, and `max`, `min` and `np.argmax`.
  - `motor_config.dfy` holds the lab constants.

`MotorControl` and `RSVNAControl` are classes whose methods update their fields
in place. Each mutating method states its new state against a pure plan
function, for example `MoveForward` against `ForwardPlan` and `CreateEllipse`
against `EllipsePlan`. The properties are lemmas about those functions.

Primitives with no exact model are parameters of the model:

- `np.roots` is a function from the coefficient triple to the returned list of complex roots.
- `np.sqrt` is a function parameter.
- `tan` of each antenna angle is a real input.
- `cos` and `sin` of each angle form a `Direction`. The controller builds its table of the eight `_ANGLES` from `h = cos 45°`, given as a real with `h² = 1/2` (`CompassDirections`).
- `sympy.solve` is a function from the ellipse and axis direction to a list of solution dicts.
- The matrix inverse inside `outer_ellipsoid_fit` is replaced by its leverage vector, given as an oracle. The oracle must satisfy the identity that an exact inverse satisfies: `Σ uᵢ mᵢ = d + 1`.

Where the code and its docstrings disagree, the model follows the code:

- **`dist2coordinates` example.** The docstring gives `(9.14…, 9.14…)` for 10 mm at 45°. The code computes `10·cos 45°` and `10·sin 45°`, each about 7.07.
- **Rounded solver output.** `solve_ellipse_system` returns rounded integers. For the ellipse `0.1x² + 0.05y² = 1` on antenna 2's axis, the solver therefore returns `x = 3`, not `√10` (`ExampleAntennaTwo`). The same rounding applies to circles: points on a circle of radius `1/√k` come back rounded.
- **Fallback root.** When neither root has the antenna's sign, the selection table falls back to the other root whatever its sign. The model keeps this, and `Prefer` states it.
- **Panels for three ports.** The `setup` docstring describes three panels for more than three ports. For exactly three ports, the code's layout defines two panels but fills three windows (`LayoutVersusWindows`).
- **Trace numbering.** Trace numbers are not contiguous: a row starts two past the end of the previous row (`RowGap`). They are still distinct, which is all the trace names need.
- **User-interface check.** `setup_user_interface` tests `self._vna is not None` before disconnecting. Under the decorator this test always holds.

## Model

| member | source | states |
|---|---|---|
| PyBuiltins.Trunc | src/mwscanner_control/motor_control.py:356 | `int()` of a float truncates toward zero: the result lies within one of the argument, on the side of zero |
| PyBuiltins.RoundHalfEven | src/mwscanner_control/motor_control.py:1364-1368 | `round()` gives an integer within 1/2 of its argument, and a tie goes to the even neighbour |
| PyBuiltins.RoundHalfEvenUnique | src/mwscanner_control/motor_control.py:1364-1368 | those two properties determine the rounded value uniquely |
| PyBuiltins.RoundHalfEvenSymmetric | src/mwscanner_control/motor_control.py:1364-1368 | rounding commutes with negation and leaves integers unchanged |
| PyBuiltins.Max | src/mwscanner_control/motor_control.py:1267 | `max()` of a non-empty list is one of its elements and bounds every element |
| PyBuiltins.Min | src/mwscanner_control/motor_control.py:1267 | `min()` of a non-empty list is one of its elements and is below every element |
| PyBuiltins.FirstArgMax | src/mwscanner_control/util.py:79 | `np.argmax` returns an index of a maximum, and every earlier entry is strictly smaller |
| MotorConfig.MinOuter | src/mwscanner_control/motor_control.py:63-65 | `min(_OUTER_DIST)` is 100 mm and lies at or below every antenna's home distance |
| MotorConfig.LimitsOrdered | src/mwscanner_control/motor_control.py:20-79 | opposite antennas k and k + 4 share their home distance, and the two add up to the measured span of the pair; each inner limit is positive and exactly one 40 mm driver travel inside its home distance |
| Motors.Dist2Steps | src/mwscanner_control/motor_control.py:338-356 | for a non-negative distance, the step count covers at most that distance and less than one more step; for a negative one, the mirror bracket holds |
| Motors.StepsRoundTrip | src/mwscanner_control/motor_control.py:338-372 | converting a whole number of steps to mm and back returns the same steps |
| Motors.ConversionExamples | src/mwscanner_control/motor_control.py:347-349 | the documented values: 10 mm is 250 steps, 500 steps are 20 mm, one step is 0.04 mm |
| Motors.StepCount | src/mwscanner_control/motor_control.py:1037 | the stepping loop runs zero times exactly when the distance is below one step; otherwise it covers the distance to within one step |
| Motors.ClampForward | src/mwscanner_control/motor_control.py:1027-1033 | the forward distance never exceeds the request and never takes the antenna inside its inner limit; it is unchanged exactly when the request fits, and otherwise stops exactly at the limit |
| Motors.ClampBackward | src/mwscanner_control/motor_control.py:1153-1160 | the backward distance never exceeds the request and never takes the antenna past home; it is unchanged exactly when the request fits, and otherwise ends exactly at home |
| Motors.ForwardOneBounds | src/mwscanner_control/motor_control.py:1022-1039 | a forward move never moves outward and never passes the inner limit; without a clamp, it covers the request to within one step |
| Motors.BackwardOneBounds | src/mwscanner_control/motor_control.py:1148-1165 | a backward move never moves inward and never passes home; without a clamp, it covers the request to within one step |
| Motors.ForwardPlanEffect | src/mwscanner_control/motor_control.py:1011-1039 | in `move_forward`, each motor in range makes its own clamped move with the distance carried from the motors before it; motors outside the range stay put; the carried distance never grows |
| Motors.CarriedBound | src/mwscanner_control/motor_control.py:1027-1033 | the distance `move_forward` carries to a later motor is at most the requested one |
| Motors.ForwardCarryExample | src/mwscanner_control/motor_control.py:1027-1037 | a clamp on the first motor shortens the move of the next: 45 mm on antennas 3 and 0 moves both only 20 mm |
| Motors.BackwardPlanEffect | src/mwscanner_control/motor_control.py:1135-1165 | in `move_backward`, each motor in range makes its own independently clamped move, and the others stay put |
| Motors.BackwardPlanSingle | src/mwscanner_control/motor_control.py:1135-1140 | `move_backward` of one motor changes that motor only |
| Motors.CircleTarget | src/mwscanner_control/motor_control.py:1267-1281 | an empty motor list fails; if the farthest antenna is beyond min(home), no circle is made; otherwise the target is max position + offset, capped at min(home) |
| Motors.CirclePlanAt | src/mwscanner_control/motor_control.py:1283-1285 | each motor of the circle loop makes one backward move by target − its own position |
| Motors.CircleWithinLimits | src/mwscanner_control/motor_control.py:1275-1285 | for a non-negative offset, no circle move is clamped, and every antenna ends within one step short of the common target |
| Motors.EllipsePlan | src/mwscanner_control/motor_control.py:1469-1488 | exactly two motors stop after the initial backward move; otherwise, a failing discriminant stops the run after that move |
| Motors.EllipseLoopOutcome | src/mwscanner_control/motor_control.py:1492-1526 | the per-motor loop ends only in a solve failure, a negative-move abort or completion |
| Motors.EllipseLoopSafe | src/mwscanner_control/motor_control.py:1492-1526 | the loop keeps every antenna between its start and its home, and leaves motors already done alone; on completion, one point was recorded per motor and every solve succeeded |
| Motors.LoopWithOutcome | src/mwscanner_control/motor_control.py:1492-1526 | for any solver, the per-motor loop ends only in a solve failure, a negative-move abort or completion |
| Motors.LoopWithBounds | src/mwscanner_control/motor_control.py:1492-1526 | for any solver, each antenna ends between its position before the loop and its home |
| Motors.LoopWithComplete | src/mwscanner_control/motor_control.py:1492-1526 | for any solver, the motors before the loop's start keep their positions; on completion, one point was recorded per motor and the solver succeeded for every motor from the start on |
| Motors.KitRank | src/mwscanner_control/motor_control.py:192-215 | every address maps to one of four kit ranks; unknown addresses count as the fourth kit |
| Motors.AntennaNumber | src/mwscanner_control/motor_control.py:192-215 | the antenna number is in 0..7, its half is the kit rank, and it is even exactly for stepper 0 |
| Motors.Numbering | src/mwscanner_control/motor_control.py:188-215 | every motor gets the antenna number of its kit address, looked up with Python's indexing, and its stepper |
| Motors.DefaultNumbering | src/mwscanner_control/motor_control.py:175-181 | the default wiring numbers the motors 0..7 in order |
| Motors.NumberingResult | src/mwscanner_control/motor_control.py:188-215 | IndexError exactly when some kit index is outside the address list, naming the first such motor; otherwise every motor gets the antenna number of its kit address and stepper |
| Motors.NegativeKitIndexWraps | src/mwscanner_control/motor_control.py:193 | a negative kit index is accepted exactly when its non-negative counterpart is, and it names the same kit |
| Motors.MotorControl.constructor | src/mwscanner_control/motor_control.py:172-224 | for kit indices Python accepts: the defaults are resolved; each motor is numbered; each antenna starts at its home distance with matching coordinates along the cos/sin table of `_ANGLES`; the system is not initialised |
| Motors.MotorControl.Create | src/mwscanner_control/motor_control.py:172-224 | `__init__` on any arguments: it raises IndexError exactly when the numbering loop meets a kit index outside the list; otherwise it produces the constructor's controller |
| Motors.MotorControl.InitAntennas | src/mwscanner_control/motor_control.py:186-221 | the loop of `__init__` numbers every motor as `Numbering` does, starts it at its home distance, and gives it the coordinates of that distance along its antenna's direction |
| Motors.MotorControl.CoordinatesAtDistance | src/mwscanner_control/motor_control.py:217-221 | every antenna's stored coordinates lie on its axis, at its distance from the centre |
| Motors.MotorControl.NewPosition | src/mwscanner_control/motor_control.py:656-681 | only motor k's position and coordinates change, and the coordinates stay consistent with the positions |
| Motors.MotorControl.Forward | src/mwscanner_control/motor_control.py:683-697 | one step takes motor k 0.04 mm inward and changes nothing else |
| Motors.MotorControl.Backward | src/mwscanner_control/motor_control.py:717-731 | one step takes motor k 0.04 mm outward and changes nothing else |
| Motors.MotorControl.ForwardSteps | src/mwscanner_control/motor_control.py:1037-1039 | n single forward steps move motor k by n steps, zero for n ≤ 0 |
| Motors.MotorControl.BackwardSteps | src/mwscanner_control/motor_control.py:1163-1165 | n single backward steps move motor k by n steps, zero for n ≤ 0 |
| Motors.MotorControl.ForwardOneMotor | src/mwscanner_control/motor_control.py:1027-1039 | one motor of `move_forward` returns the clamped distance it now holds, and moves only that motor |
| Motors.MotorControl.BackwardOneMotor | src/mwscanner_control/motor_control.py:1153-1165 | one motor of `move_backward` clamps a copy of the distance and moves only that motor |
| Motors.MotorControl.MoveForward | src/mwscanner_control/motor_control.py:962-1039 | the new positions are those of `ForwardPlan`, carry-over included, and the coordinates stay consistent |
| Motors.MotorControl.MoveBackward | src/mwscanner_control/motor_control.py:1086-1165 | the new positions are those of `BackwardPlan`, and the coordinates stay consistent |
| Motors.MotorControl.CreateCircle | src/mwscanner_control/motor_control.py:1212-1285 | the outcome is `CircleTarget` of the positions on the head; only a circle outcome moves the antennas, by `CirclePlan` |
| Motors.MotorControl.MoveAllTo | src/mwscanner_control/motor_control.py:1283-1285 | the circle loop's effect is `CirclePlan`, each move reading the motor's position just before it moves |
| Motors.MotorControl.CreateEllipse | src/mwscanner_control/motor_control.py:1412-1526 | outcome and final positions are exactly `EllipsePlan` of the positions on the head |
| AxisSolver.CoefficientsIdentity | src/mwscanner_control/motor_control.py:1343-1350 | the quadratic cp2·x² + cp1·x + cp0 equals the ellipse form minus one on the line y = t·x |
| AxisSolver.RootIffOnEllipse | src/mwscanner_control/motor_control.py:1343-1352 | x is a root of the quadratic exactly when (x, t·x) lies on the ellipse |
| AxisSolver.CandidatePairs | src/mwscanner_control/motor_control.py:1352-1355 | fewer than two roots raise IndexError; otherwise there are two pairs with y = t·x, componentwise |
| AxisSolver.Prefer | src/mwscanner_control/motor_control.py:1370-1393 | the first root is taken when it has the antenna's sign; otherwise the second, whatever its sign |
| AxisSolver.SelectRoot | src/mwscanner_control/motor_control.py:1370-1393 | antennas 0 and 4 take x = 0 and choose y by sign; the others choose x by sign and set y to x, 0 or −x |
| AxisSolver.SelectionOnAxis | src/mwscanner_control/motor_control.py:1370-1393 | the selected point always lies on the antenna's axis line, and on the antenna's side of it whenever one rounded root has the right sign |
| AxisSolver.MeasureTail | src/mwscanner_control/motor_control.py:1370-1397 | the point is the table's pick of the four rounded coordinates, and the delta is the half-to-even rounding of √(x²+y²) − pos: within 1/2 of it, and even at a tie |
| AxisSolver.SolveEllipseSystem | src/mwscanner_control/motor_control.py:1288-1410 | IndexError exactly when np.roots gives fewer than two roots; the complex exit exactly when the root array is complex; otherwise the triple is `MeasureTail` of the half-to-even roundings of the two roots and their y = t·x: the table's pick, and the half-to-even rounding of √(x²+y²) − pos as delta |
| AxisSolver.ExampleAntennaTwo | src/mwscanner_control/motor_control.py:1343-1397 | 0.1x² + 0.05y² = 1 on antenna 2's axis gives the point (3, 0) |
| AxisSolver.DiscriminantAdmitsDegenerateAxis | src/mwscanner_control/motor_control.py:1484-1487 | the test b² − 4ac passes a = b = c = 1, although b² < ac fails for them; on antenna 3's axis both the quadratic and the linear coefficient vanish, so no root exists |
| AxisSolver.PostSolveDecision | src/mwscanner_control/motor_control.py:1503-1526 | the delta is capped at the home position; a non-negative result moves back; a result in (−2, 0) moves zero; anything at or below −2 aborts; a move never passes home |
| Util.Dist2CoordinatesPolar | src/mwscanner_control/util.py:5-23 | the point lies on the antenna's axis line, and for a unit direction its distance from the origin equals the antenna distance |
| Util.CompassDirections | src/mwscanner_control/motor_control.py:79 | the cosines and sines of the eight antenna angles are unit directions |
| Util.Uniform | src/mwscanner_control/util.py:74 | the starting weights `ones(n)/n` form a probability vector |
| Util.MaxLeverageAtLeast | src/mwscanner_control/util.py:78-79 | the largest leverage is at least d + 1, so m[jdx] − 1 > 0 and the step size is defined |
| Util.StepSizeBounds | src/mwscanner_control/util.py:80 | the step size lies in [0, 1/(d+1)) |
| Util.Update | src/mwscanner_control/util.py:81-82 | every weight is scaled by 1 − step, and the chosen one additionally gains step |
| Util.UpdateKeepsProbability | src/mwscanner_control/util.py:81-84 | the weight update keeps u a probability vector |
| Util.ExceedsIffNormAbove | src/mwscanner_control/util.py:75-83 | comparing squared norms is the same test as `err > tol` |
| Util.CentreWithinBounds | src/mwscanner_control/util.py:86 | for probability weights, each centre coordinate lies between that coordinate's minimum and maximum over the points |
| Util.KhachiyanStep | src/mwscanner_control/util.py:77-84 | one round of the loop maps a probability vector to a probability vector |
| Util.Iterate | src/mwscanner_control/util.py:74-84 | the weights stay a probability vector after any number of rounds from `ones(n)/n` |
| Util.KhachiyanLoop | src/mwscanner_control/util.py:74-84 | the weights returned are those after `iterations` rounds. Every earlier round moved them by more than tol. The loop stops on its own exactly when the last round moved them by at most tol. Otherwise the fuel ran out |
| Util.KhachiyanRound | src/mwscanner_control/util.py:77-84 | one pass of the loop body turns the weights after k rounds into those after k + 1 rounds, and err² is how far that round moved them |
| Util.FitFromShape | src/mwscanner_control/util.py:75-84 | the rounds still to run stop within the fuel, and only when err ≤ tol or the fuel is used up; every round before the last moved the weights by more than tol |
| Util.KhachiyanExit | src/mwscanner_control/util.py:75-84 | once the loop condition is false, every round before the last moved the weights by more than tol; the loop stopped on its own exactly when the last round moved them by at most tol, and otherwise the fuel ran out |
| Util.OuterEllipsoidFit | src/mwscanner_control/util.py:41-86 | the weights are the Khachiyan iterate at which the loop stops, as in `KhachiyanLoop`, and a probability vector; the centre is the weighted sum and lies inside the points' bounding box |
| VnaControl.TraceId | src/mwscanner_control/vna_control.py:80-88 | IndexError exactly when an index is outside 1..total (checked first); RuntimeError exactly when both are in range and ij < ik; otherwise the row offset + ij |
| VnaControl.OffsetClosedForm | src/mwscanner_control/vna_control.py:88 | the closed form (ik−1)(2·total−ik+2)/2 is the sum of the row lengths before row ik, and the division is exact |
| VnaControl.FirstRowIsIdentity | src/mwscanner_control/vna_control.py:88 | id(1, j) = j |
| VnaControl.TraceNumberMonotone | src/mwscanner_control/vna_control.py:88 | on valid pairs, the trace number strictly increases in row-major order |
| VnaControl.TraceNumberInjective | src/mwscanner_control/vna_control.py:88 | distinct S-parameters get distinct trace numbers |
| VnaControl.RowGap | src/mwscanner_control/vna_control.py:88 | a row's diagonal entry is numbered two past the last entry of the previous row |
| VnaControl.TwoPortNumbers | src/mwscanner_control/vna_control.py:88 | with two ports, S22 is trace 4 |
| VnaControl.TwoPortErrors | src/mwscanner_control/vna_control.py:82-87 | S21 is an order error; S03 and S31 are range errors |
| VnaControl.PairsFromShape | src/mwscanner_control/vna_control.py:244-245 | the definition loop lists exactly the valid pairs from row ik on, in row-major order |
| VnaControl.AllPairsExactlyOnce | src/mwscanner_control/vna_control.py:243-247 | `setup` defines every valid S-parameter exactly once, with strictly increasing trace numbers |
| VnaControl.NeighbourShape | src/mwscanner_control/vna_control.py:265-273 | for n ≥ 3, the neighbour window holds exactly the pairs (k, k+1) and (1, n), each once |
| VnaControl.TransmissionFromShape | src/mwscanner_control/vna_control.py:275-281 | the transmission window holds exactly the pairs two or more apart except (1, n), in row-major order |
| VnaControl.WindowsCoverOnce | src/mwscanner_control/vna_control.py:259-281 | for n ≥ 3, the three windows together contain every valid pair exactly once |
| VnaControl.NeighbourDuplicateForTwo | src/mwscanner_control/vna_control.py:265-273 | for n = 2, the neighbour window lists S12 twice |
| VnaControl.IdsOfNoDup | src/mwscanner_control/vna_control.py:88 | distinct valid pairs have distinct trace numbers |
| VnaControl.WindowIdsCoverOnce | src/mwscanner_control/vna_control.py:243-281 | for n ≥ 3, the window trace numbers are distinct and include the number of every defined trace |
| VnaControl.DefineTraces | src/mwscanner_control/vna_control.py:243-247 | the nested definition loop produces `AllPairs(n)` and their trace numbers |
| VnaControl.ReflectionList | src/mwscanner_control/vna_control.py:260-262 | the reflection loop produces the numbers of the diagonal pairs |
| VnaControl.NeighbourList | src/mwscanner_control/vna_control.py:266-272 | the neighbour loop produces the numbers of (k, k+1), closed by (1, n) |
| VnaControl.TransmissionRowList | src/mwscanner_control/vna_control.py:278-280 | one row of the transmission loop produces the numbers of (ik, ik+2) up to its end, where row 1 stops before (1, n) |
| VnaControl.TransmissionList | src/mwscanner_control/vna_control.py:276-280 | the nested transmission loop produces the numbers of `TransmissionPairs(n)` |
| VnaControl.LayoutVersusWindows | src/mwscanner_control/vna_control.py:250-281 | the layout has one panel per filled window for every n ≥ 1 except 3, where it has two panels for three windows |
| VnaControl.SetupWindowsCoverOnce | src/mwscanner_control/vna_control.py:259-281 | for n ≥ 3, `setup` fills three windows whose traces show every defined trace exactly once |
| VnaControl.LowerChar | src/mwscanner_control/vna_control.py:192 | lower-casing leaves no ASCII capital and keeps lower-case letters |
| VnaControl.Lower | src/mwscanner_control/vna_control.py:192 | `lower()` preserves length and maps character by character |
| VnaControl.LowerIdempotent | src/mwscanner_control/vna_control.py:192 | lower-casing twice is the same as once |
| VnaControl.LinkSpellings | src/mwscanner_control/vna_control.py:192 | 'USB', 'Lan' and 'HiSLIP' select the same links as their lower-case forms |
| VnaControl.ResourceString | src/mwscanner_control/vna_control.py:193-201 | exactly 'usb', 'lan' and 'hislip' succeed, and every resource ends in '::INSTR'; any other link raises ValueError |
| VnaControl.ResourceCarriesAddress | src/mwscanner_control/vna_control.py:194-198 | the lan and hislip resources carry the IP address right after 'TCPIP0::' and differ from each other; USB ignores the address |
| VnaControl.RSVNAControl.constructor | src/mwscanner_control/vna_control.py:54-66 | the controller starts disconnected and uncalibrated, with no channels and no handler, at address 192.168.1.58 |
| VnaControl.RSVNAControl.CheckConnected | src/mwscanner_control/vna_control.py:17-23 | a guarded call passes exactly when connected, and otherwise raises RuntimeError |
| VnaControl.RSVNAControl.SetIpAddress | src/mwscanner_control/vna_control.py:74-78 | a non-string raises TypeError and keeps the address; a string replaces it |
| VnaControl.RSVNAControl.Connect | src/mwscanner_control/vna_control.py:178-202 | when connected, only a warning; otherwise the lower-cased link's resource is opened, or ValueError with no connection |
| VnaControl.RSVNAControl.Disconnect | src/mwscanner_control/vna_control.py:204-219 | when not connected, only a warning; otherwise the handler is detached and the connection closed |
| VnaControl.RSVNAControl.Setup | src/mwscanner_control/vna_control.py:221-297 | RuntimeError and no change when not connected; otherwise it returns the trace definitions, the layout and the three window lists, and records the channel count |
| VnaControl.RSVNAControl.SetupUserInterface | src/mwscanner_control/vna_control.py:329-374 | not connected: RuntimeError. A non-dict disconnects and raises ValueError. After the key reset, 0 buttons returns and more than 8 disconnect and raise ValueError. Otherwise the labels are shown and, unless the backend is pyvisa-py, the handler is installed |
| SympyVariants.RoundValue | archive/solve_ellipse_sympy.py:76-80 | `int(round(v))` is the half-to-even rounding of a real v (within 1/2, and even at a tie) and raises TypeError on a complex one |
| SympyVariants.SelectAndMeasure | archive/solve_ellipse_sympy.py:76-109 | on four real values the triple is `MeasureTail` of their half-to-even roundings, the same tail as the main solver (the table's pick, and the half-to-even rounding of √(x²+y²) − pos as delta); raises TypeError if any value is complex |
| SympyVariants.SolveEllipseSystemSympy | archive/solve_ellipse_sympy.py:67-122 | anything but two solutions aborts with their count; the complex abort happens exactly when the test as written finds a complex value; otherwise the result is the shared select-and-measure |
| SympyVariants.SecondYNeverInspected | archive/solve_ellipse_sympy.py:71-80 | a complex y in the second solution escapes the complex test and makes `round()` raise TypeError |
| SympyVariants.SolveEllipseSystemSympyChecked | archive/solve_ellipse_sympy.py:69-74 | with all four values tested, the complex abort happens exactly when some value is complex, and round() never sees a complex value |
| SympyVariants.RealSolutionsSkipComplexTests | archive/solve_ellipse_sympy.py:55-80 | when every solution value is real, as with the real-declared symbols, neither the complex exit nor the TypeError of `round()` happens, and two solutions always reach the selection |
| SympyVariants.CheckedAgreesWithoutComplex | archive/solve_ellipse_sympy.py:69-74 | without complex values, the corrected and as-written tests give the same result |
| SympyVariants.GetAngle | testing_hardware/substitute_sympy.py:6-10 | the angle of index k is (90 − 45k) mod 360 for −8 ≤ k < 8 (Python negative indexing); IndexError otherwise |
| SympyVariants.SubstituteMatchesMain | testing_hardware/substitute_sympy.py:34-41 | the testing script's cp2, cp1, cp0 are the main solver's coefficients |
| SympyVariants.SolveEllNumpy | testing_hardware/substitute_sympy.py:43-45 | IndexError exactly when np.roots gives fewer than two roots; otherwise the two pairs are `(xsol[i], xsol[i]·tan)` taken from the first two roots |
| SympyVariants.LineFormEquivalence | testing_hardware/substitute_sympy.py:25-27 | for cos θ ≠ 0, y·cos θ − x·sin θ = 0 holds exactly when y = (sin θ / cos θ)·x |
| SympyVariants.RootsSolveSympySystem | testing_hardware/substitute_sympy.py:20-45 | a real x is a root of the numpy quadratic exactly when (x, tan·x) solves both sympy equations |
| SympyVariants.SympyAgreesWithNumpy | archive/solve_ellipse_sympy.py:58-109 | given the real numpy roots as its two solutions, the sympy version returns the same triple as the main solver |

## Left out

- **Stepper, switch and GPIO I/O.** Stepper pulses, the GPIO head switch, `move_switch_off`, `check_pin`, `init_motors` and `set_on_head` (homing) are hardware I/O and are not modelled. The move loops take the switch to stay released, so the early `break` on a released switch is not modelled.
- **Homing before circle and ellipse.** `create_circle` and `create_ellipse` start from the positions reached by the homing step `set_on_head`.
- **Output and plotting.** `pause`, prints, warnings text, plotting (`plot_ellipse_antennas`, `show_antennas`, plot_pin) and `release_all` are output only.
- **Exits.** `__del__`/`sys.exit` become the outcome constructors `SolveFailed`, `NotAnEllipse` and `NegativeMove`. Nothing after them runs, as in the source.
- **Exact reals.** All arithmetic is on exact reals, so float rounding in `200*d/8`, in the coefficients and in the square root is not modelled.
- **numpy and sympy primitives.** `np.tan`, `np.cos`, `np.sin`, `np.roots`, `np.sqrt` and `sympy.solve` are inputs or function parameters, so the model does not say how they compute. In particular, it does not say which root `np.roots` lists first.
- **Fit output.** The fit matrix `a` that `outer_ellipsoid_fit` returns (an inverse divided by d), and its mapping onto `a`, `b`, `c` in `create_ellipse`, are not modelled. `CreateEllipse` takes the fitted ellipse as an input `Fit`.
- **Util.OuterEllipsoidFit: matrix inverse.** The leverage vector is an oracle that satisfies the trace identity of an exact inverse. It is not computed from a matrix inverse.
- **Util.OuterEllipsoidFit: termination.** The source loop has no termination guarantee, so the model runs at most `fuel` rounds. When the fuel runs out it reports `converged == false`.
- **Motors.MotorControl.constructor: kit index.** The constructor requires every kit index to be one that Python accepts. The raising path of `__init__` is modelled by `Motors.MotorControl.Create` and `Motors.NumberingResult`. A motor id that is not a two-element list, or whose entries are not integers, is left out: `MotorId` always has two integers.
- **Motors.MotorControl.MoveForward: motor index.** A motor index other than 100 that is out of range or negative is excluded by `requires`. Python would raise IndexError, or for a negative index address motors from the end of the list.
- **Motors.MotorControl.MoveBackward: motor index.** Same as `MoveForward`.
- **Motors.MotorControl.CreateCircle and Motors.MotorControl.CreateEllipse: motor count.** These require at most 100 motors. With motor 101 or more, the per-motor call `move_backward(100, …)` would mean "all motors".
- **AxisSolver.DiscriminantAdmitsDegenerateAxis: positive definiteness.** The converse, that b² < ac with a > 0 makes every axis's leading coefficient positive, is not proved. The lemma only shows the source's test b² − 4ac admitting a degenerate form.
- **VNA instrument I/O.** `_addtrace2window` (catalogue queries, trace deletion), `_set_averaging`, `calibrate`, save/load of calibration and state, `measure`, `poll_user_keys`, `_eventhandle` and pyvisa events query the instrument. The windows model only the trace lists handed to `_addtrace2window`.
- **Button handlers.** String handlers looked up with `getattr` in `setup_user_interface` (which may raise AttributeError) are not modelled. Neither is where the handler dict is stored.
- **Unicode lower-casing.** `str(link).lower()` is modelled as ASCII lower-casing of a string. Non-str links, and the TypeError raised when such a link reaches the error message, are left out.
- **Other VNA settings.** The frequency, sweep and averaging settings and the `freq_*`/`averaging` attributes are instrument settings that only commands use.
- **SympyVariants.SolveEllipseSystemSympy: complex values.** The symbols are declared real (archive/solve_ellipse_sympy.py:55-56), so `sympy.solve` returns only real sympy numbers. None of them is an instance of Python `complex`. The 'Found Complex Solutions' exit and the duplicated test are therefore unreachable in the program. The model allows complex values so that the test can be stated, and `RealSolutionsSkipComplexTests` proves that real solutions never reach either error.
- **sympy rounding.** The model assumes sympy's real solutions are rounded half-to-even, like Python floats.

## Findings

| source | as written | input that shows it | evidently intended | confidence | as-written member | corrected member |
|---|---|---|---|---|---|---|
| archive/solve_ellipse_sympy.py:71-74 | the complex check tests `sol[0][psi]` twice and never tests `sol[1][psi]` | two solutions whose only complex value is the second solution's y; `sympy.solve` on the real-declared symbols of lines 55-56 never returns such a value, so the defect is latent | the fourth test is `sol[1][psi]`, so that any complex value takes the 'Found Complex Solutions' exit | high that the test is duplicated, latent in practice (not executed) | SympyVariants.SecondYNeverInspected | SympyVariants.SolveEllipseSystemSympyChecked |
