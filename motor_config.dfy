/**
 * The lab configuration of the eight antennas: travel of each driver, the
 * home ("outer") and closest ("inner") distance of each antenna from the
 * centre in mm, and each antenna's angle in degrees. Index = antenna number.
 */
module MotorConfig {
  import opened PyBuiltins

  const NumAntennas: nat := 8

  /** Maximal travel of each driver, in mm. */
  const DriversMax: seq<real> := [40.0, 40.0, 40.0, 40.0, 40.0, 40.0, 40.0, 40.0]

  /** Distance between opposite antennas in home position, in mm. */
  const OutDist04: real := 221.0
  const OutDist15: real := 204.0
  const OutDist26: real := 204.0
  const OutDist37: real := 200.0

  /** Distance of each antenna from the centre in home position. */
  const OuterDist: seq<real> :=
    [OutDist04 / 2.0, OutDist15 / 2.0, OutDist26 / 2.0, OutDist37 / 2.0,
     OutDist04 / 2.0, OutDist15 / 2.0, OutDist26 / 2.0, OutDist37 / 2.0]

  /** Closest allowed distance of each antenna from the centre. */
  const InnerDist: seq<real> :=
    [OuterDist[0] - DriversMax[0], OuterDist[1] - DriversMax[1],
     OuterDist[2] - DriversMax[2], OuterDist[3] - DriversMax[3],
     OuterDist[4] - DriversMax[4], OuterDist[5] - DriversMax[5],
     OuterDist[6] - DriversMax[6], OuterDist[7] - DriversMax[7]]

  /** Angle of each antenna, in degrees. */
  const Angles: seq<int> := [90, 45, 0, 315, 270, 225, 180, 135]

  /** The closest home distance over all antennas: min(_OUTER_DIST). */
  function MinOuter(): (m: real)
    ensures m == 100.0
    ensures forall k :: 0 <= k < NumAntennas ==> m <= OuterDist[k]
  {
    Min(OuterDist)
  }

  /**
   * The inner limit lies one full driver travel inside the home position, for
   * every antenna, and opposite antennas (k and k + 4) share their home
   * distance, each half the measured span of the pair.
   */
  lemma LimitsOrdered(k: int)
    requires 0 <= k < NumAntennas
    ensures |OuterDist| == |InnerDist| == |Angles| == NumAntennas
    ensures 0.0 < InnerDist[k] && InnerDist[k] + 40.0 == OuterDist[k]
    ensures OuterDist == [110.5, 102.0, 102.0, 100.0, 110.5, 102.0, 102.0, 100.0]
    ensures OuterDist[k] == OuterDist[(k + 4) % NumAntennas]
    ensures OuterDist[k] + OuterDist[(k + 4) % NumAntennas] == [OutDist04, OutDist15, OutDist26, OutDist37][k % 4]
  {
  }
}
