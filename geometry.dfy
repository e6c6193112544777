/** The per-side geometry of the arm test: folding an angle difference into
    [0, 180], the "wrist above shoulder" test in canvas pixels, and the
    target window around 45 degrees. The trigonometry that produces the raw
    angle difference is not modelled: the raw value is an input. */
module Geometry {

  /** A landmark, in the pose tracker's normalized image coordinates
      (y grows downwards). */
  datatype Point = Point(x: real, y: real)

  /** The arm elevation the test asks for, in degrees. */
  const TargetArmAngle: real := 45.0
  /** How far from the target an arm may be and still count, in degrees. */
  const AngleTolerance: real := 10.0

  function Abs(x: real): (r: real)
    ensures r >= 0.0 && (r == x || r == -x)
  {
    if x < 0.0 then -x else x
  }

  function Min(a: real, b: real): (r: real)
    ensures r <= a && r <= b && (r == a || r == b)
  {
    if a <= b then a else b
  }

  /** The last two steps of calculateAngle: take the absolute value of the
      raw difference of the two ray directions (in degrees) and, when it
      exceeds a half turn, replace it by its complement to a full turn. */
  function FoldAngle(rawDegrees: real): real
  {
    var angle := Abs(rawDegrees);
    if angle > 180.0 then 360.0 - angle else angle
  }

  /** The difference of two atan2 results lies strictly between -360 and 360
      degrees. On that range the folded angle is the shorter of the two
      rotations between the rays, hence lies in [0, 180]; a difference of at
      most a half turn is kept as it is. */
  lemma FoldIsShorterRotation(rawDegrees: real)
    requires -360.0 < rawDegrees < 360.0
    ensures 0.0 <= FoldAngle(rawDegrees) <= 180.0
    ensures FoldAngle(rawDegrees) == Min(Abs(rawDegrees), 360.0 - Abs(rawDegrees))
    ensures Abs(rawDegrees) <= 180.0 ==> FoldAngle(rawDegrees) == Abs(rawDegrees)
    ensures Abs(rawDegrees) > 180.0 ==> FoldAngle(rawDegrees) == 360.0 - Abs(rawDegrees)
  {
  }

  /** Swapping the two outer points of calculateAngle negates the raw
      difference; the folded angle does not change. */
  lemma FoldIsSymmetric(rawDegrees: real)
    ensures FoldAngle(-rawDegrees) == FoldAngle(rawDegrees)
  {
  }

  /** The fold relies on its input range: a raw value of a full turn or more
      would come out negative. */
  lemma FoldNeedsRange()
    ensures FoldAngle(400.0) < 0.0
  {
  }

  /** isWristAboveShoulder: both y coordinates are scaled by the canvas
      height before they are compared. */
  function IsWristAboveShoulder(shoulder: Point, wrist: Point, canvasHeight: real): bool
  {
    wrist.y * canvasHeight < shoulder.y * canvasHeight
  }

  /** For a canvas of positive height the scaling does not change the
      outcome: the wrist is above exactly when its normalized y is smaller.
      A canvas of height zero (a video whose size is not yet known) never
      reports a wrist above a shoulder. */
  lemma WristAboveIsUnscaled(shoulder: Point, wrist: Point, canvasHeight: real)
    requires canvasHeight >= 0.0
    ensures canvasHeight > 0.0 ==>
              (IsWristAboveShoulder(shoulder, wrist, canvasHeight) <==> wrist.y < shoulder.y)
    ensures canvasHeight == 0.0 ==> !IsWristAboveShoulder(shoulder, wrist, canvasHeight)
  {
  }

  /** The target test of processResults: the arm counts when its angle is
      less than the tolerance away from the target. */
  function WithinTarget(angle: real): bool
  {
    Abs(angle - TargetArmAngle) < AngleTolerance
  }

  /** The accepted angles form the open interval (35, 55): both ends are
      rejected. */
  lemma WithinTargetIsOpenWindow(angle: real)
    ensures WithinTarget(angle) <==> 35.0 < angle < 55.0
    ensures !WithinTarget(35.0) && !WithinTarget(55.0)
  {
  }

  /** The angle measured at the wrist, between the shoulder and the point
      below the wrist at shoulder height, is the complement of the arm's
      elevation at the shoulder. The window is symmetric about 45 degrees, so
      measuring the complement gives the same verdict as measuring the
      elevation itself. */
  lemma ComplementKeepsVerdict(elevation: real)
    ensures WithinTarget(90.0 - elevation) == WithinTarget(elevation)
  {
  }
}
