/** processResults: turns one frame's landmarks into the "in position"
    verdict. The loop visits the left side and then the right side; every
    eligible side overwrites the verdict, so the last eligible side decides. */
module Posture {
  import opened Wrappers
  import opened Geometry

  datatype Side = Left | Right

  /** The order in which processResults visits the sides. */
  const Sides: seq<Side> := [Left, Right]

  /** Indices of the shoulder and wrist landmarks in the pose tracker's output. */
  const LeftShoulderIndex: nat := 11
  const RightShoulderIndex: nat := 12
  const LeftWristIndex: nat := 15
  const RightWristIndex: nat := 16

  /** One frame's landmark list; an entry the tracker did not report is None,
      and so is any index past the end of the list. */
  type Landmarks = seq<Option<Point>>

  /** The raw angle difference (degrees, before the absolute value and the
      fold) that calculateAngle would produce for each side. */
  datatype Readings = Readings(left: real, right: real) {
    function At(side: Side): real {
      match side
      case Left => left
      case Right => right
    }
  }

  function LandmarkAt(lms: Landmarks, i: nat): (p: Option<Point>)
    ensures p.Some? ==> i < |lms| && lms[i] == p
  {
    if i < |lms| then lms[i] else None
  }

  function ShoulderOf(lms: Landmarks, side: Side): Option<Point> {
    LandmarkAt(lms, if side == Right then RightShoulderIndex else LeftShoulderIndex)
  }

  function WristOf(lms: Landmarks, side: Side): Option<Point> {
    LandmarkAt(lms, if side == Right then RightWristIndex else LeftWristIndex)
  }

  /** Both landmarks of the side were reported. */
  predicate Present(lms: Landmarks, side: Side) {
    ShoulderOf(lms, side).Some? && WristOf(lms, side).Some?
  }

  /** The side takes part in the verdict: both landmarks are there and the
      wrist is above the shoulder on the canvas. */
  predicate Eligible(lms: Landmarks, canvasHeight: nat, side: Side) {
    Present(lms, side) &&
    IsWristAboveShoulder(ShoulderOf(lms, side).value, WristOf(lms, side).value, canvasHeight as real)
  }

  /** The verdict an eligible side writes: its folded angle is in the window. */
  predicate SideVerdict(readings: Readings, side: Side) {
    WithinTarget(FoldAngle(readings.At(side)))
  }

  /** One iteration of the side loop, applied to the current flag. */
  function VisitSide(lms: Landmarks, canvasHeight: nat, readings: Readings, side: Side, flag: bool): bool {
    if Eligible(lms, canvasHeight, side) then SideVerdict(readings, side) else flag
  }

  /** The side loop run over `sides` in order, starting from `flag`. */
  function ScanSides(lms: Landmarks, canvasHeight: nat, readings: Readings, sides: seq<Side>, flag: bool): (r: bool)
    ensures (forall k :: 0 <= k < |sides| ==> !Eligible(lms, canvasHeight, sides[k])) ==> r == flag
    ensures (exists k :: 0 <= k < |sides| && Eligible(lms, canvasHeight, sides[k])) ==>
              exists k :: 0 <= k < |sides| && Eligible(lms, canvasHeight, sides[k]) && r == SideVerdict(readings, sides[k])
  {
    if sides == [] then flag
    else
      var prefix := sides[..|sides| - 1];
      VisitSide(lms, canvasHeight, readings, sides[|sides| - 1], ScanSides(lms, canvasHeight, readings, prefix, flag))
  }

  /** Reference definition of the frame verdict: the right side's verdict if
      it is eligible, else the left side's if that one is, else false. */
  predicate FrameVerdict(lms: Landmarks, canvasHeight: nat, readings: Readings) {
    if Eligible(lms, canvasHeight, Right) then SideVerdict(readings, Right)
    else if Eligible(lms, canvasHeight, Left) then SideVerdict(readings, Left)
    else false
  }

  /** Visiting left then right from a false flag yields the reference verdict. */
  lemma ScanIsLastEligible(lms: Landmarks, canvasHeight: nat, readings: Readings)
    ensures ScanSides(lms, canvasHeight, readings, Sides, false) == FrameVerdict(lms, canvasHeight, readings)
  {
  }

  /** Drawing the shoulder line dereferences both shoulders for every side
      whose own shoulder and wrist are there; when the other shoulder is
      missing this throws, and the rest of processResults never runs. */
  predicate Throws(lms: Landmarks) {
    exists side :: Present(lms, side) &&
      (LandmarkAt(lms, LeftShoulderIndex).None? || LandmarkAt(lms, RightShoulderIndex).None?)
  }

  /** The verdict processResults hands to setIsInPosition, or None when it
      returns early (no video element, no landmarks) or throws first. */
  function ProcessResults(hasVideo: bool, canvasHeight: nat, landmarks: Option<Landmarks>, readings: Readings): (r: Option<bool>)
    ensures r.Some? <==> hasVideo && landmarks.Some? && !Throws(landmarks.value)
    ensures r.Some? ==> (r.value <==>
              exists side :: Eligible(landmarks.value, canvasHeight, side) && SideVerdict(readings, side)
                && (side == Left ==> !Eligible(landmarks.value, canvasHeight, Right)))
  {
    if !hasVideo || landmarks.None? || Throws(landmarks.value) then None
    else Some(FrameVerdict(landmarks.value, canvasHeight, readings))
  }

  /** processResults without its drawing: the early returns, then the loop
      over the sides that overwrites `allInPosition` for each eligible side. */
  method EvaluateFrame(hasVideo: bool, canvasHeight: nat, landmarks: Option<Landmarks>, readings: Readings)
    returns (verdict: Option<bool>)
    ensures verdict == ProcessResults(hasVideo, canvasHeight, landmarks, readings)
  {
    if !hasVideo {
      return None;
    }
    if landmarks.None? {
      return None;
    }
    var lms := landmarks.value;
    var leftShoulder := LandmarkAt(lms, LeftShoulderIndex);
    var rightShoulder := LandmarkAt(lms, RightShoulderIndex);
    var leftWrist := LandmarkAt(lms, LeftWristIndex);
    var rightWrist := LandmarkAt(lms, RightWristIndex);

    var allInPosition := false;
    var i := 0;
    while i < |Sides|
      invariant 0 <= i <= |Sides|
      invariant allInPosition == ScanSides(lms, canvasHeight, readings, Sides[..i], false)
      invariant forall k :: 0 <= k < i && Present(lms, Sides[k]) ==> leftShoulder.Some? && rightShoulder.Some?
    {
      var side := Sides[i];
      var shoulder := if side == Right then rightShoulder else leftShoulder;
      var wrist := if side == Right then rightWrist else leftWrist;
      if shoulder.Some? && wrist.Some? {
        if leftShoulder.None? || rightShoulder.None? {
          assert Present(lms, side);
          return None;
        }
        if IsWristAboveShoulder(shoulder.value, wrist.value, canvasHeight as real) {
          var armAngle := FoldAngle(readings.At(side));
          allInPosition := WithinTarget(armAngle);
        }
      }
      assert Sides[..i + 1][..i] == Sides[..i];
      i := i + 1;
    }
    assert Sides[..i] == Sides;
    assert !Throws(lms) by {
      assert Sides[0] == Left && Sides[1] == Right;
    }
    ScanIsLastEligible(lms, canvasHeight, readings);
    return Some(allInPosition);
  }

  /** A side whose shoulder or wrist is missing, or whose wrist is not above
      its shoulder, leaves the flag as it was. */
  lemma IneligibleSideKeepsFlag(lms: Landmarks, canvasHeight: nat, readings: Readings, side: Side, flag: bool)
    requires !Present(lms, side) || !IsWristAboveShoulder(ShoulderOf(lms, side).value, WristOf(lms, side).value, canvasHeight as real)
    ensures VisitSide(lms, canvasHeight, readings, side, flag) == flag
  {
  }

  /** The frame verdict is true exactly when the deciding side has its folded
      angle strictly between 35 and 55 degrees. */
  lemma VerdictMeansDecidingSideInWindow(lms: Landmarks, canvasHeight: nat, readings: Readings)
    ensures FrameVerdict(lms, canvasHeight, readings) <==>
      (Eligible(lms, canvasHeight, Right) && 35.0 < FoldAngle(readings.right) < 55.0) ||
      (!Eligible(lms, canvasHeight, Right) && Eligible(lms, canvasHeight, Left) && 35.0 < FoldAngle(readings.left) < 55.0)
  {
  }

  /** A frame whose four arm landmarks are given, laid out as the tracker
      lays them out. */
  function Pose(leftShoulder: Point, rightShoulder: Point, leftWrist: Point, rightWrist: Point): (lms: Landmarks)
    ensures |lms| == 17
    ensures ShoulderOf(lms, Left) == Some(leftShoulder) && ShoulderOf(lms, Right) == Some(rightShoulder)
    ensures WristOf(lms, Left) == Some(leftWrist) && WristOf(lms, Right) == Some(rightWrist)
  {
    seq(17, i =>
      if i == LeftShoulderIndex then Some(leftShoulder)
      else if i == RightShoulderIndex then Some(rightShoulder)
      else if i == LeftWristIndex then Some(leftWrist)
      else if i == RightWristIndex then Some(rightWrist)
      else None)
  }

  /** The verdict is not an OR of the sides: a left arm in the window is
      overruled by a raised right arm outside it. On a 640 x 480 canvas these
      landmarks give raw differences of about 53.13 degrees on the left and
      -69.44 degrees on the right. */
  lemma VerdictIsNotOr()
    ensures var lms := Pose(Point(0.3, 0.5), Point(0.7, 0.5), Point(0.2, 0.4), Point(0.8, 0.45));
            Eligible(lms, 480, Left) && SideVerdict(Readings(53.13, -69.44), Left) &&
            ProcessResults(true, 480, Some(lms), Readings(53.13, -69.44)) == Some(false)
  {
  }

  /** A raised right arm with the shoulder at (100, 100) and the wrist at
      (140, 58) on a 400 x 400 canvas makes a 43.6 degree angle at the wrist
      and is in position while the left arm hangs down (the reading of an
      ineligible side is never used); a wrist below its shoulder makes the
      side ineligible whatever its horizontal offset. */
  lemma RaisedArmScenario(dx: real)
    ensures var lms := Pose(Point(0.6, 0.25), Point(0.25, 0.25), Point(0.6, 0.5), Point(0.35, 0.145));
            ProcessResults(true, 400, Some(lms), Readings(0.0, -43.6)) == Some(true)
    ensures !Eligible(Pose(Point(0.25, 0.25), Point(0.6, 0.25), Point(0.25 + dx, 0.3), Point(0.6, 0.5)), 400, Left)
  {
  }
}
