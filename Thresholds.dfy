/** The fixed acceptance tolerances of `CameraViewModel`: the bounding box
    against the layout guide, the head pose, and the capture-quality cut-off.
    Arithmetic is exact (`real`); the source compares `CGFloat`/`Double`. */
module Thresholds {
  import opened FaceTypes

  /** A face may be at most this factor wider, or narrower, than the guide. */
  const SizeTolerance: real := 1.2
  /** Largest distance, in points, between the centres of face and guide on either axis. */
  const CentreTolerance: real := 50.0
  /** Roll must lie strictly between these two values (radians). */
  const RollLowerBound: real := 1.2
  const RollUpperBound: real := 1.6
  /** |pitch| and |yaw| must stay strictly below these (radians). */
  const PitchTolerance: real := 0.2
  const YawTolerance: real := 0.15
  /** A capture quality below this is low. */
  const QualityThreshold: real := 0.2

  /** updateAcceptableBounds: size first (too large, then too small), centring
      after, horizontal before vertical. */
  function AcceptableBounds(box: Rect, guide: Rect): (r: FaceBoundsState)
    ensures r != Unknown
    ensures r == DetectedFaceTooLarge <==> Width(box) > SizeTolerance * Width(guide)
    ensures r == DetectedFaceTooSmall <==>
      !(Width(box) > SizeTolerance * Width(guide)) && Width(box) * SizeTolerance < Width(guide)
    ensures r == DetectedFaceOffCentre <==>
      SizeAcceptable(box, guide) && !Centred(box, guide)
    ensures r == DetectedFaceAppropriateSizeAndPosition <==>
      SizeAcceptable(box, guide) && Centred(box, guide)
  {
    if Width(box) > SizeTolerance * Width(guide) then DetectedFaceTooLarge
    else if Width(box) * SizeTolerance < Width(guide) then DetectedFaceTooSmall
    else if Abs(MidX(box) - MidX(guide)) > CentreTolerance then DetectedFaceOffCentre
    else if Abs(MidY(box) - MidY(guide)) > CentreTolerance then DetectedFaceOffCentre
    else DetectedFaceAppropriateSizeAndPosition
  }

  /** The box is neither too large nor too small for the guide. */
  predicate SizeAcceptable(box: Rect, guide: Rect)
  {
    Width(guide) <= SizeTolerance * Width(box) && Width(box) <= SizeTolerance * Width(guide)
  }

  /** Both centres are within the tolerance of the guide's centre. */
  predicate Centred(box: Rect, guide: Rect)
  {
    Abs(MidX(box) - MidX(guide)) <= CentreTolerance && Abs(MidY(box) - MidY(guide)) <= CentreTolerance
  }

  /** updateAcceptableRollPitchYaw's roll test: a value outside the open
      interval, either end included, is rejected. */
  predicate AcceptableRoll(roll: real)
    ensures !AcceptableRoll(roll) <==> roll <= RollLowerBound || roll >= RollUpperBound
  {
    roll > RollLowerBound && roll < RollUpperBound
  }

  /** The pitch test: within the tolerance on either side of level, strictly. */
  predicate AcceptablePitch(pitch: real)
    ensures AcceptablePitch(pitch) <==> -PitchTolerance < pitch < PitchTolerance
  {
    Abs(pitch) < PitchTolerance
  }

  /** The yaw test: within the tolerance on either side of straight ahead, strictly. */
  predicate AcceptableYaw(yaw: real)
    ensures AcceptableYaw(yaw) <==> -YawTolerance < yaw < YawTolerance
  {
    Abs(yaw) < YawTolerance
  }

  /** A box moved by (dx, dy) keeps its size. */
  function Translate(box: Rect, dx: real, dy: real): (r: Rect)
    ensures Width(r) == Width(box) && Height(r) == Height(box)
    ensures MidX(r) == MidX(box) + dx && MidY(r) == MidY(box) + dy
  {
    Rect(box.x + dx, box.y + dy, box.sizeWidth, box.sizeHeight)
  }

  /** Size takes priority over position: a box too wide for the guide is
      "too large" wherever it is moved. */
  lemma TooLargeWhateverPosition(box: Rect, guide: Rect, dx: real, dy: real)
    requires Width(box) > SizeTolerance * Width(guide)
    ensures AcceptableBounds(Translate(box, dx, dy), guide) == DetectedFaceTooLarge
  {
  }

  /** A box that is not too wide but too narrow is "too small" wherever it is moved. */
  lemma TooSmallWhateverPosition(box: Rect, guide: Rect, dx: real, dy: real)
    requires !(Width(box) > SizeTolerance * Width(guide))
    requires Width(box) * SizeTolerance < Width(guide)
    ensures AcceptableBounds(Translate(box, dx, dy), guide) == DetectedFaceTooSmall
  {
  }

  /** Roll is accepted only on the open interval: both ends fail. */
  lemma RollOpenInterval(roll: real)
    ensures AcceptableRoll(roll) <==> RollLowerBound < roll < RollUpperBound
    ensures !AcceptableRoll(1.2) && !AcceptableRoll(1.6)
    ensures roll <= 1.2 || roll >= 1.6 ==> !AcceptableRoll(roll)
  {
  }

  /** Pitch and yaw are accepted only strictly inside their symmetric bands. */
  lemma PitchYawStrict(pitch: real, yaw: real)
    ensures AcceptablePitch(pitch) <==> -0.2 < pitch < 0.2
    ensures AcceptableYaw(yaw) <==> -0.15 < yaw < 0.15
    ensures !AcceptablePitch(0.2) && !AcceptablePitch(-0.2)
    ensures !AcceptableYaw(0.15) && !AcceptableYaw(-0.15)
  {
  }
}
