/** The instruction the overlay shows above the camera preview, chosen from
    the view model's published state: the detector state first, then, for a
    detected face, validity and the smile permission, then the first failing
    check in a fixed order. */
module Instructions {
  import opened FaceTypes
  import opened Validation
  import opened ValidationProperties

  /** One message per branch of the label. `Unrecognised` is the last `else`;
      it shows the same text as `FaceDetectionError`, so on screen it reads as
      a detection error. */
  datatype Instruction =
    | FaceDetectionError
    | LookAtCamera
    | Success
    | PleaseSmile
    | StayInFrame
    | MoveCloser
    | MoveFarther
    | CentreFace
    | LookStraight
    | LowQuality
    | Unrecognised

  /** The text shown for each message. */
  function Text(m: Instruction): string
  {
    match m
    case FaceDetectionError => "Ошибка распознавания лица"
    case LookAtCamera => "Пожалуйста, смотрите в камеру"
    case Success => "Успех!"
    case PleaseSmile => "Пожалуйста улыбнитесь"
    case StayInFrame => "Обнаружено лицо, оставайтесь в рамке..."
    case MoveCloser => "Пожалуйста, приблизьте лицо к камере"
    case MoveFarther => "Пожалуйста, держите камеру подальше от лица"
    case CentreFace => "Пожалуйста, держите лицо в центр рамки"
    case LookStraight => "Пожалуйста, смотрите прямо в камеру"
    case LowQuality => "Слишком низкое качество изображения"
    case Unrecognised => "Ошибка распознавания лица"
  }

  /** Roll, pitch and yaw all acceptable. */
  predicate PoseAcceptable(c: Checks)
  {
    c.isAcceptableRoll && c.isAcceptablePitch && c.isAcceptableYaw
  }

  /** The bounds state names no size or centring problem. */
  predicate BoundsSilent(c: Checks)
  {
    c.isAcceptableBounds == Unknown || c.isAcceptableBounds == DetectedFaceAppropriateSizeAndPosition
  }

  /** faceDetectionStateLabel: one message for every published state, each
      shown exactly under its condition. */
  function FaceDetectionStateLabel(s: State): (m: Instruction)
    ensures m == FaceDetectionError <==> s.observations.faceDetectedState == FaceDetectionErrored
    ensures m == LookAtCamera <==> s.observations.faceDetectedState == FaceDetectedState.NoFaceDetected
    ensures s.observations.faceDetectedState == FaceDetected ==> m !in {FaceDetectionError, LookAtCamera}
    ensures m == Success <==>
      s.observations.faceDetectedState == FaceDetected && s.hasDetectedValidFace && s.userCanSmile && s.success
    ensures m == PleaseSmile <==>
      s.observations.faceDetectedState == FaceDetected && s.hasDetectedValidFace && s.userCanSmile && !s.success
    ensures m == StayInFrame <==>
      s.observations.faceDetectedState == FaceDetected && s.hasDetectedValidFace && !s.userCanSmile
    ensures m == MoveCloser <==>
      s.observations.faceDetectedState == FaceDetected && !s.hasDetectedValidFace &&
      s.checks.isAcceptableBounds == DetectedFaceTooSmall
    ensures m == MoveFarther <==>
      s.observations.faceDetectedState == FaceDetected && !s.hasDetectedValidFace &&
      s.checks.isAcceptableBounds == DetectedFaceTooLarge
    ensures m == CentreFace <==>
      s.observations.faceDetectedState == FaceDetected && !s.hasDetectedValidFace &&
      s.checks.isAcceptableBounds == DetectedFaceOffCentre
    ensures m == LookStraight <==>
      s.observations.faceDetectedState == FaceDetected && !s.hasDetectedValidFace &&
      BoundsSilent(s.checks) && !PoseAcceptable(s.checks)
    ensures m == LowQuality <==>
      s.observations.faceDetectedState == FaceDetected && !s.hasDetectedValidFace &&
      BoundsSilent(s.checks) && PoseAcceptable(s.checks) && !s.checks.isAcceptableQuality
    ensures m == Unrecognised <==>
      s.observations.faceDetectedState == FaceDetected && !s.hasDetectedValidFace &&
      BoundsSilent(s.checks) && PoseAcceptable(s.checks) && s.checks.isAcceptableQuality
  {
    match s.observations.faceDetectedState
    case FaceDetectionErrored => FaceDetectionError
    case NoFaceDetected => LookAtCamera
    case FaceDetected =>
      if s.hasDetectedValidFace && s.userCanSmile && s.success then Success
      else if s.hasDetectedValidFace && s.userCanSmile then PleaseSmile
      else if s.hasDetectedValidFace then StayInFrame
      else if s.checks.isAcceptableBounds == DetectedFaceTooSmall then MoveCloser
      else if s.checks.isAcceptableBounds == DetectedFaceTooLarge then MoveFarther
      else if s.checks.isAcceptableBounds == DetectedFaceOffCentre then CentreFace
      else if !s.checks.isAcceptableRoll || !s.checks.isAcceptablePitch || !s.checks.isAcceptableYaw then LookStraight
      else if !s.checks.isAcceptableQuality then LowQuality
      else Unrecognised
  }

  /** Between events, the three "valid face" messages are shown exactly when
      a face is detected and all five checks pass; while a timer is pending
      the face is asked to stay in frame, and once it has fired, to smile. */
  lemma LabelFollowsTimer(s: State)
    requires Inv(s) && s.observations.faceDetectedState == FaceDetected
    ensures FaceDetectionStateLabel(s) in {Success, PleaseSmile, StayInFrame} <==> ChecksPass(s.checks)
    ensures FaceDetectionStateLabel(s) == StayInFrame <==> ChecksPass(s.checks) && s.faceDetectionTimer.pending
    ensures FaceDetectionStateLabel(s) in {Success, PleaseSmile} <==>
      ChecksPass(s.checks) && s.faceDetectionTimer.active && !s.faceDetectionTimer.pending
  {
  }

  /** Between events, the last `else` is shown for a detected face only while
      the bounds are unknown and the other four checks pass. */
  lemma FallbackOnlyWithUnknownBounds(s: State)
    requires Inv(s) && s.observations.faceDetectedState == FaceDetected
    ensures FaceDetectionStateLabel(s) == Unrecognised <==>
      s.checks.isAcceptableBounds == Unknown && PoseAcceptable(s.checks) && s.checks.isAcceptableQuality
  {
  }

  /** No sequence of events from the initial state reaches the last `else`:
      unknown bounds always come with an unacceptable pose. */
  lemma FallbackUnreachable(debugBuild: bool, evs: seq<Event>)
    ensures FaceDetectionStateLabel(Run(Init(debugBuild), evs)) != Unrecognised
  {
    InitGeometryCoherent(debugBuild);
    RunKeepsGeometryCoherent(Init(debugBuild), evs);
    RunPreservesInv(Init(debugBuild), evs);
  }

  /** The scenario of a good face, a good quality score, the grace period
      ending and a smile: "stay in frame", then "please smile", then "success". */
  lemma ScenarioLabels()
    ensures var s2 := Perform(Perform(Init(false), FaceObservationDetected(GoodGeometry())),
                              FaceQualityObservationDetected(FaceQualityModel(0.5)));
      var s3 := TimerFired(s2);
      var s4 := Perform(s3, FaceSmaileObservationDetected(FaceSmileModel(true)));
      FaceDetectionStateLabel(s2) == StayInFrame &&
      FaceDetectionStateLabel(s3) == PleaseSmile &&
      FaceDetectionStateLabel(s4) == Success
  {
    ScenarioValidFaceThenSmile();
  }
}
