/** The state `CameraViewModel` publishes, and every one of its updates as a
    function from the old state to the new one.

    Swift runs a `didSet` observer after each assignment to an observed
    property, so one action unfolds into a chain of assignments: the setters
    `SetRoll` … `SetQuality` assign one check and then run
    `CalculateDetectedFaceValidity`, exactly as the source's observers do, and
    the handlers call them in the source's order. The optional
    `faceDetectionTimer` is `GraceTimer`: whether a timer is held, whether it
    is still scheduled (has neither fired nor been invalidated), and how many
    timers have been scheduled and invalidated so far, which makes a start
    followed by a cancel inside one action visible. The run loop firing the
    timer is the explicit `TimerFired` event. */
module Validation {
  import opened FaceTypes
  import opened Thresholds

  /** Timer.scheduledTimer(withTimeInterval: 2.0, repeats: false). */
  const GraceInterval: real := 2.0

  /** The five observed acceptability properties. */
  datatype Checks = Checks(
    isAcceptableRoll: bool,
    isAcceptablePitch: bool,
    isAcceptableYaw: bool,
    isAcceptableBounds: FaceBoundsState,
    isAcceptableQuality: bool)

  /** The published detector data: what was seen last, per kind. */
  datatype Observations = Observations(
    faceDetectedState: FaceDetectedState,
    faceGeometryState: FaceObservation<FaceGeometryModel>,
    faceQualityState: FaceObservation<FaceQualityModel>,
    faceSmileState: FaceObservation<FaceSmileModel>)

  /** faceDetectionTimer: `active` when the optional holds a timer, `pending`
      while that timer is still scheduled; `scheduled` and `invalidated` count
      the timers scheduled and invalidated so far. */
  datatype GraceTimer = GraceTimer(active: bool, pending: bool, scheduled: nat, invalidated: nat)

  datatype State = State(
    debugModeEnabled: bool,
    hasDetectedValidFace: bool,
    userCanSmile: bool,
    success: bool,
    hasDetectedSmile: bool,
    checks: Checks,
    observations: Observations,
    faceDetectionTimer: GraceTimer,
    faceLayoutGuideFrame: Rect)

  /** One thing the main queue delivers: an action, or the grace timer firing. */
  datatype Event = Act(action: CameraViewModelAction) | TimerFires

  // ---------------------------------------------------------------------------
  // Invariants

  /** The five sub-conditions of a valid face, all in their good variant. */
  predicate ChecksPass(c: Checks)
  {
    c.isAcceptableBounds == DetectedFaceAppropriateSizeAndPosition &&
    c.isAcceptableRoll && c.isAcceptablePitch && c.isAcceptableYaw && c.isAcceptableQuality
  }

  /** How the timer relates to validity: a timer is held exactly while the face
      is valid; smiling is permitted exactly when the held timer has fired; and
      every timer scheduled but the held one has been invalidated, so at most
      one is ever outstanding. */
  predicate TimerInv(s: State)
  {
    var t := s.faceDetectionTimer;
    t.active == s.hasDetectedValidFace &&
    (t.pending ==> t.active) &&
    (s.userCanSmile <==> t.active && !t.pending) &&
    t.scheduled == t.invalidated + (if t.active then 1 else 0)
  }

  /** The invariant every state between two events satisfies. */
  predicate Inv(s: State)
  {
    TimerInv(s) && s.hasDetectedValidFace == ChecksPass(s.checks)
  }

  /** `r` differs from `s` at most in validity, the smile permission and the timer. */
  predicate OnlyTimerFieldsDiffer(s: State, r: State)
  {
    r.debugModeEnabled == s.debugModeEnabled && r.success == s.success &&
    r.hasDetectedSmile == s.hasDetectedSmile && r.checks == s.checks &&
    r.observations == s.observations && r.faceLayoutGuideFrame == s.faceLayoutGuideFrame
  }

  /** `r` differs from `s` at most in the smile flag and the success latch. */
  predicate OnlySmileFieldsDiffer(s: State, r: State)
  {
    r.debugModeEnabled == s.debugModeEnabled && r.hasDetectedValidFace == s.hasDetectedValidFace &&
    r.userCanSmile == s.userCanSmile && r.checks == s.checks && r.observations == s.observations &&
    r.faceDetectionTimer == s.faceDetectionTimer && r.faceLayoutGuideFrame == s.faceLayoutGuideFrame
  }

  /** Across an update no timer is forgotten and no permission to smile is granted. */
  predicate Progress(s: State, r: State)
  {
    s.faceDetectionTimer.scheduled <= r.faceDetectionTimer.scheduled &&
    s.faceDetectionTimer.invalidated <= r.faceDetectionTimer.invalidated &&
    (r.userCanSmile ==> s.userCanSmile)
  }

  /** The state `init()` builds; `debugBuild` stands for the DEBUG compilation flag. */
  function Init(debugBuild: bool): (s: State)
    ensures Inv(s)
    ensures !s.hasDetectedValidFace && !s.userCanSmile && !s.success && !s.faceDetectionTimer.active
    ensures s.debugModeEnabled == debugBuild
  {
    State(
      debugModeEnabled := debugBuild,
      hasDetectedValidFace := false,
      userCanSmile := false,
      success := false,
      hasDetectedSmile := false,
      checks := Checks(false, false, false, Unknown, false),
      observations := Observations(FaceDetectedState.NoFaceDetected, FaceNotFound, FaceNotFound, FaceNotFound),
      faceDetectionTimer := GraceTimer(false, false, 0, 0),
      faceLayoutGuideFrame := Rect(0.0, 0.0, 200.0, 300.0))
  }

  // ---------------------------------------------------------------------------
  // Timer and validity

  /** startFaceDetectionTimer: schedules a single-shot timer unless one is held. */
  function StartFaceDetectionTimer(s: State): (r: State)
    ensures r.faceDetectionTimer.active
    ensures s.faceDetectionTimer.active ==> r == s
    ensures !s.faceDetectionTimer.active ==>
      r.faceDetectionTimer == s.faceDetectionTimer.(active := true, pending := true,
                                                     scheduled := s.faceDetectionTimer.scheduled + 1) &&
      r.userCanSmile == s.userCanSmile && r.hasDetectedValidFace == s.hasDetectedValidFace &&
      OnlyTimerFieldsDiffer(s, r)
  {
    var t := s.faceDetectionTimer;
    if t.active then s
    else s.(faceDetectionTimer := t.(active := true, pending := true, scheduled := t.scheduled + 1))
  }

  /** cancelFaceDetectionTimer: invalidates and drops the held timer, and
      withdraws the permission to smile. */
  function CancelFaceDetectionTimer(s: State): (r: State)
    ensures !r.faceDetectionTimer.active && !r.faceDetectionTimer.pending && !r.userCanSmile
    ensures r.faceDetectionTimer.scheduled == s.faceDetectionTimer.scheduled
    ensures r.faceDetectionTimer.invalidated ==
      s.faceDetectionTimer.invalidated + (if s.faceDetectionTimer.active then 1 else 0)
    ensures OnlyTimerFieldsDiffer(s, r) && r.hasDetectedValidFace == s.hasDetectedValidFace
  {
    var t := s.faceDetectionTimer;
    s.(userCanSmile := false,
       faceDetectionTimer := GraceTimer(false, false, t.scheduled,
                                        if t.active then t.invalidated + 1 else t.invalidated))
  }

  /** calculateDetectedFaceValidity: validity becomes the conjunction of the five
      sub-conditions; a false-to-true flip starts the timer, a true-to-false flip
      cancels it, and no flip touches nothing. */
  function CalculateDetectedFaceValidity(s: State): (r: State)
    ensures r.hasDetectedValidFace == ChecksPass(s.checks)
    ensures OnlyTimerFieldsDiffer(s, r)
    ensures r.hasDetectedValidFace == s.hasDetectedValidFace ==> r == s
    ensures !s.hasDetectedValidFace && r.hasDetectedValidFace ==>
      r.faceDetectionTimer.active && r.userCanSmile == s.userCanSmile &&
      (!s.faceDetectionTimer.active ==>
         r.faceDetectionTimer.pending &&
         r.faceDetectionTimer.scheduled == s.faceDetectionTimer.scheduled + 1 &&
         r.faceDetectionTimer.invalidated == s.faceDetectionTimer.invalidated)
    ensures s.hasDetectedValidFace && !r.hasDetectedValidFace ==>
      !r.faceDetectionTimer.active && !r.faceDetectionTimer.pending && !r.userCanSmile &&
      r.faceDetectionTimer.scheduled == s.faceDetectionTimer.scheduled
    ensures TimerInv(s) ==> TimerInv(r)
    ensures Progress(s, r)
  {
    var previouslyValid := s.hasDetectedValidFace;
    var s1 := s.(hasDetectedValidFace := ChecksPass(s.checks));
    if !previouslyValid && s1.hasDetectedValidFace then
      StartFaceDetectionTimer(s1)
    else if previouslyValid && !s1.hasDetectedValidFace then
      CancelFaceDetectionTimer(s1)
    else
      s1
  }

  /** The grace timer firing: permits smiling; the fired timer stays held. */
  function TimerFired(s: State): (r: State)
    ensures r.userCanSmile == (s.userCanSmile || s.faceDetectionTimer.pending)
    ensures r.faceDetectionTimer == s.faceDetectionTimer.(pending := false)
    ensures r.(userCanSmile := s.userCanSmile, faceDetectionTimer := s.faceDetectionTimer) == s
    ensures Inv(s) ==> Inv(r)
  {
    var t := s.faceDetectionTimer;
    if t.pending then s.(userCanSmile := true, faceDetectionTimer := t.(pending := false)) else s
  }

  // ---------------------------------------------------------------------------
  // The observed setters: one assignment, then its didSet observer

  function SetRoll(s: State, v: bool): (r: State)
    ensures r.checks == s.checks.(isAcceptableRoll := v)
    ensures OnlyTimerFieldsDiffer(s.(checks := r.checks), r)
    ensures r.hasDetectedValidFace == ChecksPass(r.checks)
    ensures TimerInv(s) ==> TimerInv(r)
    ensures Progress(s, r)
  {
    CalculateDetectedFaceValidity(s.(checks := s.checks.(isAcceptableRoll := v)))
  }

  function SetPitch(s: State, v: bool): (r: State)
    ensures r.checks == s.checks.(isAcceptablePitch := v)
    ensures OnlyTimerFieldsDiffer(s.(checks := r.checks), r)
    ensures r.hasDetectedValidFace == ChecksPass(r.checks)
    ensures TimerInv(s) ==> TimerInv(r)
    ensures Progress(s, r)
  {
    CalculateDetectedFaceValidity(s.(checks := s.checks.(isAcceptablePitch := v)))
  }

  function SetYaw(s: State, v: bool): (r: State)
    ensures r.checks == s.checks.(isAcceptableYaw := v)
    ensures OnlyTimerFieldsDiffer(s.(checks := r.checks), r)
    ensures r.hasDetectedValidFace == ChecksPass(r.checks)
    ensures TimerInv(s) ==> TimerInv(r)
    ensures Progress(s, r)
  {
    CalculateDetectedFaceValidity(s.(checks := s.checks.(isAcceptableYaw := v)))
  }

  function SetBounds(s: State, v: FaceBoundsState): (r: State)
    ensures r.checks == s.checks.(isAcceptableBounds := v)
    ensures OnlyTimerFieldsDiffer(s.(checks := r.checks), r)
    ensures r.hasDetectedValidFace == ChecksPass(r.checks)
    ensures TimerInv(s) ==> TimerInv(r)
    ensures Progress(s, r)
  {
    CalculateDetectedFaceValidity(s.(checks := s.checks.(isAcceptableBounds := v)))
  }

  function SetQuality(s: State, v: bool): (r: State)
    ensures r.checks == s.checks.(isAcceptableQuality := v)
    ensures OnlyTimerFieldsDiffer(s.(checks := r.checks), r)
    ensures r.hasDetectedValidFace == ChecksPass(r.checks)
    ensures TimerInv(s) ==> TimerInv(r)
    ensures Progress(s, r)
  {
    CalculateDetectedFaceValidity(s.(checks := s.checks.(isAcceptableQuality := v)))
  }

  /** handleSmile: while the face is valid and smiling is permitted, success
      follows the smile flag; otherwise success keeps its value. */
  function HandleSmile(s: State): (r: State)
    ensures OnlySmileFieldsDiffer(s, r) && r.hasDetectedSmile == s.hasDetectedSmile
    ensures s.hasDetectedValidFace && s.userCanSmile ==> r.success == s.hasDetectedSmile
    ensures !(s.hasDetectedValidFace && s.userCanSmile) ==> r.success == s.success
  {
    if s.hasDetectedValidFace && s.userCanSmile then s.(success := s.hasDetectedSmile) else s
  }

  function SetHasDetectedSmile(s: State, v: bool): (r: State)
    ensures OnlySmileFieldsDiffer(s, r) && r.hasDetectedSmile == v
    ensures s.hasDetectedValidFace && s.userCanSmile ==> r.success == v
    ensures !(s.hasDetectedValidFace && s.userCanSmile) ==> r.success == s.success
  {
    HandleSmile(s.(hasDetectedSmile := v))
  }

  // ---------------------------------------------------------------------------
  // Geometry, quality and smile processing

  /** invalidateFaceGeometryState: roll, pitch, yaw, then bounds. */
  function InvalidateFaceGeometryState(s: State): (r: State)
    ensures r.checks == s.checks.(isAcceptableRoll := false, isAcceptablePitch := false,
                                  isAcceptableYaw := false, isAcceptableBounds := Unknown)
    ensures OnlyTimerFieldsDiffer(s.(checks := r.checks), r) && !r.hasDetectedValidFace
    ensures s.hasDetectedValidFace ==>
      !r.faceDetectionTimer.active && !r.faceDetectionTimer.pending && !r.userCanSmile &&
      r.faceDetectionTimer.scheduled == s.faceDetectionTimer.scheduled
    ensures !s.hasDetectedValidFace ==>
      r.faceDetectionTimer == s.faceDetectionTimer && r.userCanSmile == s.userCanSmile
    ensures TimerInv(s) ==> TimerInv(r)
    ensures Progress(s, r)
  {
    var s1 := SetRoll(s, false);
    var s2 := SetPitch(s1, false);
    var s3 := SetYaw(s2, false);
    SetBounds(s3, Unknown)
  }

  /** updateAcceptableRollPitchYaw: roll, then pitch, then yaw. */
  function UpdateAcceptableRollPitchYaw(s: State, roll: real, pitch: real, yaw: real): (r: State)
    ensures r.checks == s.checks.(isAcceptableRoll := AcceptableRoll(roll),
                                  isAcceptablePitch := AcceptablePitch(pitch),
                                  isAcceptableYaw := AcceptableYaw(yaw))
    ensures OnlyTimerFieldsDiffer(s.(checks := r.checks), r)
    ensures r.hasDetectedValidFace == ChecksPass(r.checks)
    ensures TimerInv(s) ==> TimerInv(r)
    ensures Progress(s, r)
  {
    var s1 := SetRoll(s, AcceptableRoll(roll));
    var s2 := SetPitch(s1, AcceptablePitch(pitch));
    SetYaw(s2, AcceptableYaw(yaw))
  }

  /** updateAcceptableBounds: classifies the box against the current guide. */
  function UpdateAcceptableBounds(s: State, box: Rect): (r: State)
    ensures r.checks == s.checks.(isAcceptableBounds := AcceptableBounds(box, s.faceLayoutGuideFrame))
    ensures OnlyTimerFieldsDiffer(s.(checks := r.checks), r)
    ensures r.hasDetectedValidFace == ChecksPass(r.checks)
    ensures TimerInv(s) ==> TimerInv(r)
    ensures Progress(s, r)
  {
    SetBounds(s, AcceptableBounds(box, s.faceLayoutGuideFrame))
  }

  /** processUpdatedFaceGeometry: a lost or failed geometry observation
      invalidates all four geometry checks; a found one recomputes them, pose
      first and bounds last. */
  function ProcessUpdatedFaceGeometry(s: State): (r: State)
    ensures r.checks.isAcceptableQuality == s.checks.isAcceptableQuality
    ensures s.observations.faceGeometryState.FaceFound? ==>
      var g := s.observations.faceGeometryState.model;
      r.checks == Checks(AcceptableRoll(g.roll), AcceptablePitch(g.pitch), AcceptableYaw(g.yaw),
                         AcceptableBounds(g.boundingBox, s.faceLayoutGuideFrame),
                         s.checks.isAcceptableQuality)
    ensures !s.observations.faceGeometryState.FaceFound? ==>
      r.checks == s.checks.(isAcceptableRoll := false, isAcceptablePitch := false,
                            isAcceptableYaw := false, isAcceptableBounds := Unknown)
    ensures OnlyTimerFieldsDiffer(s.(checks := r.checks), r)
    ensures r.hasDetectedValidFace == ChecksPass(r.checks)
    ensures TimerInv(s) ==> TimerInv(r)
    ensures Progress(s, r)
  {
    match s.observations.faceGeometryState
    case FaceNotFound => InvalidateFaceGeometryState(s)
    case Errored(_) => InvalidateFaceGeometryState(s)
    case FaceFound(g) =>
      var s1 := UpdateAcceptableRollPitchYaw(s, g.roll, g.pitch, g.yaw);
      UpdateAcceptableBounds(s1, g.boundingBox)
  }

  /** The found branch of processUpdatedFaceQuality, as written: a low score
      assigns `false`, and `true` is assigned after it whatever the score. */
  function UpdateAcceptableQuality(s: State, quality: real): (r: State)
    ensures r.checks == s.checks.(isAcceptableQuality := true)
    ensures OnlyTimerFieldsDiffer(s.(checks := r.checks), r)
    ensures r.hasDetectedValidFace == ChecksPass(r.checks)
    ensures TimerInv(s) ==> TimerInv(r)
    ensures Progress(s, r)
  {
    var s1 := if quality < QualityThreshold then SetQuality(s, false) else s;
    SetQuality(s1, true)
  }

  /** processUpdatedFaceQuality: quality is acceptable exactly when a quality
      observation was found. */
  function ProcessUpdatedFaceQuality(s: State): (r: State)
    ensures r.checks == s.checks.(isAcceptableQuality := s.observations.faceQualityState.FaceFound?)
    ensures OnlyTimerFieldsDiffer(s.(checks := r.checks), r)
    ensures r.hasDetectedValidFace == ChecksPass(r.checks)
    ensures TimerInv(s) ==> TimerInv(r)
    ensures Progress(s, r)
  {
    match s.observations.faceQualityState
    case FaceNotFound => SetQuality(s, false)
    case Errored(_) => SetQuality(s, false)
    case FaceFound(q) => UpdateAcceptableQuality(s, q.quality)
  }

  /** processUpdatedFaceSmile: only while the face is valid, the smile flag
      follows the observation (false when none was found or it failed). */
  function ProcessUpdatedFaceSmile(s: State): (r: State)
    ensures !s.hasDetectedValidFace ==> r == s
    ensures s.hasDetectedValidFace ==>
      r.hasDetectedSmile == (s.observations.faceSmileState.FaceFound? &&
                             s.observations.faceSmileState.model.smileDetected)
    ensures OnlySmileFieldsDiffer(s, r)
    ensures !(s.hasDetectedValidFace && s.userCanSmile) ==> r.success == s.success
    ensures s.hasDetectedValidFace && s.userCanSmile ==> r.success == r.hasDetectedSmile
  {
    if s.hasDetectedValidFace then
      match s.observations.faceSmileState
      case FaceFound(m) => SetHasDetectedSmile(s, m.smileDetected)
      case FaceNotFound => SetHasDetectedSmile(s, false)
      case Errored(_) => SetHasDetectedSmile(s, false)
    else
      s
  }

  /** faceGeometryState's didSet: record the observation, then process it. */
  function SetFaceGeometryState(s: State, o: FaceObservation<FaceGeometryModel>): (r: State)
    ensures r.observations == s.observations.(faceGeometryState := o)
    ensures o.FaceFound? ==>
      r.checks == Checks(AcceptableRoll(o.model.roll), AcceptablePitch(o.model.pitch), AcceptableYaw(o.model.yaw),
                         AcceptableBounds(o.model.boundingBox, s.faceLayoutGuideFrame),
                         s.checks.isAcceptableQuality)
    ensures !o.FaceFound? ==>
      r.checks == s.checks.(isAcceptableRoll := false, isAcceptablePitch := false,
                            isAcceptableYaw := false, isAcceptableBounds := Unknown)
    ensures OnlyTimerFieldsDiffer(s.(checks := r.checks, observations := r.observations), r)
    ensures r.hasDetectedValidFace == ChecksPass(r.checks)
    ensures TimerInv(s) ==> TimerInv(r)
    ensures Progress(s, r)
  {
    ProcessUpdatedFaceGeometry(s.(observations := s.observations.(faceGeometryState := o)))
  }

  /** faceQualityState's didSet: record the observation, then process it. */
  function SetFaceQualityState(s: State, o: FaceObservation<FaceQualityModel>): (r: State)
    ensures r.observations == s.observations.(faceQualityState := o)
    ensures r.checks == s.checks.(isAcceptableQuality := o.FaceFound?)
    ensures OnlyTimerFieldsDiffer(s.(checks := r.checks, observations := r.observations), r)
    ensures r.hasDetectedValidFace == ChecksPass(r.checks)
    ensures TimerInv(s) ==> TimerInv(r)
    ensures Progress(s, r)
  {
    ProcessUpdatedFaceQuality(s.(observations := s.observations.(faceQualityState := o)))
  }

  /** faceSmileState's didSet: record the observation, then process it. */
  function SetFaceSmileState(s: State, o: FaceObservation<FaceSmileModel>): (r: State)
    ensures r.observations == s.observations.(faceSmileState := o)
    ensures !s.hasDetectedValidFace ==> r == s.(observations := r.observations)
    ensures s.hasDetectedValidFace ==> r.hasDetectedSmile == (o.FaceFound? && o.model.smileDetected)
    ensures OnlySmileFieldsDiffer(s.(observations := r.observations), r)
    ensures !(s.hasDetectedValidFace && s.userCanSmile) ==> r.success == s.success
    ensures s.hasDetectedValidFace && s.userCanSmile ==> r.success == r.hasDetectedSmile
  {
    ProcessUpdatedFaceSmile(s.(observations := s.observations.(faceSmileState := o)))
  }

  /** faceDetectedState has no observer: a plain assignment. */
  function SetFaceDetectedState(s: State, d: FaceDetectedState): (r: State)
    ensures r.observations.faceDetectedState == d
    ensures r.observations.(faceDetectedState := s.observations.faceDetectedState) == s.observations
    ensures r.(observations := s.observations) == s
  {
    s.(observations := s.observations.(faceDetectedState := d))
  }

  // ---------------------------------------------------------------------------
  // Action handlers and dispatch

  /** handleWindowSizeChanged: the guide keeps its size and is centred on the window. */
  function HandleWindowSizeChanged(s: State, windowRect: Rect): (r: State)
    ensures r == s.(faceLayoutGuideFrame := r.faceLayoutGuideFrame)
    ensures MidX(r.faceLayoutGuideFrame) == MidX(windowRect)
    ensures MidY(r.faceLayoutGuideFrame) == MidY(windowRect)
    ensures Width(r.faceLayoutGuideFrame) == Width(s.faceLayoutGuideFrame)
    ensures Height(r.faceLayoutGuideFrame) == Height(s.faceLayoutGuideFrame)
  {
    var guide := s.faceLayoutGuideFrame;
    s.(faceLayoutGuideFrame := Rect(
      MidX(windowRect) - Width(guide) / 2.0,
      MidY(windowRect) - Height(guide) / 2.0,
      Width(guide),
      Height(guide)))
  }

  /** publishNoFaceObserved: no face, and the geometry checks invalidated;
      quality, smile and success keep their values. */
  function PublishNoFaceObserved(s: State): (r: State)
    ensures r.observations == s.observations.(faceDetectedState := FaceDetectedState.NoFaceDetected,
                                              faceGeometryState := FaceNotFound)
    ensures r.checks == s.checks.(isAcceptableRoll := false, isAcceptablePitch := false,
                                  isAcceptableYaw := false, isAcceptableBounds := Unknown)
    ensures OnlyTimerFieldsDiffer(s.(checks := r.checks, observations := r.observations), r)
    ensures !r.hasDetectedValidFace
    ensures s.hasDetectedValidFace ==>
      !r.faceDetectionTimer.active && !r.faceDetectionTimer.pending && !r.userCanSmile &&
      r.faceDetectionTimer.scheduled == s.faceDetectionTimer.scheduled
    ensures !s.hasDetectedValidFace ==>
      r.faceDetectionTimer == s.faceDetectionTimer && r.userCanSmile == s.userCanSmile
    ensures TimerInv(s) ==> TimerInv(r)
    ensures Progress(s, r)
  {
    SetFaceGeometryState(SetFaceDetectedState(s, FaceDetectedState.NoFaceDetected), FaceNotFound)
  }

  /** publishFaceObservation: a face, and the four geometry checks recomputed
      from the thresholds against the current guide; quality, smile and
      success keep their values. */
  function PublishFaceObservation(s: State, g: FaceGeometryModel): (r: State)
    ensures r.observations == s.observations.(faceDetectedState := FaceDetected,
                                              faceGeometryState := FaceFound(g))
    ensures r.checks == Checks(AcceptableRoll(g.roll), AcceptablePitch(g.pitch), AcceptableYaw(g.yaw),
                               AcceptableBounds(g.boundingBox, s.faceLayoutGuideFrame),
                               s.checks.isAcceptableQuality)
    ensures OnlyTimerFieldsDiffer(s.(checks := r.checks, observations := r.observations), r)
    ensures r.hasDetectedValidFace == ChecksPass(r.checks)
    ensures TimerInv(s) ==> TimerInv(r)
    ensures Progress(s, r)
  {
    SetFaceGeometryState(SetFaceDetectedState(s, FaceDetected), FaceFound(g))
  }

  /** publishFaceQualityObservation: a face, and quality acceptable whatever
      the score; the geometry checks, smile and success keep their values. */
  function PublishFaceQualityObservation(s: State, q: FaceQualityModel): (r: State)
    ensures r.observations == s.observations.(faceDetectedState := FaceDetected,
                                              faceQualityState := FaceFound(q))
    ensures r.checks == s.checks.(isAcceptableQuality := true)
    ensures OnlyTimerFieldsDiffer(s.(checks := r.checks, observations := r.observations), r)
    ensures r.hasDetectedValidFace == ChecksPass(r.checks)
    ensures TimerInv(s) ==> TimerInv(r)
    ensures Progress(s, r)
  {
    SetFaceQualityState(SetFaceDetectedState(s, FaceDetected), FaceFound(q))
  }

  /** publishFaceSmileObservation: a face; while the face is valid the smile
      flag follows the observation, and while smiling is also permitted
      success follows the smile flag. */
  function PublishFaceSmileObservation(s: State, m: FaceSmileModel): (r: State)
    ensures r.observations == s.observations.(faceDetectedState := FaceDetected,
                                              faceSmileState := FaceFound(m))
    ensures !s.hasDetectedValidFace ==> r == s.(observations := r.observations)
    ensures s.hasDetectedValidFace ==> r.hasDetectedSmile == m.smileDetected
    ensures OnlySmileFieldsDiffer(s.(observations := r.observations), r)
    ensures !(s.hasDetectedValidFace && s.userCanSmile) ==> r.success == s.success
    ensures s.hasDetectedValidFace && s.userCanSmile ==> r.success == m.smileDetected
  {
    SetFaceSmileState(SetFaceDetectedState(s, FaceDetected), FaceFound(m))
  }

  /** toggleDebugMode: flips the debug flag and nothing else. */
  function ToggleDebugMode(s: State): (r: State)
    ensures r.debugModeEnabled != s.debugModeEnabled
    ensures r.(debugModeEnabled := s.debugModeEnabled) == s
  {
    s.(debugModeEnabled := !s.debugModeEnabled)
  }

  /** perform(action:), with each main-queue hop applied at once and in order. */
  function Perform(s: State, a: CameraViewModelAction): (r: State)
    ensures Inv(s) ==> Inv(r)
    ensures Progress(s, r)
  {
    match a
    case WindowSizeDetected(w) => HandleWindowSizeChanged(s, w)
    case NoFaceDetected => PublishNoFaceObserved(s)
    case FaceObservationDetected(g) => PublishFaceObservation(s, g)
    case ToggleDebugMode => ToggleDebugMode(s)
    case FaceQualityObservationDetected(q) => PublishFaceQualityObservation(s, q)
    case FaceSmaileObservationDetected(m) => PublishFaceSmileObservation(s, m)
  }

  /** One event: an action, or the grace timer firing. */
  function Apply(s: State, e: Event): (r: State)
    ensures Inv(s) ==> Inv(r)
    ensures e.Act? ==> Progress(s, r)
    ensures s.faceDetectionTimer.scheduled <= r.faceDetectionTimer.scheduled
    ensures s.faceDetectionTimer.invalidated <= r.faceDetectionTimer.invalidated
  {
    match e
    case Act(a) => Perform(s, a)
    case TimerFires => TimerFired(s)
  }

  /** The main queue draining `evs` one at a time, in order. */
  function Run(s: State, evs: seq<Event>): (r: State)
    ensures Inv(s) ==> Inv(r)
    ensures s.faceDetectionTimer.scheduled <= r.faceDetectionTimer.scheduled
    ensures s.faceDetectionTimer.invalidated <= r.faceDetectionTimer.invalidated
    decreases |evs|
  {
    if evs == [] then s else Run(Apply(s, evs[0]), evs[1..])
  }
}
