/** What the view model's updates guarantee: the invariant every action and
    every timer firing keeps, the net effect of each action on the checks and
    the timer, the smile and success rules, idempotence, and properties of
    whole event sequences. */
module ValidationProperties {
  import opened FaceTypes
  import opened Thresholds
  import opened Validation

  // ---------------------------------------------------------------------------
  // The invariant

  /** Every action keeps the invariant. */
  lemma PerformPreservesInv(s: State, a: CameraViewModelAction)
    requires Inv(s)
    ensures Inv(Perform(s, a))
  {
    match a
    case WindowSizeDetected(w) =>
    case NoFaceDetected =>
    case FaceObservationDetected(g) =>
    case ToggleDebugMode =>
    case FaceQualityObservationDetected(q) =>
    case FaceSmaileObservationDetected(m) =>
  }

  lemma ApplyPreservesInv(s: State, e: Event)
    requires Inv(s)
    ensures Inv(Apply(s, e))
  {
    if e.Act? {
      PerformPreservesInv(s, e.action);
    }
  }

  /** The invariant holds after any sequence of events from a state that has it. */
  lemma {:induction false} RunPreservesInv(s: State, evs: seq<Event>)
    requires Inv(s)
    ensures Inv(Run(s, evs))
    decreases |evs|
  {
    if evs != [] {
      ApplyPreservesInv(s, evs[0]);
      RunPreservesInv(Apply(s, evs[0]), evs[1..]);
    }
  }

  /** Validity is the conjunction of the five sub-conditions: once any one
      fails, the face is not valid. */
  lemma ValidIffAllFive(s: State)
    requires Inv(s)
    ensures s.hasDetectedValidFace <==>
      s.checks.isAcceptableBounds == DetectedFaceAppropriateSizeAndPosition &&
      s.checks.isAcceptableRoll && s.checks.isAcceptablePitch &&
      s.checks.isAcceptableYaw && s.checks.isAcceptableQuality
  {
  }

  // ---------------------------------------------------------------------------
  // Timer

  /** Under the invariant the guard of startFaceDetectionTimer never blocks:
      a false-to-true flip always schedules a fresh timer, and smiling stays
      forbidden until it fires. */
  lemma FlipAlwaysSchedules(s: State)
    requires TimerInv(s)
    requires !s.hasDetectedValidFace && ChecksPass(s.checks)
    ensures var r := CalculateDetectedFaceValidity(s);
      r.faceDetectionTimer.pending && !r.userCanSmile &&
      r.faceDetectionTimer.scheduled == s.faceDetectionTimer.scheduled + 1
  {
  }

  /** A timer is scheduled only on a false-to-true flip of validity and
      invalidated only on a true-to-false flip; a recomputation that does not
      change validity touches neither the timer nor the smile permission. */
  lemma TimerOnlyOnFlips(s: State)
    ensures var r := CalculateDetectedFaceValidity(s);
      (r.faceDetectionTimer.scheduled != s.faceDetectionTimer.scheduled ==>
         !s.hasDetectedValidFace && r.hasDetectedValidFace) &&
      (r.faceDetectionTimer.invalidated != s.faceDetectionTimer.invalidated ==>
         s.hasDetectedValidFace && !r.hasDetectedValidFace) &&
      (r.hasDetectedValidFace == s.hasDetectedValidFace ==>
         r.faceDetectionTimer == s.faceDetectionTimer && r.userCanSmile == s.userCanSmile)
  {
  }

  /** Starting while a timer is held is a no-op, even once that timer has fired. */
  lemma StartWhileHeldIsNoOp(s: State)
    requires s.faceDetectionTimer.active
    ensures StartFaceDetectionTimer(s) == s
  {
  }

  /** After any sequence of events at most one scheduled timer has not been
      invalidated, and it is the one held. */
  lemma AtMostOneOutstandingTimer(s: State, evs: seq<Event>)
    requires Inv(s)
    ensures var t := Run(s, evs).faceDetectionTimer;
      t.scheduled == t.invalidated || (t.scheduled == t.invalidated + 1 && t.active)
  {
    RunPreservesInv(s, evs);
  }

  // ---------------------------------------------------------------------------
  // Geometry

  /** The smile permission has no observer: when the grace period ends while
      the face is already smiling, success stays false until the next smile
      observation arrives, which then sets it. */
  lemma FiringDoesNotLatchSmile(s: State)
    requires Inv(s) && s.faceDetectionTimer.pending && s.hasDetectedSmile && !s.success
    ensures var r := TimerFired(s);
      r.userCanSmile && r.hasDetectedSmile && !r.success &&
      Perform(r, FaceSmaileObservationDetected(FaceSmileModel(true))).success
  {
  }

  /** Losing the face invalidates the four geometry checks, leaves quality,
      smile and success alone, and cancels the timer if the face was valid. */
  lemma NoFaceInvalidatesGeometry(s: State)
    ensures var r := Perform(s, CameraViewModelAction.NoFaceDetected);
      r.observations.faceDetectedState == FaceDetectedState.NoFaceDetected &&
      r.observations.faceGeometryState == FaceNotFound &&
      !r.checks.isAcceptableRoll && !r.checks.isAcceptablePitch && !r.checks.isAcceptableYaw &&
      r.checks.isAcceptableBounds == Unknown && !r.hasDetectedValidFace &&
      r.checks.isAcceptableQuality == s.checks.isAcceptableQuality &&
      r.hasDetectedSmile == s.hasDetectedSmile && r.success == s.success &&
      (s.hasDetectedValidFace ==> !r.faceDetectionTimer.active && !r.userCanSmile)
  {
  }

  /** A failed geometry observation has the same effect on the checks as a lost one. */
  lemma ErroredGeometryInvalidates(s: State, reason: string)
    ensures var r := SetFaceGeometryState(s, Errored(reason));
      !r.checks.isAcceptableRoll && !r.checks.isAcceptablePitch && !r.checks.isAcceptableYaw &&
      r.checks.isAcceptableBounds == Unknown && !r.hasDetectedValidFace &&
      r.checks == SetFaceGeometryState(s, FaceNotFound).checks
  {
  }

  /** The four geometry assignments in source order, from an invalid face:
      validity can rise only once, since a check it drops on the way keeps its
      bad value to the end. */
  lemma GeometryAssignmentsFromInvalid(s0: State, roll: bool, pitch: bool, yaw: bool, bounds: FaceBoundsState)
    requires TimerInv(s0) && !s0.hasDetectedValidFace
    ensures var r := SetBounds(SetYaw(SetPitch(SetRoll(s0, roll), pitch), yaw), bounds);
      var t := s0.faceDetectionTimer;
      !r.userCanSmile &&
      (r.hasDetectedValidFace ==> r.faceDetectionTimer == GraceTimer(true, true, t.scheduled + 1, t.invalidated)) &&
      (!r.hasDetectedValidFace ==>
         r.faceDetectionTimer == t ||
         r.faceDetectionTimer == GraceTimer(false, false, t.scheduled + 1, t.invalidated + 1)) &&
      (!s0.checks.isAcceptableQuality ==> r.faceDetectionTimer == t)
  {
    var s1 := SetRoll(s0, roll);
    var s2 := SetPitch(s1, pitch);
    var s3 := SetYaw(s2, yaw);
  }

  /** From an invalid face, one geometry observation schedules at most one
      timer. If the face ends valid, a fresh grace period runs; if not, either
      nothing happened or a timer was scheduled and invalidated within the one
      observation. While quality is unacceptable the timer is not touched. */
  lemma GeometryFromInvalidFace(s: State, g: FaceGeometryModel)
    requires Inv(s) && !s.hasDetectedValidFace
    ensures var r := Perform(s, FaceObservationDetected(g));
      var t := s.faceDetectionTimer;
      !r.userCanSmile &&
      (r.hasDetectedValidFace ==> r.faceDetectionTimer == GraceTimer(true, true, t.scheduled + 1, t.invalidated)) &&
      (!r.hasDetectedValidFace ==>
         r.faceDetectionTimer == t ||
         r.faceDetectionTimer == GraceTimer(false, false, t.scheduled + 1, t.invalidated + 1)) &&
      (!s.checks.isAcceptableQuality ==> r.faceDetectionTimer == t)
  {
    var s0 := SetFaceDetectedState(s, FaceDetected).(observations :=
      SetFaceDetectedState(s, FaceDetected).observations.(faceGeometryState := FaceFound(g)));
    GeometryAssignmentsFromInvalid(s0, AcceptableRoll(g.roll), AcceptablePitch(g.pitch), AcceptableYaw(g.yaw),
                                   AcceptableBounds(g.boundingBox, s.faceLayoutGuideFrame));
  }

  /** A valid face that a found geometry leaves valid keeps its timer and its
      permission to smile: the in-order assignments never pass through an
      invalid state on the way. */
  lemma GeometryKeepsValidFaceSteady(s: State, g: FaceGeometryModel)
    requires Inv(s) && s.hasDetectedValidFace
    requires Perform(s, FaceObservationDetected(g)).hasDetectedValidFace
    ensures var r := Perform(s, FaceObservationDetected(g));
      r.faceDetectionTimer == s.faceDetectionTimer && r.userCanSmile == s.userCanSmile
  {
    var s0 := SetFaceDetectedState(s, FaceDetected).(observations :=
      SetFaceDetectedState(s, FaceDetected).observations.(faceGeometryState := FaceFound(g)));
    var s1 := SetRoll(s0, AcceptableRoll(g.roll));
    var s2 := SetPitch(s1, AcceptablePitch(g.pitch));
    var s3 := SetYaw(s2, AcceptableYaw(g.yaw));
    var r := SetBounds(s3, AcceptableBounds(g.boundingBox, s.faceLayoutGuideFrame));
    assert Perform(s, FaceObservationDetected(g)) == r;
    assert s1.faceDetectionTimer == s.faceDetectionTimer && s1.hasDetectedValidFace;
    assert s2.faceDetectionTimer == s.faceDetectionTimer && s2.hasDetectedValidFace;
    assert s3.faceDetectionTimer == s.faceDetectionTimer && s3.hasDetectedValidFace;
  }

  /** The pair the in-order assignments make visible: from an invalid face, an
      observation with a good pose but too large a box schedules a timer after
      the yaw assignment and invalidates it after the bounds assignment. */
  lemma StartThenCancelWithinOneObservation()
    ensures var s := Init(false).(checks := Checks(true, true, false, DetectedFaceAppropriateSizeAndPosition, true));
      var g := FaceGeometryModel(Rect(0.0, 0.0, 400.0, 300.0), 1.4, 0.0, 0.0);
      var r := Perform(s, FaceObservationDetected(g));
      Inv(s) && !r.hasDetectedValidFace &&
      r.faceDetectionTimer == GraceTimer(false, false, 1, 1)
  {
    var s := Init(false).(checks := Checks(true, true, false, DetectedFaceAppropriateSizeAndPosition, true));
    var g := FaceGeometryModel(Rect(0.0, 0.0, 400.0, 300.0), 1.4, 0.0, 0.0);
    assert AcceptableRoll(1.4) && AcceptablePitch(0.0) && AcceptableYaw(0.0);
    assert AcceptableBounds(g.boundingBox, s.faceLayoutGuideFrame) == DetectedFaceTooLarge;
  }

  // ---------------------------------------------------------------------------
  // Quality

  /** As written, any found quality observation leaves quality acceptable,
      also below the threshold; the geometry checks are not touched. */
  lemma QualityFoundAlwaysAcceptable(s: State, q: FaceQualityModel)
    ensures var r := Perform(s, FaceQualityObservationDetected(q));
      r.checks == s.checks.(isAcceptableQuality := true) &&
      r.observations.faceDetectedState == FaceDetected
    ensures Perform(s, FaceQualityObservationDetected(FaceQualityModel(0.0))).checks.isAcceptableQuality
  {
  }

  /** A lost or failed quality observation makes quality unacceptable and the
      face invalid, whatever the geometry checks say. */
  lemma QualityLossInvalidates(s: State, o: FaceObservation<FaceQualityModel>)
    requires !o.FaceFound?
    ensures var r := SetFaceQualityState(s, o);
      r.checks == s.checks.(isAcceptableQuality := false) && !r.hasDetectedValidFace
  {
  }

  /** A quality "no result" reaches the view model as noFaceDetected, which
      leaves the quality check as it was. */
  lemma NoFaceKeepsQuality(s: State)
    ensures Perform(s, CameraViewModelAction.NoFaceDetected).checks.isAcceptableQuality ==
      s.checks.isAcceptableQuality
  {
  }

  /** Consequence of the `false`-then-`true` assignments: a low score while the
      face is valid cancels the grace timer, withdraws the smile permission and
      schedules a new timer, although the face is valid before and after. */
  lemma LowQualityRestartsGracePeriod(s: State, q: FaceQualityModel)
    requires Inv(s) && s.hasDetectedValidFace && q.quality < QualityThreshold
    ensures var r := Perform(s, FaceQualityObservationDetected(q));
      r.hasDetectedValidFace && r.faceDetectionTimer.pending && !r.userCanSmile &&
      r.faceDetectionTimer.scheduled == s.faceDetectionTimer.scheduled + 1 &&
      r.faceDetectionTimer.invalidated == s.faceDetectionTimer.invalidated + 1
  {
  }

  /** From an invalid face, a quality observation makes the face valid exactly
      when the four geometry checks pass, and then starts a fresh grace
      period; otherwise the timer is not touched. The score plays no part. */
  lemma QualityFromInvalidFace(s: State, q: FaceQualityModel)
    requires Inv(s) && !s.hasDetectedValidFace
    ensures var r := Perform(s, FaceQualityObservationDetected(q));
      var t := s.faceDetectionTimer;
      var c := s.checks;
      (r.hasDetectedValidFace <==>
         c.isAcceptableRoll && c.isAcceptablePitch && c.isAcceptableYaw &&
         c.isAcceptableBounds == DetectedFaceAppropriateSizeAndPosition) &&
      !r.userCanSmile &&
      r.faceDetectionTimer == (if r.hasDetectedValidFace then GraceTimer(true, true, t.scheduled + 1, t.invalidated) else t)
  {
  }

  /** A score at or above the threshold while valid changes nothing but the
      recorded observation. */
  lemma GoodQualityKeepsGracePeriod(s: State, q: FaceQualityModel)
    requires Inv(s) && s.hasDetectedValidFace && q.quality >= QualityThreshold
    ensures Perform(s, FaceQualityObservationDetected(q)) ==
      s.(observations := s.observations.(faceDetectedState := FaceDetected, faceQualityState := FaceFound(q)))
  {
  }

  // ---------------------------------------------------------------------------
  // Smile and success

  /** A smile observation is ignored while the face is not valid. */
  lemma SmileIgnoredWhileInvalid(s: State, m: FaceSmileModel)
    requires !s.hasDetectedValidFace
    ensures Perform(s, FaceSmaileObservationDetected(m)) ==
      s.(observations := s.observations.(faceDetectedState := FaceDetected, faceSmileState := FaceFound(m)))
  {
  }

  /** While the face is valid, the smile flag follows the observation; a lost
      or failed smile observation clears it. */
  lemma SmileFollowsObservationWhileValid(s: State, o: FaceObservation<FaceSmileModel>)
    requires s.hasDetectedValidFace
    ensures var r := SetFaceSmileState(s, o);
      r.hasDetectedSmile == (o.FaceFound? && o.model.smileDetected) &&
      r.hasDetectedValidFace && r.userCanSmile == s.userCanSmile
  {
  }

  /** Success changes only when a smile observation arrives while the face is
      valid and smiling is permitted, and then equals the smile flag. */
  lemma SuccessOnlyOnGatedSmile(s: State, e: Event)
    ensures var r := Apply(s, e);
      if e.Act? && e.action.FaceSmaileObservationDetected? && s.hasDetectedValidFace && s.userCanSmile
      then r.success == e.action.smile.smileDetected == r.hasDetectedSmile
      else r.success == s.success
  {
    match e
    case TimerFires =>
    case Act(a) =>
      match a
      case WindowSizeDetected(w) =>
      case NoFaceDetected =>
      case FaceObservationDetected(g) =>
      case ToggleDebugMode =>
      case FaceQualityObservationDetected(q) =>
      case FaceSmaileObservationDetected(m) =>
  }

  /** As written, success is not withdrawn when the face is lost. */
  lemma SuccessSurvivesInvalidation(s: State)
    requires s.success
    ensures Perform(s, CameraViewModelAction.NoFaceDetected).success
    ensures !Perform(s, CameraViewModelAction.NoFaceDetected).hasDetectedValidFace
  {
  }

  // ---------------------------------------------------------------------------
  // Window and debug

  /** A resize moves only the guide: no check, no validity, no timer changes. */
  lemma ResizeTouchesOnlyGuide(s: State, w: Rect)
    ensures var r := Perform(s, WindowSizeDetected(w));
      r.(faceLayoutGuideFrame := s.faceLayoutGuideFrame) == s &&
      MidX(r.faceLayoutGuideFrame) == MidX(w) && MidY(r.faceLayoutGuideFrame) == MidY(w) &&
      Width(r.faceLayoutGuideFrame) == Width(s.faceLayoutGuideFrame) &&
      Height(r.faceLayoutGuideFrame) == Height(s.faceLayoutGuideFrame)
  {
  }

  /** Toggling debug mode twice restores the state. */
  lemma ToggleTwiceRestores(s: State)
    ensures Perform(Perform(s, CameraViewModelAction.ToggleDebugMode), CameraViewModelAction.ToggleDebugMode) == s
  {
  }

  // ---------------------------------------------------------------------------
  // Idempotence

  /** Assigning a check the value it already has changes nothing, once
      validity agrees with the checks. */
  lemma ReassignIsNoOp(s: State)
    requires s.hasDetectedValidFace == ChecksPass(s.checks)
    ensures SetRoll(s, s.checks.isAcceptableRoll) == s
    ensures SetPitch(s, s.checks.isAcceptablePitch) == s
    ensures SetYaw(s, s.checks.isAcceptableYaw) == s
    ensures SetBounds(s, s.checks.isAcceptableBounds) == s
  {
    assert s.(checks := s.checks.(isAcceptableRoll := s.checks.isAcceptableRoll)) == s;
    assert s.(checks := s.checks.(isAcceptablePitch := s.checks.isAcceptablePitch)) == s;
    assert s.(checks := s.checks.(isAcceptableYaw := s.checks.isAcceptableYaw)) == s;
    assert s.(checks := s.checks.(isAcceptableBounds := s.checks.isAcceptableBounds)) == s;
  }

  /** A geometry observation that the state already records, with the checks
      it implies, changes nothing. */
  lemma GeometryReplayIsNoOp(r: State, g: FaceGeometryModel)
    requires r.observations.faceDetectedState == FaceDetected
    requires r.observations.faceGeometryState == FaceFound(g)
    requires r.checks.isAcceptableRoll == AcceptableRoll(g.roll) &&
             r.checks.isAcceptablePitch == AcceptablePitch(g.pitch) &&
             r.checks.isAcceptableYaw == AcceptableYaw(g.yaw) &&
             r.checks.isAcceptableBounds == AcceptableBounds(g.boundingBox, r.faceLayoutGuideFrame)
    requires r.hasDetectedValidFace == ChecksPass(r.checks)
    ensures Perform(r, FaceObservationDetected(g)) == r
  {
    assert SetFaceDetectedState(r, FaceDetected) == r;
    assert r.(observations := r.observations.(faceGeometryState := FaceFound(g))) == r;
    ReassignIsNoOp(r);
  }

  /** The same found geometry twice in a row: the second changes nothing, and
      in particular schedules no further timer. */
  lemma GeometryIdempotent(s: State, g: FaceGeometryModel)
    ensures var r := Perform(s, FaceObservationDetected(g));
      Perform(r, FaceObservationDetected(g)) == r
  {
    GeometryReplayIsNoOp(Perform(s, FaceObservationDetected(g)), g);
  }

  /** The same resize twice in a row: the second changes nothing. */
  lemma ResizeIdempotent(s: State, w: Rect)
    ensures var r := Perform(s, WindowSizeDetected(w));
      Perform(r, WindowSizeDetected(w)) == r
  {
  }

  // ---------------------------------------------------------------------------
  // Event sequences

  /** Actions never grant the permission to smile and never forget a timer. */
  lemma PerformProgress(s: State, a: CameraViewModelAction)
    ensures Progress(s, Perform(s, a))
  {
    match a
    case WindowSizeDetected(w) =>
    case NoFaceDetected =>
    case FaceObservationDetected(g) =>
    case ToggleDebugMode =>
    case FaceQualityObservationDetected(q) =>
    case FaceSmaileObservationDetected(m) =>
  }

  /** The timer counters only grow. */
  lemma {:induction false} RunCountersGrow(s: State, evs: seq<Event>)
    ensures s.faceDetectionTimer.scheduled <= Run(s, evs).faceDetectionTimer.scheduled
    ensures s.faceDetectionTimer.invalidated <= Run(s, evs).faceDetectionTimer.invalidated
    decreases |evs|
  {
    if evs != [] {
      if evs[0].Act? {
        PerformProgress(s, evs[0].action);
      }
      RunCountersGrow(Apply(s, evs[0]), evs[1..]);
    }
  }

  predicate NoTimerFires(evs: seq<Event>)
  {
    forall i :: 0 <= i < |evs| ==> evs[i] != TimerFires
  }

  /** The grace period: without a firing of the timer, smiling stays forbidden
      and success stays false, whatever observations arrive. */
  lemma {:induction false} NoFireNoSuccess(s: State, evs: seq<Event>)
    requires !s.userCanSmile && !s.success
    requires NoTimerFires(evs)
    ensures !Run(s, evs).userCanSmile && !Run(s, evs).success
    decreases |evs|
  {
    if evs != [] {
      assert evs[0] != TimerFires;
      PerformProgress(s, evs[0].action);
      SuccessOnlyOnGatedSmile(s, evs[0]);
      assert NoTimerFires(evs[1..]) by {
        forall i | 0 <= i < |evs[1..]| ensures evs[1..][i] != TimerFires {
          assert evs[1..][i] == evs[i + 1];
        }
      }
      NoFireNoSuccess(Apply(s, evs[0]), evs[1..]);
    }
  }

  /** Once the face is not valid, smiling stays forbidden across any sequence
      of events that schedules no new timer, timer firings included. */
  lemma LockedUntilNewTimer(s: State, evs: seq<Event>)
    requires Inv(s) && !s.hasDetectedValidFace
    requires Run(s, evs).faceDetectionTimer.scheduled == s.faceDetectionTimer.scheduled
    ensures !Run(s, evs).userCanSmile && !Run(s, evs).faceDetectionTimer.pending
  {
    RunPreservesInv(s, evs);
    RunCountersGrow(s, evs);
  }

  /** The geometry checks are unknown only together: bounds are `unknown` only
      before the first geometry observation or after an invalidation, and both
      leave roll, pitch and yaw unacceptable. */
  predicate GeometryCoherent(s: State)
  {
    s.checks.isAcceptableBounds == Unknown ==>
      !s.checks.isAcceptableRoll && !s.checks.isAcceptablePitch && !s.checks.isAcceptableYaw
  }

  lemma InitGeometryCoherent(debugBuild: bool)
    ensures GeometryCoherent(Init(debugBuild))
  {
  }

  lemma ApplyKeepsGeometryCoherent(s: State, e: Event)
    requires GeometryCoherent(s)
    ensures GeometryCoherent(Apply(s, e))
  {
    match e
    case TimerFires =>
    case Act(a) => PerformKeepsGeometryCoherent(s, a);
  }

  lemma PerformKeepsGeometryCoherent(s: State, a: CameraViewModelAction)
    requires GeometryCoherent(s)
    ensures GeometryCoherent(Perform(s, a))
  {
    match a
    case WindowSizeDetected(w) =>
    case NoFaceDetected =>
    case FaceObservationDetected(g) =>
      assert PublishFaceObservation(s, g).checks.isAcceptableBounds != Unknown;
    case ToggleDebugMode =>
    case FaceQualityObservationDetected(q) =>
      assert PublishFaceQualityObservation(s, q).checks == s.checks.(isAcceptableQuality := true);
    case FaceSmaileObservationDetected(m) =>
      assert PublishFaceSmileObservation(s, m).checks == s.checks;
  }

  /** Every state a sequence of events reaches from a coherent one is coherent. */
  lemma {:induction false} RunKeepsGeometryCoherent(s: State, evs: seq<Event>)
    requires GeometryCoherent(s)
    ensures GeometryCoherent(Run(s, evs))
    decreases |evs|
  {
    if evs != [] {
      ApplyKeepsGeometryCoherent(s, evs[0]);
      RunKeepsGeometryCoherent(Apply(s, evs[0]), evs[1..]);
    }
  }

  // ---------------------------------------------------------------------------
  // Scenarios

  /** A face the size of the default guide, centred on it, looking straight. */
  function GoodGeometry(): (g: FaceGeometryModel)
    ensures AcceptableRoll(g.roll) && AcceptablePitch(g.pitch) && AcceptableYaw(g.yaw)
    ensures AcceptableBounds(g.boundingBox, Rect(0.0, 0.0, 200.0, 300.0)) == DetectedFaceAppropriateSizeAndPosition
  {
    FaceGeometryModel(Rect(0.0, 0.0, 200.0, 300.0), 1.4, 0.0, 0.0)
  }

  /** Good geometry, then quality 0.5, make the face valid and start the
      grace period; its firing permits smiling, and a smile then succeeds. */
  lemma ScenarioValidFaceThenSmile()
    ensures var s1 := Perform(Init(false), FaceObservationDetected(GoodGeometry()));
      var s2 := Perform(s1, FaceQualityObservationDetected(FaceQualityModel(0.5)));
      var s3 := TimerFired(s2);
      var s4 := Perform(s3, FaceSmaileObservationDetected(FaceSmileModel(true)));
      !s1.hasDetectedValidFace &&
      s2.hasDetectedValidFace && !s2.userCanSmile && s2.faceDetectionTimer == GraceTimer(true, true, 1, 0) &&
      s3.userCanSmile && !s3.success &&
      s4.success
  {
    var s1 := Perform(Init(false), FaceObservationDetected(GoodGeometry()));
    GeometryFromInvalidFace(Init(false), GoodGeometry());
    PerformPreservesInv(Init(false), FaceObservationDetected(GoodGeometry()));
    QualityFromInvalidFace(s1, FaceQualityModel(0.5));
  }

  /** Losing the face during the grace period cancels it; finding it again
      schedules a new timer with smiling still forbidden. */
  lemma ScenarioLossRestartsGracePeriod()
    ensures var s2 := Perform(Perform(Init(false), FaceObservationDetected(GoodGeometry())),
                              FaceQualityObservationDetected(FaceQualityModel(0.5)));
      var s3 := Perform(s2, CameraViewModelAction.NoFaceDetected);
      var s4 := Perform(s3, FaceObservationDetected(GoodGeometry()));
      !s3.hasDetectedValidFace && !s3.userCanSmile && s3.faceDetectionTimer == GraceTimer(false, false, 1, 1) &&
      s4.hasDetectedValidFace && !s4.userCanSmile && s4.faceDetectionTimer == GraceTimer(true, true, 2, 1)
  {
    ScenarioValidFaceThenSmile();
    var s1 := Perform(Init(false), FaceObservationDetected(GoodGeometry()));
    var s2 := Perform(s1, FaceQualityObservationDetected(FaceQualityModel(0.5)));
    LossThenReturn(s2, GoodGeometry());
  }

  /** A valid face lost and then found again with a good geometry: the held
      timer is invalidated, and a new one is scheduled with smiling forbidden. */
  lemma LossThenReturn(s: State, g: FaceGeometryModel)
    requires Inv(s) && s.hasDetectedValidFace
    requires AcceptableRoll(g.roll) && AcceptablePitch(g.pitch) && AcceptableYaw(g.yaw)
    requires AcceptableBounds(g.boundingBox, s.faceLayoutGuideFrame) == DetectedFaceAppropriateSizeAndPosition
    ensures var s1 := Perform(s, CameraViewModelAction.NoFaceDetected);
      var s2 := Perform(s1, FaceObservationDetected(g));
      var n := s.faceDetectionTimer.scheduled;
      !s1.hasDetectedValidFace && !s1.userCanSmile && s1.faceDetectionTimer == GraceTimer(false, false, n, n) &&
      s2.hasDetectedValidFace && !s2.userCanSmile && s2.faceDetectionTimer == GraceTimer(true, true, n + 1, n)
  {
    var s1 := Perform(s, CameraViewModelAction.NoFaceDetected);
    assert s1.faceLayoutGuideFrame == s.faceLayoutGuideFrame && s1.checks.isAcceptableQuality;
    GeometryFromInvalidFace(s1, g);
  }

  /** As written, success is stale: a success latched while the face was
      valid is still set after the face is lost, found again, a smile
      observation reports no smile and the new grace period ends. */
  lemma StaleSuccessAfterReturn(s: State, g: FaceGeometryModel)
    requires Inv(s) && s.hasDetectedValidFace && s.success
    requires AcceptableRoll(g.roll) && AcceptablePitch(g.pitch) && AcceptableYaw(g.yaw)
    requires AcceptableBounds(g.boundingBox, s.faceLayoutGuideFrame) == DetectedFaceAppropriateSizeAndPosition
    ensures var s1 := Perform(s, CameraViewModelAction.NoFaceDetected);
      var s2 := Perform(s1, FaceObservationDetected(g));
      var s3 := Perform(s2, FaceSmaileObservationDetected(FaceSmileModel(false)));
      var s4 := TimerFired(s3);
      s1.success && !s1.hasDetectedValidFace &&
      s4.hasDetectedValidFace && s4.userCanSmile && s4.success && !s4.hasDetectedSmile
  {
    var s1 := Perform(s, CameraViewModelAction.NoFaceDetected);
    PerformPreservesInv(s, CameraViewModelAction.NoFaceDetected);
    GeometryFromInvalidFace(s1, g);
  }

  /** The stale success of the scenario above: after a successful smile, the
      face is lost and found again and no smile is reported, yet success is
      set once the new grace period ends. */
  lemma ScenarioStaleSuccess()
    ensures var s2 := Perform(Perform(Init(false), FaceObservationDetected(GoodGeometry())),
                              FaceQualityObservationDetected(FaceQualityModel(0.5)));
      var s4 := Perform(TimerFired(s2), FaceSmaileObservationDetected(FaceSmileModel(true)));
      var s8 := TimerFired(Perform(Perform(Perform(s4, CameraViewModelAction.NoFaceDetected),
                                           FaceObservationDetected(GoodGeometry())),
                                   FaceSmaileObservationDetected(FaceSmileModel(false))));
      s8.hasDetectedValidFace && s8.userCanSmile && s8.success && !s8.hasDetectedSmile
  {
    ScenarioValidFaceThenSmile();
    var s1 := Perform(Init(false), FaceObservationDetected(GoodGeometry()));
    var s2 := Perform(s1, FaceQualityObservationDetected(FaceQualityModel(0.5)));
    PerformPreservesInv(Init(false), FaceObservationDetected(GoodGeometry()));
    PerformPreservesInv(s1, FaceQualityObservationDetected(FaceQualityModel(0.5)));
    var s3 := TimerFired(s2);
    var s4 := Perform(s3, FaceSmaileObservationDetected(FaceSmileModel(true)));
    PerformPreservesInv(s3, FaceSmaileObservationDetected(FaceSmileModel(true)));
    StaleSuccessAfterReturn(s4, GoodGeometry());
  }
}
