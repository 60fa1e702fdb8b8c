/** `CameraViewModel` as an object: the published properties are fields, each
    observed property has a setter method that assigns it and then runs its
    `didSet` observer, and every method is proved to move the snapshot of the
    fields exactly as the corresponding function of `Validation` does. */
module ViewModel {
  import opened FaceTypes
  import opened Thresholds
  import opened Validation
  import ValidationProperties

  class CameraViewModel {
    var debugModeEnabled: bool
    var hasDetectedValidFace: bool
    var userCanSmile: bool
    var success: bool
    var hasDetectedSmile: bool
    var isAcceptableRoll: bool
    var isAcceptablePitch: bool
    var isAcceptableYaw: bool
    var isAcceptableBounds: FaceBoundsState
    var isAcceptableQuality: bool
    var faceDetectedState: FaceDetectedState
    var faceGeometryState: FaceObservation<FaceGeometryModel>
    var faceQualityState: FaceObservation<FaceQualityModel>
    var faceSmileState: FaceObservation<FaceSmileModel>
    /** faceDetectionTimer != nil */
    var faceDetectionTimerHeld: bool
    /** faceDetectionTimer?.isValid: scheduled, neither fired nor invalidated */
    var faceDetectionTimerValid: bool
    /** How many timers have been scheduled and invalidated so far. */
    ghost var scheduledTimers: nat
    ghost var invalidatedTimers: nat
    var faceLayoutGuideFrame: Rect

    /** The fields as a value of the functional model. */
    ghost function Snapshot(): State
      reads this
    {
      State(
        debugModeEnabled, hasDetectedValidFace, userCanSmile, success, hasDetectedSmile,
        Checks(isAcceptableRoll, isAcceptablePitch, isAcceptableYaw, isAcceptableBounds, isAcceptableQuality),
        Observations(faceDetectedState, faceGeometryState, faceQualityState, faceSmileState),
        GraceTimer(faceDetectionTimerHeld, faceDetectionTimerValid, scheduledTimers, invalidatedTimers),
        faceLayoutGuideFrame)
    }

    ghost predicate Valid()
      reads this
    {
      Inv(Snapshot())
    }

    /** init(); `debugBuild` stands for the DEBUG compilation flag. Swift runs
        no observer for the assignments of an initializer. */
    constructor(debugBuild: bool)
      ensures Snapshot() == Init(debugBuild) && Valid()
    {
      faceDetectedState := FaceDetectedState.NoFaceDetected;
      hasDetectedValidFace := false;
      hasDetectedSmile := false;
      faceGeometryState := FaceNotFound;
      debugModeEnabled := debugBuild;
      isAcceptableRoll := false;
      isAcceptablePitch := false;
      isAcceptableYaw := false;
      isAcceptableBounds := Unknown;
      faceQualityState := FaceNotFound;
      isAcceptableQuality := false;
      faceSmileState := FaceNotFound;
      userCanSmile := false;
      success := false;
      faceDetectionTimerHeld := false;
      faceDetectionTimerValid := false;
      scheduledTimers := 0;
      invalidatedTimers := 0;
      faceLayoutGuideFrame := Rect(0.0, 0.0, 200.0, 300.0);
    }

    // -------------------------------------------------------------------------
    // Actions

    /** perform(action:), with each main-queue hop run at once. */
    method Perform(action: CameraViewModelAction)
      requires Valid()
      modifies this
      ensures Snapshot() == Validation.Perform(old(Snapshot()), action)
      ensures Valid()
    {
      ghost var s := Snapshot();
      match action {
        case WindowSizeDetected(windowRect) => HandleWindowSizeChanged(windowRect);
        case NoFaceDetected => PublishNoFaceObserved();
        case FaceObservationDetected(g) => PublishFaceObservation(g);
        case ToggleDebugMode => ToggleDebugMode();
        case FaceQualityObservationDetected(q) => PublishFaceQualityObservation(q);
        case FaceSmaileObservationDetected(m) => PublishFaceSmileObservation(m);
      }
      ValidationProperties.PerformPreservesInv(s, action);
    }

    /** The run loop firing the grace timer: its closure permits smiling. An
        invalidated timer never fires. */
    method TimerFired()
      requires Valid()
      modifies this
      ensures Snapshot() == Validation.TimerFired(old(Snapshot()))
      ensures Valid()
    {
      if faceDetectionTimerValid {
        faceDetectionTimerValid := false;
        userCanSmile := true;
      }
    }

    method HandleWindowSizeChanged(toRect: Rect)
      modifies this
      ensures Snapshot() == Validation.HandleWindowSizeChanged(old(Snapshot()), toRect)
    {
      faceLayoutGuideFrame := Rect(
        MidX(toRect) - Width(faceLayoutGuideFrame) / 2.0,
        MidY(toRect) - Height(faceLayoutGuideFrame) / 2.0,
        Width(faceLayoutGuideFrame),
        Height(faceLayoutGuideFrame));
    }

    method PublishNoFaceObserved()
      modifies this
      ensures Snapshot() == Validation.PublishNoFaceObserved(old(Snapshot()))
    {
      faceDetectedState := FaceDetectedState.NoFaceDetected;
      SetFaceGeometryState(FaceNotFound);
    }

    method PublishFaceObservation(faceGeometryModel: FaceGeometryModel)
      modifies this
      ensures Snapshot() == Validation.PublishFaceObservation(old(Snapshot()), faceGeometryModel)
    {
      faceDetectedState := FaceDetected;
      SetFaceGeometryState(FaceFound(faceGeometryModel));
    }

    method PublishFaceQualityObservation(faceQualityModel: FaceQualityModel)
      modifies this
      ensures Snapshot() == Validation.PublishFaceQualityObservation(old(Snapshot()), faceQualityModel)
    {
      faceDetectedState := FaceDetected;
      SetFaceQualityState(FaceFound(faceQualityModel));
    }

    method PublishFaceSmileObservation(faceSmileModel: FaceSmileModel)
      modifies this
      ensures Snapshot() == Validation.PublishFaceSmileObservation(old(Snapshot()), faceSmileModel)
    {
      faceDetectedState := FaceDetected;
      SetFaceSmileState(FaceFound(faceSmileModel));
    }

    method ToggleDebugMode()
      modifies this
      ensures Snapshot() == Validation.ToggleDebugMode(old(Snapshot()))
    {
      debugModeEnabled := !debugModeEnabled;
    }

    // -------------------------------------------------------------------------
    // Observed properties: the assignment, then the didSet observer

    method SetFaceGeometryState(o: FaceObservation<FaceGeometryModel>)
      modifies this
      ensures Snapshot() == Validation.SetFaceGeometryState(old(Snapshot()), o)
    {
      ghost var s := Snapshot();
      faceGeometryState := o;
      assert Snapshot() == s.(observations := s.observations.(faceGeometryState := o));
      ProcessUpdatedFaceGeometry();
    }

    method SetFaceQualityState(o: FaceObservation<FaceQualityModel>)
      modifies this
      ensures Snapshot() == Validation.SetFaceQualityState(old(Snapshot()), o)
    {
      ghost var s := Snapshot();
      faceQualityState := o;
      assert Snapshot() == s.(observations := s.observations.(faceQualityState := o));
      ProcessUpdatedFaceQuality();
    }

    method SetFaceSmileState(o: FaceObservation<FaceSmileModel>)
      modifies this
      ensures Snapshot() == Validation.SetFaceSmileState(old(Snapshot()), o)
    {
      ghost var s := Snapshot();
      faceSmileState := o;
      assert Snapshot() == s.(observations := s.observations.(faceSmileState := o));
      ProcessUpdatedFaceSmile();
    }

    method SetRoll(v: bool)
      modifies this
      ensures Snapshot() == Validation.SetRoll(old(Snapshot()), v)
    {
      isAcceptableRoll := v;
      CalculateDetectedFaceValidity();
    }

    method SetPitch(v: bool)
      modifies this
      ensures Snapshot() == Validation.SetPitch(old(Snapshot()), v)
    {
      isAcceptablePitch := v;
      CalculateDetectedFaceValidity();
    }

    method SetYaw(v: bool)
      modifies this
      ensures Snapshot() == Validation.SetYaw(old(Snapshot()), v)
    {
      isAcceptableYaw := v;
      CalculateDetectedFaceValidity();
    }

    method SetBounds(v: FaceBoundsState)
      modifies this
      ensures Snapshot() == Validation.SetBounds(old(Snapshot()), v)
    {
      ghost var s := Snapshot();
      isAcceptableBounds := v;
      CalculateDetectedFaceValidity();
      SetBoundsUnfolds(s, v);
    }

    method SetQuality(v: bool)
      modifies this
      ensures Snapshot() == Validation.SetQuality(old(Snapshot()), v)
    {
      isAcceptableQuality := v;
      CalculateDetectedFaceValidity();
    }

    method SetHasDetectedSmile(v: bool)
      modifies this
      ensures Snapshot() == Validation.SetHasDetectedSmile(old(Snapshot()), v)
    {
      hasDetectedSmile := v;
      HandleSmile();
    }

    // -------------------------------------------------------------------------
    // Private instance methods

    method InvalidateFaceGeometryState()
      modifies this
      ensures Snapshot() == Validation.InvalidateFaceGeometryState(old(Snapshot()))
    {
      SetRoll(false);
      SetPitch(false);
      SetYaw(false);
      SetBounds(Unknown);
    }

    method ProcessUpdatedFaceGeometry()
      modifies this
      ensures Snapshot() == Validation.ProcessUpdatedFaceGeometry(old(Snapshot()))
    {
      match faceGeometryState
      case FaceNotFound =>
        InvalidateFaceGeometryState();
      case Errored(_) =>
        InvalidateFaceGeometryState();
      case FaceFound(faceGeometryModel) =>
        UpdateAcceptableRollPitchYaw(faceGeometryModel.roll, faceGeometryModel.pitch, faceGeometryModel.yaw);
        UpdateAcceptableBounds(faceGeometryModel.boundingBox);
    }

    method UpdateAcceptableBounds(boundingBox: Rect)
      modifies this
      ensures Snapshot() == Validation.UpdateAcceptableBounds(old(Snapshot()), boundingBox)
    {
      if Width(boundingBox) > SizeTolerance * Width(faceLayoutGuideFrame) {
        SetBounds(DetectedFaceTooLarge);
      } else if Width(boundingBox) * SizeTolerance < Width(faceLayoutGuideFrame) {
        SetBounds(DetectedFaceTooSmall);
      } else {
        if Abs(MidX(boundingBox) - MidX(faceLayoutGuideFrame)) > CentreTolerance {
          SetBounds(DetectedFaceOffCentre);
        } else if Abs(MidY(boundingBox) - MidY(faceLayoutGuideFrame)) > CentreTolerance {
          SetBounds(DetectedFaceOffCentre);
        } else {
          SetBounds(DetectedFaceAppropriateSizeAndPosition);
        }
      }
    }

    method UpdateAcceptableRollPitchYaw(roll: real, pitch: real, yaw: real)
      modifies this
      ensures Snapshot() == Validation.UpdateAcceptableRollPitchYaw(old(Snapshot()), roll, pitch, yaw)
    {
      SetRoll(roll > RollLowerBound && roll < RollUpperBound);
      SetPitch(Abs(pitch) < PitchTolerance);
      SetYaw(Abs(yaw) < YawTolerance);
    }

    method ProcessUpdatedFaceQuality()
      modifies this
      ensures Snapshot() == Validation.ProcessUpdatedFaceQuality(old(Snapshot()))
    {
      match faceQualityState
      case FaceNotFound =>
        SetQuality(false);
      case Errored(_) =>
        SetQuality(false);
      case FaceFound(faceQualityModel) =>
        if faceQualityModel.quality < QualityThreshold {
          SetQuality(false);
        }
        SetQuality(true);
    }

    method ProcessUpdatedFaceSmile()
      modifies this
      ensures Snapshot() == Validation.ProcessUpdatedFaceSmile(old(Snapshot()))
    {
      if hasDetectedValidFace {
        match faceSmileState
        case FaceFound(faceSmileModel) =>
          SetHasDetectedSmile(faceSmileModel.smileDetected);
        case FaceNotFound =>
          SetHasDetectedSmile(false);
        case Errored(_) =>
          SetHasDetectedSmile(false);
      }
    }

    method CalculateDetectedFaceValidity()
      modifies this
      ensures Snapshot() == Validation.CalculateDetectedFaceValidity(old(Snapshot()))
    {
      var previouslyValid := hasDetectedValidFace;
      hasDetectedValidFace :=
        isAcceptableBounds == DetectedFaceAppropriateSizeAndPosition &&
        isAcceptableRoll &&
        isAcceptablePitch &&
        isAcceptableYaw &&
        isAcceptableQuality;
      if !previouslyValid && hasDetectedValidFace {
        StartFaceDetectionTimer();
      } else if previouslyValid && !hasDetectedValidFace {
        CancelFaceDetectionTimer();
      }
    }

    method StartFaceDetectionTimer()
      modifies this
      ensures Snapshot() == Validation.StartFaceDetectionTimer(old(Snapshot()))
    {
      if faceDetectionTimerHeld {
        return;
      }
      faceDetectionTimerHeld := true;
      faceDetectionTimerValid := true;
      scheduledTimers := scheduledTimers + 1;
    }

    method CancelFaceDetectionTimer()
      modifies this
      ensures Snapshot() == Validation.CancelFaceDetectionTimer(old(Snapshot()))
    {
      if faceDetectionTimerHeld {
        invalidatedTimers := invalidatedTimers + 1;
      }
      faceDetectionTimerValid := false;
      faceDetectionTimerHeld := false;
      userCanSmile := false;
    }

    method HandleSmile()
      modifies this
      ensures Snapshot() == Validation.HandleSmile(old(Snapshot()))
    {
      if hasDetectedValidFace && userCanSmile {
        if hasDetectedSmile {
          success := true;
        } else {
          success := false;
        }
      }
    }
  }

  /** Proof helper for the method `SetBounds`: unfolds the functional setter
      one step. It states nothing about the source by itself. */
  lemma SetBoundsUnfolds(s: State, v: FaceBoundsState)
    ensures Validation.SetBounds(s, v) ==
      Validation.CalculateDetectedFaceValidity(s.(checks := s.checks.(isAcceptableBounds := v)))
  {
  }
}
