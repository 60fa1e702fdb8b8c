# FaceVerification: the camera view model's face-validation state machine

The camera screen of FaceVerification guides a user to a passport-style photo.
An external face detector reports geometry (bounding box, roll, pitch, yaw), a
capture-quality score and a smile flag as actions to `CameraViewModel`. The view
model turns them into five acceptability checks and a derived "valid face"
flag. A face that turns valid starts a single-shot two-second grace timer.
When that timer fires, smiling is permitted, and a smile while still valid
latches `success`. `UserInstructionsView` shows one instruction derived from
this state.

The project has six modules:

- `FaceTypes` holds the actions, state enums and detector records. It also
  holds the three-way `FaceObservation` (`FaceNotFound | FaceFound(model) |
  Errored(reason)`) and the CoreGraphics rectangle getters `Width`, `Height`,
  `MidX` and `MidY`.
- `Thresholds` holds the fixed tolerances and the bounds and pose
  classification.
- `Validation` is the view model's state as a value, `State`. Every Swift
  method is a function from the old state to the new one. Each observed
  property's `didSet` becomes a setter function: it assigns the property,
  then runs the observer. The handlers call these setters in source order.
  A start-then-cancel pair inside one action is therefore visible.
- `ValidationProperties` holds the invariant kept by every action and timer
  firing. It also holds the net effect of each action, the smile and success
  rules, idempotence, properties of whole event sequences, and scenarios.
- `ViewModel.CameraViewModel` is a class with one field per published
  property. Each method assigns the fields in source order. Each method is
  proved to move the snapshot of its fields exactly as the matching
  `Validation` function does.
- `Instructions` is the label chosen by `faceDetectionStateLabel`, as an enum
  of messages with their texts.

The optional `faceDetectionTimer` is modelled by `GraceTimer`. It records:

- whether a timer is held (non-nil);
- whether that timer is still scheduled (Foundation's `isValid`);
- two counters: how many timers have been scheduled so far, and how many
  invalidated.

The run loop firing the timer is the explicit `TimerFired` event. The main
queue's `async` hops are applied at once, in order.

### Where the code may surprise a reader

The model follows the code. The project proves the following as-written
behaviours, some of which one might expect to work differently:

- A found quality observation always leaves quality acceptable. A score
  below 0.2 assigns `false`, and then `true` is assigned unconditionally.
  While the face is valid, a low score therefore cancels the grace timer and
  schedules a new one (`LowQualityRestartsGracePeriod`).
- `success` is not reset when the face becomes invalid. It can show again
  after the face returns, with no new smile (`SuccessSurvivesInvalidation`,
  `StaleSuccessAfterReturn`).
- A quality "no result" reaches the view model as `noFaceDetected`
  (PassportPhotos/FaceDetector.swift:87-88). That action invalidates only the
  geometry checks (`NoFaceKeepsQuality`).
- No action produces a lost or failed quality or smile observation. The
  branches for them exist and are modelled (`QualityLossInvalidates`,
  `SmileFollowsObservationWhileValid`).
- One might expect success to be withdrawn whenever the face is invalid.
  The code never does this, and the model does not either.
- `userCanSmile` has no observer (PassportPhotos/CameraViewModel.swift:59),
  so the timer firing does not run `handleSmile`. A smile seen during the
  grace period therefore does not set `success` when the period ends; that
  waits for the next smile observation (`FiringDoesNotLatchSmile`). One might
  expect success to be recomputed whenever the permission changes.

## Model

| member | source | states |
|---|---|---|
| Thresholds.AcceptableBounds | PassportPhotos/CameraViewModel.swift:240-254 | never `unknown`; too large iff wider than 1.2× the guide; too small iff not too large and 1.2× its width is under the guide's; off-centre iff the size is acceptable and the centres differ by more than 50 on an axis; appropriate iff acceptable size and centred |
| Thresholds.TooLargeWhateverPosition | PassportPhotos/CameraViewModel.swift:241-242 | a box too wide for the guide is "too large" wherever it is moved |
| Thresholds.TooSmallWhateverPosition | PassportPhotos/CameraViewModel.swift:243-244 | a box not too wide but too narrow is "too small" wherever it is moved |
| Thresholds.AcceptableRoll | PassportPhotos/CameraViewModel.swift:257 | roll is rejected iff it is at or below 1.2 or at or above 1.6 |
| Thresholds.AcceptablePitch | PassportPhotos/CameraViewModel.swift:258 | pitch is accepted iff it lies strictly within ±0.2 |
| Thresholds.AcceptableYaw | PassportPhotos/CameraViewModel.swift:259 | yaw is accepted iff it lies strictly within ±0.15 |
| FaceTypes.Width | PassportPhotos/CameraViewModel.swift:241-243 | `CGRect.width` is non-negative and is the stored width or its negation |
| FaceTypes.MidX | PassportPhotos/CameraViewModel.swift:246 | `CGRect.midX` lies halfway between the two vertical edges |
| FaceTypes.MidY | PassportPhotos/CameraViewModel.swift:248 | `CGRect.midY` lies halfway between the two horizontal edges |
| Thresholds.RollOpenInterval | PassportPhotos/CameraViewModel.swift:257 | roll is acceptable exactly on the open interval (1.2, 1.6), so both ends fail |
| Thresholds.PitchYawStrict | PassportPhotos/CameraViewModel.swift:258-259 | pitch within (-0.2, 0.2) and yaw within (-0.15, 0.15), both ends excluded |
| Validation.Init | PassportPhotos/CameraViewModel.swift:119-142 | the initial state satisfies the invariant; no valid face, no permission, no success, no timer; debug mode follows the build flag |
| Validation.StartFaceDetectionTimer | PassportPhotos/CameraViewModel.swift:309-314 | afterwards a timer is held; a no-op when one is already held; otherwise one more timer is scheduled and nothing else changes |
| Validation.CancelFaceDetectionTimer | PassportPhotos/CameraViewModel.swift:316-320 | no timer held or pending, smiling forbidden; the held timer, if any, is counted as invalidated; nothing else changes |
| Validation.CalculateDetectedFaceValidity | PassportPhotos/CameraViewModel.swift:292-307 | validity becomes the conjunction of the five checks; without a flip the state is unchanged; a rising flip holds a timer, a fresh pending one if none was held; a falling flip drops it and forbids smiling; the timer invariant is kept and no permission is granted |
| Validation.TimerFired | PassportPhotos/CameraViewModel.swift:311-313 | smiling is permitted iff it was or the held timer was pending; the timer stays held; the invariant is kept |
| Validation.SetRoll | PassportPhotos/CameraViewModel.swift:67-71 | roll is assigned, validity agrees with the checks afterwards, only the timer fields change otherwise, the timer invariant is kept |
| Validation.SetPitch | PassportPhotos/CameraViewModel.swift:72-76 | as `SetRoll`, for pitch |
| Validation.SetYaw | PassportPhotos/CameraViewModel.swift:77-81 | as `SetRoll`, for yaw |
| Validation.SetBounds | PassportPhotos/CameraViewModel.swift:82-86 | as `SetRoll`, for bounds |
| Validation.SetQuality | PassportPhotos/CameraViewModel.swift:87-91 | as `SetRoll`, for quality |
| Validation.HandleSmile | PassportPhotos/CameraViewModel.swift:322-330 | while valid and permitted, success equals the smile flag; otherwise success is unchanged; nothing else changes |
| Validation.SetHasDetectedSmile | PassportPhotos/CameraViewModel.swift:62-66 | the smile flag is assigned and success follows it only while valid and permitted |
| Validation.InvalidateFaceGeometryState | PassportPhotos/CameraViewModel.swift:215-220 | roll, pitch, yaw false and bounds unknown, face invalid; a valid face loses its timer and permission, an invalid one keeps its timer |
| Validation.UpdateAcceptableRollPitchYaw | PassportPhotos/CameraViewModel.swift:256-260 | the three pose checks become the threshold predicates of the given angles; validity agrees with the checks |
| Validation.UpdateAcceptableBounds | PassportPhotos/CameraViewModel.swift:240-254 | bounds become the classification of the box against the current guide |
| Validation.ProcessUpdatedFaceGeometry | PassportPhotos/CameraViewModel.swift:222-238 | a found geometry sets the four geometry checks from the thresholds; a lost or failed one invalidates them; quality is untouched |
| Validation.UpdateAcceptableQuality | PassportPhotos/CameraViewModel.swift:269-273 | quality ends acceptable whatever the score |
| Validation.ProcessUpdatedFaceQuality | PassportPhotos/CameraViewModel.swift:262-275 | quality is acceptable exactly when a quality observation was found |
| Validation.ProcessUpdatedFaceSmile | PassportPhotos/CameraViewModel.swift:277-290 | ignored while invalid; otherwise the smile flag follows the observation (false for lost or failed) and success follows it while permitted |
| Validation.SetFaceGeometryState | PassportPhotos/CameraViewModel.swift:95-99 | the observation is recorded; a found geometry sets roll, pitch, yaw and bounds from the thresholds against the current guide; a lost or failed one sets them false and bounds unknown; quality, smile and success are untouched; validity agrees with the checks |
| Validation.SetFaceQualityState | PassportPhotos/CameraViewModel.swift:101-105 | the observation is recorded; quality is acceptable iff it was found |
| Validation.SetFaceSmileState | PassportPhotos/CameraViewModel.swift:107-111 | the observation is recorded; the smile flag changes only while valid, success only while valid and permitted |
| Validation.SetFaceDetectedState | PassportPhotos/CameraViewModel.swift:175 | `faceDetectedState` has no observer: it takes the new value and nothing else changes (also lines 183, 192, 201) |
| Validation.Perform | PassportPhotos/CameraViewModel.swift:145-160 | each action keeps the invariant, grants no smile permission and lowers no timer counter |
| Validation.Apply | PassportPhotos/CameraViewModel.swift:145-160 | one event, an action or the timer firing at line 312: the invariant is kept, the counters never decrease, and an action grants no permission |
| Validation.Run | PassportPhotos/CameraViewModel.swift:145-160 | the main queue delivering events in order: the invariant is kept and the counters never decrease |
| Validation.HandleWindowSizeChanged | PassportPhotos/CameraViewModel.swift:164-171 | only the guide changes; its centre is the window's centre and its width and height are kept |
| Validation.PublishNoFaceObserved | PassportPhotos/CameraViewModel.swift:173-178 | no face, geometry lost, the four geometry checks invalidated, quality kept, a valid face's timer cancelled |
| Validation.PublishFaceObservation | PassportPhotos/CameraViewModel.swift:180-187 | a face; the checks are exactly the thresholds of the geometry against the current guide, with quality kept |
| Validation.PublishFaceQualityObservation | PassportPhotos/CameraViewModel.swift:189-196 | a face; quality acceptable whatever the score, geometry checks kept |
| Validation.PublishFaceSmileObservation | PassportPhotos/CameraViewModel.swift:198-205 | a face; ignored while invalid; otherwise the smile flag is the observed one and success follows it while permitted |
| Validation.ToggleDebugMode | PassportPhotos/CameraViewModel.swift:207-209 | the debug flag flips and nothing else changes |
| ValidationProperties.PerformPreservesInv | PassportPhotos/CameraViewModel.swift:145-160 | every action keeps the invariant: validity is the conjunction, a timer is held iff valid, smiling is permitted iff the held timer fired, only the held timer is outstanding |
| ValidationProperties.ApplyPreservesInv | PassportPhotos/CameraViewModel.swift:145-160 | every action and every timer firing keeps the invariant |
| ValidationProperties.RunPreservesInv | PassportPhotos/CameraViewModel.swift:145-160 | any sequence of events keeps the invariant |
| ValidationProperties.ValidIffAllFive | PassportPhotos/CameraViewModel.swift:292-301 | between events, the face is valid iff bounds are appropriate and roll, pitch, yaw and quality are acceptable |
| ValidationProperties.FlipAlwaysSchedules | PassportPhotos/CameraViewModel.swift:302-314 | under the timer invariant a rising flip always schedules a fresh timer, with smiling forbidden |
| ValidationProperties.TimerOnlyOnFlips | PassportPhotos/CameraViewModel.swift:302-306 | timers are scheduled only on a rising flip and invalidated only on a falling one; no flip touches neither timer nor permission |
| ValidationProperties.StartWhileHeldIsNoOp | PassportPhotos/CameraViewModel.swift:310 | starting while a timer is held changes nothing, also after it fired |
| ValidationProperties.AtMostOneOutstandingTimer | PassportPhotos/CameraViewModel.swift:309-320 | after any events, all scheduled timers but at most the held one are invalidated |
| ValidationProperties.FiringDoesNotLatchSmile | PassportPhotos/CameraViewModel.swift:311-313 | a firing while already smiling permits smiling but leaves success false; the next smile observation sets it |
| ValidationProperties.NoFaceInvalidatesGeometry | PassportPhotos/CameraViewModel.swift:173-177 | losing the face invalidates the geometry checks, keeps quality, smile and success, and cancels a valid face's timer |
| ValidationProperties.ErroredGeometryInvalidates | PassportPhotos/CameraViewModel.swift:226-228 | a failed geometry observation sets the same checks as a lost one |
| ValidationProperties.GeometryAssignmentsFromInvalid | PassportPhotos/CameraViewModel.swift:229-235 | the four assignments in order, from an invalid face, schedule at most one timer; it survives iff the face ends valid; no timer while quality is bad |
| ValidationProperties.GeometryFromInvalidFace | PassportPhotos/CameraViewModel.swift:229-235 | the same for a whole geometry action |
| ValidationProperties.GeometryKeepsValidFaceSteady | PassportPhotos/CameraViewModel.swift:229-235 | a geometry that leaves a valid face valid keeps its timer and permission (no flicker) |
| ValidationProperties.StartThenCancelWithinOneObservation | PassportPhotos/CameraViewModel.swift:229-235 | a good pose with too large a box, after a bad yaw, schedules a timer at the yaw assignment and invalidates it at the bounds assignment |
| ValidationProperties.QualityFoundAlwaysAcceptable | PassportPhotos/CameraViewModel.swift:269-273 | any found quality, 0.0 included, leaves quality acceptable and the geometry checks untouched |
| ValidationProperties.QualityLossInvalidates | PassportPhotos/CameraViewModel.swift:264-268 | a lost or failed quality makes quality unacceptable and the face invalid, whatever the geometry |
| ValidationProperties.NoFaceKeepsQuality | PassportPhotos/FaceDetector.swift:87-88 | the action a quality "no result" produces leaves quality as it was |
| ValidationProperties.LowQualityRestartsGracePeriod | PassportPhotos/CameraViewModel.swift:270-273 | a low score while valid ends valid with a new pending timer: one more scheduled and one more invalidated |
| ValidationProperties.QualityFromInvalidFace | PassportPhotos/CameraViewModel.swift:269-273 | from an invalid face, quality validates it iff the geometry checks pass, and then starts a fresh grace period, whatever the score |
| ValidationProperties.GoodQualityKeepsGracePeriod | PassportPhotos/CameraViewModel.swift:269-273 | a good score while valid changes only the recorded observation |
| ValidationProperties.SmileIgnoredWhileInvalid | PassportPhotos/CameraViewModel.swift:277-278 | a smile observation while invalid changes only the recorded observations |
| ValidationProperties.SmileFollowsObservationWhileValid | PassportPhotos/CameraViewModel.swift:279-288 | while valid the smile flag is the found flag, or false for lost or failed |
| ValidationProperties.SuccessOnlyOnGatedSmile | PassportPhotos/CameraViewModel.swift:322-330 | for every event, success changes only on a smile observation while valid and permitted, and then equals the smile flag |
| ValidationProperties.SuccessSurvivesInvalidation | PassportPhotos/CameraViewModel.swift:322-330 | losing the face leaves success set |
| ValidationProperties.ResizeTouchesOnlyGuide | PassportPhotos/CameraViewModel.swift:164-171 | a resize changes only the guide, recentred with its size kept; validity is not recomputed |
| ValidationProperties.ToggleTwiceRestores | PassportPhotos/CameraViewModel.swift:207-209 | toggling debug mode twice restores the state |
| ValidationProperties.ReassignIsNoOp | PassportPhotos/CameraViewModel.swift:67-86 | assigning a geometry check its current value changes nothing once validity agrees with the checks |
| ValidationProperties.GeometryReplayIsNoOp | PassportPhotos/CameraViewModel.swift:222-238 | a geometry the state already records, with its checks, changes nothing |
| ValidationProperties.GeometryIdempotent | PassportPhotos/CameraViewModel.swift:180-187 | the same found geometry twice: the second changes nothing and schedules no timer |
| ValidationProperties.ResizeIdempotent | PassportPhotos/CameraViewModel.swift:164-171 | the same resize twice: the second changes nothing |
| ValidationProperties.PerformProgress | PassportPhotos/CameraViewModel.swift:145-160 | no action grants the permission to smile or lowers a timer counter |
| ValidationProperties.RunCountersGrow | PassportPhotos/CameraViewModel.swift:309-320 | over any events the scheduled and invalidated counts never decrease |
| ValidationProperties.NoFireNoSuccess | PassportPhotos/CameraViewModel.swift:311-313 | with no timer firing, smiling stays forbidden and success false, whatever observations arrive |
| ValidationProperties.LockedUntilNewTimer | PassportPhotos/CameraViewModel.swift:309-320 | from an invalid face, events that schedule no timer leave smiling forbidden and nothing pending, firings included |
| ValidationProperties.InitGeometryCoherent | PassportPhotos/CameraViewModel.swift:133-136 | initially unknown bounds come with an unacceptable pose |
| ValidationProperties.PerformKeepsGeometryCoherent | PassportPhotos/CameraViewModel.swift:215-236 | every action keeps: unknown bounds imply roll, pitch and yaw unacceptable |
| ValidationProperties.ApplyKeepsGeometryCoherent | PassportPhotos/CameraViewModel.swift:215-220 | every event keeps: unknown bounds imply roll, pitch and yaw unacceptable |
| ValidationProperties.RunKeepsGeometryCoherent | PassportPhotos/CameraViewModel.swift:215-236 | any sequence of events keeps that coherence |
| ValidationProperties.GoodGeometry | PassportPhotos/CameraViewModel.swift:240-260 | the scenario face passes the pose checks and is appropriate for the default guide |
| ValidationProperties.ScenarioValidFaceThenSmile | PassportPhotos/CameraViewModel.swift:180-205 | good geometry, quality 0.5: valid with a pending timer; its firing permits smiling; a smile then sets success |
| ValidationProperties.ScenarioLossRestartsGracePeriod | PassportPhotos/CameraViewModel.swift:173-187 | losing the face during the grace period invalidates the timer; finding it again schedules a second one |
| ValidationProperties.LossThenReturn | PassportPhotos/CameraViewModel.swift:173-187 | a valid face lost and found again with a good geometry: the held timer is invalidated and one new timer is scheduled, smiling forbidden |
| ValidationProperties.StaleSuccessAfterReturn | PassportPhotos/CameraViewModel.swift:322-330 | after loss, return, a no-smile observation and the new firing, success is still set with the smile flag false |
| ValidationProperties.ScenarioStaleSuccess | PassportPhotos/CameraViewModel.swift:322-330 | the same after a concrete successful session |
| Instructions.FaceDetectionStateLabel | PassportPhotos/CameraOverlayView.swift:43-70 | each message is shown exactly under its condition: errored and no-face first, then success, please smile, stay in frame, then too small, too large, off-centre, pose, quality, fallback |
| Instructions.LabelFollowsTimer | PassportPhotos/CameraOverlayView.swift:50-55 | between events, the valid-face messages show exactly when all five checks pass; "stay in frame" exactly while the timer is pending; "smile" or "success" once it fired |
| Instructions.FallbackOnlyWithUnknownBounds | PassportPhotos/CameraOverlayView.swift:56-68 | between events, the fallback shows for a detected face iff bounds are unknown and the other four checks pass |
| Instructions.FallbackUnreachable | PassportPhotos/CameraOverlayView.swift:66-68 | no sequence of events from the initial state shows the fallback |
| Instructions.ScenarioLabels | PassportPhotos/CameraOverlayView.swift:50-55 | the scenario shows "stay in frame", then "please smile", then "success" |
| ViewModel.CameraViewModel.constructor | PassportPhotos/CameraViewModel.swift:121-142 | the fields are the initial state and satisfy the invariant |
| ViewModel.CameraViewModel.Perform | PassportPhotos/CameraViewModel.swift:145-160 | the fields move as `Validation.Perform` and keep the invariant |
| ViewModel.CameraViewModel.TimerFired | PassportPhotos/CameraViewModel.swift:311-313 | the fields move as `Validation.TimerFired` and keep the invariant |
| ViewModel.CameraViewModel.HandleWindowSizeChanged | PassportPhotos/CameraViewModel.swift:164-171 | the fields move as the resize function |
| ViewModel.CameraViewModel.PublishNoFaceObserved | PassportPhotos/CameraViewModel.swift:173-178 | the fields move as the no-face function |
| ViewModel.CameraViewModel.PublishFaceObservation | PassportPhotos/CameraViewModel.swift:180-187 | the fields move as the geometry function |
| ViewModel.CameraViewModel.PublishFaceQualityObservation | PassportPhotos/CameraViewModel.swift:189-196 | the fields move as the quality function |
| ViewModel.CameraViewModel.PublishFaceSmileObservation | PassportPhotos/CameraViewModel.swift:198-205 | the fields move as the smile function |
| ViewModel.CameraViewModel.ToggleDebugMode | PassportPhotos/CameraViewModel.swift:207-209 | the fields move as the toggle function |
| ViewModel.CameraViewModel.SetFaceGeometryState | PassportPhotos/CameraViewModel.swift:95-99 | assignment then observer, as the functional setter |
| ViewModel.CameraViewModel.SetFaceQualityState | PassportPhotos/CameraViewModel.swift:101-105 | assignment then observer, as the functional setter |
| ViewModel.CameraViewModel.SetFaceSmileState | PassportPhotos/CameraViewModel.swift:107-111 | assignment then observer, as the functional setter |
| ViewModel.CameraViewModel.SetRoll | PassportPhotos/CameraViewModel.swift:67-71 | assignment then validity recomputation, as the functional setter |
| ViewModel.CameraViewModel.SetPitch | PassportPhotos/CameraViewModel.swift:72-76 | assignment then validity recomputation, as the functional setter |
| ViewModel.CameraViewModel.SetYaw | PassportPhotos/CameraViewModel.swift:77-81 | assignment then validity recomputation, as the functional setter |
| ViewModel.CameraViewModel.SetBounds | PassportPhotos/CameraViewModel.swift:82-86 | assignment then validity recomputation, as the functional setter |
| ViewModel.CameraViewModel.SetQuality | PassportPhotos/CameraViewModel.swift:87-91 | assignment then validity recomputation, as the functional setter |
| ViewModel.CameraViewModel.SetHasDetectedSmile | PassportPhotos/CameraViewModel.swift:62-66 | assignment then `handleSmile`, as the functional setter |
| ViewModel.CameraViewModel.InvalidateFaceGeometryState | PassportPhotos/CameraViewModel.swift:215-220 | the four assignments in order, as the functional model |
| ViewModel.CameraViewModel.ProcessUpdatedFaceGeometry | PassportPhotos/CameraViewModel.swift:222-238 | the switch on the geometry observation, as the functional model |
| ViewModel.CameraViewModel.UpdateAcceptableBounds | PassportPhotos/CameraViewModel.swift:240-254 | the if-chain against the current guide, as the functional model |
| ViewModel.CameraViewModel.UpdateAcceptableRollPitchYaw | PassportPhotos/CameraViewModel.swift:256-260 | the three assignments in order, as the functional model |
| ViewModel.CameraViewModel.ProcessUpdatedFaceQuality | PassportPhotos/CameraViewModel.swift:262-275 | the switch on the quality observation, as the functional model |
| ViewModel.CameraViewModel.ProcessUpdatedFaceSmile | PassportPhotos/CameraViewModel.swift:277-290 | the guarded switch on the smile observation, as the functional model |
| ViewModel.CameraViewModel.CalculateDetectedFaceValidity | PassportPhotos/CameraViewModel.swift:292-307 | validity and timer, as the functional model |
| ViewModel.CameraViewModel.StartFaceDetectionTimer | PassportPhotos/CameraViewModel.swift:309-314 | the guarded start, as the functional model |
| ViewModel.CameraViewModel.CancelFaceDetectionTimer | PassportPhotos/CameraViewModel.swift:316-320 | invalidate, drop, forbid smiling, as the functional model |
| ViewModel.CameraViewModel.HandleSmile | PassportPhotos/CameraViewModel.swift:322-330 | the guarded success update, as the functional model |

## Left out

- The `FaceDetector` class (AVFoundation capture, Vision and CIDetector requests, pixel-buffer conversion) is foreign-library I/O. Its results arrive as the six actions.
- The `DispatchQueue.main.async` hops of the publish handlers are concurrency plumbing. The model applies each action's assignments at once, one action at a time, in order.
- Real timer scheduling is left out. The two-second interval is the constant `GraceInterval`, and time is not modelled: the firing is the explicit `TimerFired` event, which can come at any point in an event sequence. The model does not bound when it comes.
- Combine `@Published` change notification, the unused `shutterReleased` subject and the `print` logging have no effect on the state and are left out.
- The SwiftUI views (debug overlay, layout, fonts, colours, the camera view and app wiring) are presentation and are left out.
- `CGFloat`/`Double`/`Float` rounding is not modelled. Arithmetic is exact `real`, so the boundary lemmas assume exact comparisons. `NSNumber.doubleValue` is the identity.
- The `Error` carried by a failed observation is a string, because only its presence matters.
- The source has no session teardown that cancels the timer, so none is modelled.
- The two timer counters are not in the source, which keeps no such counts; they exist to state "at most one outstanding timer" and "start then cancel". In `Validation.GraceTimer` they are ordinary fields of the state value; only in the class `ViewModel.CameraViewModel` are they ghost fields.
- ViewModel.CameraViewModel.Perform: requires the invariant. The Swift class always satisfies it, because only the initializer and these methods change the fields.
