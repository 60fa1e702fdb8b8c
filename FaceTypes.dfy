/** Value types shared by the camera view model: the actions it accepts, the
    state enums it publishes, the detector's measurement records and the
    three-way observation wrapper, plus the CoreGraphics rectangle getters the
    bounds check uses. */
module FaceTypes {

  /** A CoreGraphics rectangle: an origin and a size whose components may be
      negative, as CGRect stores them. */
  datatype Rect = Rect(x: real, y: real, sizeWidth: real, sizeHeight: real)

  function Abs(v: real): (r: real)
    ensures r >= 0.0 && (r == v || r == -v)
  {
    if v < 0.0 then -v else v
  }

  /** CGRect.width: the standardized (non-negative) width. */
  function Width(r: Rect): (w: real)
    ensures w >= 0.0 && (w == r.sizeWidth || w == -r.sizeWidth)
  {
    Abs(r.sizeWidth)
  }

  /** CGRect.height: the standardized (non-negative) height. */
  function Height(r: Rect): (h: real)
    ensures h >= 0.0 && (h == r.sizeHeight || h == -r.sizeHeight)
  {
    Abs(r.sizeHeight)
  }

  /** CGRect.midX: the x coordinate halfway between the two vertical edges,
      whatever the sign of the width. */
  function MidX(r: Rect): (m: real)
    ensures m - r.x == (r.x + r.sizeWidth) - m
  {
    r.x + r.sizeWidth / 2.0
  }

  /** CGRect.midY: the y coordinate halfway between the two horizontal edges,
      whatever the sign of the height. */
  function MidY(r: Rect): (m: real)
    ensures m - r.y == (r.y + r.sizeHeight) - m
  {
    r.y + r.sizeHeight / 2.0
  }

  /** What the detector delivers for one measurement kind. */
  datatype FaceObservation<T> = FaceNotFound | FaceFound(model: T) | Errored(reason: string)

  datatype FaceGeometryModel = FaceGeometryModel(boundingBox: Rect, roll: real, pitch: real, yaw: real)

  datatype FaceQualityModel = FaceQualityModel(quality: real)

  datatype FaceSmileModel = FaceSmileModel(smileDetected: bool)

  datatype CameraViewModelAction =
    | WindowSizeDetected(windowRect: Rect)
    | NoFaceDetected
    | FaceObservationDetected(geometry: FaceGeometryModel)
    | FaceQualityObservationDetected(quality: FaceQualityModel)
    | FaceSmaileObservationDetected(smile: FaceSmileModel)
    | ToggleDebugMode

  datatype FaceDetectedState = FaceDetected | NoFaceDetected | FaceDetectionErrored

  datatype FaceBoundsState =
    | Unknown
    | DetectedFaceTooSmall
    | DetectedFaceTooLarge
    | DetectedFaceOffCentre
    | DetectedFaceAppropriateSizeAndPosition
}
