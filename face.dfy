/**
 * Identity check and blink/gaze classification (face_recognition_utils.py).
 *
 * The face encodings and the face-mesh measurements come from libraries
 * outside this model; they are inputs here. The identity check fails closed:
 * it answers yes only when both images yield an encoding and the first two
 * encodings lie within the tolerance of each other. The gaze check turns the
 * measured eye-aspect ratios, iris ratios and iris heights into a reading by
 * fixed thresholds.
 */
module FaceVerification {
  import opened Wrappers

  const DefaultTolerance: real := 0.6
  const DefaultEarThreshold: real := 0.25
  const LeftBound: real := 0.35
  const RightBound: real := 0.65
  const DownMargin: real := 0.02

  /** What the encoder returned for one face: a numeric array or some other object. */
  datatype Encoding = NdArray(vector: seq<real>) | NotArray

  /**
   * `verify_identity`: `refs` and `lives` are the encodings found in the reference
   * image and in the live frame; `distance` is the encoder's face distance.
   */
  function VerifyIdentity(refs: seq<Encoding>, lives: seq<Encoding>,
                          distance: (seq<real>, seq<real>) -> real, tolerance: real): (ok: bool)
    // Fail closed: no reference face or no live face means no match.
    ensures refs == [] ==> !ok
    ensures lives == [] ==> !ok
    ensures ok ==> refs[0].NdArray? && lives[0].NdArray?
    ensures ok <==> refs != [] && lives != [] && refs[0].NdArray? && lives[0].NdArray? &&
                    distance(refs[0].vector, lives[0].vector) <= tolerance
  {
    if refs == [] then false
    else
      var reference := refs[0];
      if lives == [] then false
      else if reference.NdArray? && lives[0].NdArray? then
        distance(reference.vector, lives[0].vector) <= tolerance
      else false
  }

  /** Only the first encoding on each side is compared; further faces play no part. */
  lemma OnlyFirstEncodingsCompared(refs: seq<Encoding>, lives: seq<Encoding>, refs': seq<Encoding>, lives': seq<Encoding>,
                                   distance: (seq<real>, seq<real>) -> real, tolerance: real)
    requires refs != [] && lives != [] && refs' != [] && lives' != []
    requires refs[0] == refs'[0] && lives[0] == lives'[0]
    ensures VerifyIdentity(refs, lives, distance, tolerance) == VerifyIdentity(refs', lives', distance, tolerance)
  {
  }

  /** A larger tolerance accepts every pair a smaller one accepts. */
  lemma ToleranceMonotone(refs: seq<Encoding>, lives: seq<Encoding>,
                          distance: (seq<real>, seq<real>) -> real, t1: real, t2: real)
    requires t1 <= t2 && VerifyIdentity(refs, lives, distance, t1)
    ensures VerifyIdentity(refs, lives, distance, t2)
  {
  }

  /** The face-mesh quantities `detect_gaze_deviation` compares, for a frame where a face was found. */
  datatype EyeMeasures = EyeMeasures(
    leftEar: real, rightEar: real,
    leftRatio: real, rightRatio: real,
    leftIrisY: real, rightIrisY: real, leftOuterY: real)

  /** What the face mesh saw: no frame at all, a frame without a face, or a face. */
  datatype MeshInput = NoFrame | NoFace | Face(measures: EyeMeasures)

  datatype Direction = LookingLeft | LookingRight | LookingDown | LookingCenter

  /** The direction as the text the source returns. */
  function DirectionText(d: Direction): string {
    match d
    case LookingLeft => "Looking Left"
    case LookingRight => "Looking Right"
    case LookingDown => "Looking Down"
    case LookingCenter => "Looking Center"
  }

  /** The four-tuple `(gaze_deviated, direction, no_face, blink)`. */
  datatype GazeReading = GazeReading(deviated: bool, direction: Option<Direction>, noFace: bool, blink: bool)

  const NoFaceReading: GazeReading := GazeReading(false, None, true, false)

  /** The if/elif direction rule over the averaged ratio and the iris height. */
  function Classify(m: EyeMeasures): (d: Direction)
    ensures (m.leftRatio + m.rightRatio) / 2.0 < LeftBound <==> d == LookingLeft
    ensures d == LookingRight <==> LeftBound <= (m.leftRatio + m.rightRatio) / 2.0 && (m.leftRatio + m.rightRatio) / 2.0 > RightBound
    ensures d == LookingDown <==>
      LeftBound <= (m.leftRatio + m.rightRatio) / 2.0 <= RightBound &&
      (m.leftIrisY + m.rightIrisY) / 2.0 > m.leftOuterY + DownMargin
    ensures d == LookingCenter <==>
      LeftBound <= (m.leftRatio + m.rightRatio) / 2.0 <= RightBound &&
      (m.leftIrisY + m.rightIrisY) / 2.0 <= m.leftOuterY + DownMargin
  {
    var avgRatio := (m.leftRatio + m.rightRatio) / 2.0;
    if avgRatio < LeftBound then LookingLeft
    else if avgRatio > RightBound then LookingRight
    else if (m.leftIrisY + m.rightIrisY) / 2.0 > m.leftOuterY + DownMargin then LookingDown
    else LookingCenter
  }

  /** `detect_gaze_deviation(frame, ear_threshold)`. */
  function DetectGazeDeviation(input: MeshInput, earThreshold: real): (r: GazeReading)
    // Without a face the reading is the fixed "no face" tuple.
    ensures !input.Face? ==> r == NoFaceReading
    // With a face there is always a direction and no "no face" flag.
    ensures input.Face? ==> !r.noFace && r.direction.Some?
    ensures input.Face? ==> (r.blink <==> (input.measures.leftEar + input.measures.rightEar) / 2.0 < earThreshold)
    // Deviation means a non-central direction with open eyes.
    ensures r.deviated <==> r.direction.Some? && r.direction.value != LookingCenter && !r.blink
  {
    match input
    case NoFrame => NoFaceReading
    case NoFace => NoFaceReading
    case Face(m) =>
      var avgEar := (m.leftEar + m.rightEar) / 2.0;
      var blink := avgEar < earThreshold;
      var direction := Classify(m);
      GazeReading(direction != LookingCenter && !blink, Some(direction), false, blink)
  }

  /** A blink always suppresses a deviation, whatever the eyes' direction. */
  lemma BlinkSuppressesDeviation(input: MeshInput, earThreshold: real)
    requires DetectGazeDeviation(input, earThreshold).blink
    ensures !DetectGazeDeviation(input, earThreshold).deviated
  {
  }

  /** Looking up is never reported: a high iris falls under one of the four other readings. */
  lemma DirectionIsOneOfFour(m: EyeMeasures)
    ensures Classify(m) in {LookingLeft, LookingRight, LookingDown, LookingCenter}
  {
  }

  /** A deviation is reported exactly when a face is present, the eyes are open and the gaze is off-centre. */
  lemma DeviationIff(input: MeshInput, earThreshold: real)
    ensures DetectGazeDeviation(input, earThreshold).deviated <==>
      input.Face? && (input.measures.leftEar + input.measures.rightEar) / 2.0 >= earThreshold &&
      Classify(input.measures) != LookingCenter
  {
  }
}
