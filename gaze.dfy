/**
 * The five-way gaze classifier (gaze_detection.py).
 *
 * The face mesh gives iris and eye-corner landmarks, already converted to
 * whole pixel coordinates. Each eye yields a horizontal and a vertical ratio
 * whose denominator is clamped to at least one pixel; the two eyes are
 * averaged, and the horizontal average is consulted before the vertical one.
 */
module GazeDirection {
  import opened Wrappers

  const LowBound: real := 0.35
  const HighBound: real := 0.65

  /** The twelve pixel coordinates `get_gaze_direction` reads from the landmarks. */
  datatype EyePixels = EyePixels(
    leftIrisX: int, rightIrisX: int, leftIrisY: int, rightIrisY: int,
    leftOuterX: int, leftInnerX: int, rightOuterX: int, rightInnerX: int,
    leftTopY: int, leftBottomY: int, rightTopY: int, rightBottomY: int)

  datatype Gaze = LookingLeft | LookingRight | LookingUp | LookingDown | LookingForward

  function GazeText(g: Gaze): string {
    match g
    case LookingLeft => "LOOKING_LEFT"
    case LookingRight => "LOOKING_RIGHT"
    case LookingUp => "LOOKING_UP"
    case LookingDown => "LOOKING_DOWN"
    case LookingForward => "LOOKING_FORWARD"
  }

  /** `max(span, 1)`: a span of zero or less pixels counts as one. */
  function Clamp(span: int): (d: int)
    ensures d >= 1 && d >= span
    ensures span >= 1 ==> d == span
  {
    if span > 1 then span else 1
  }

  /** `(a - origin) / max(span, 1)` with Python's true division. */
  function EyeRatio(a: int, origin: int, span: int): (r: real)
    ensures span >= 1 ==> r * span as real == (a - origin) as real
    ensures span < 1 ==> r == (a - origin) as real
  {
    (a - origin) as real / Clamp(span) as real
  }

  /** The mean of the two eyes' horizontal ratios. */
  function HorizontalRatio(p: EyePixels): real {
    (EyeRatio(p.leftIrisX, p.leftOuterX, p.leftInnerX - p.leftOuterX) +
     EyeRatio(p.rightIrisX, p.rightInnerX, p.rightOuterX - p.rightInnerX)) / 2.0
  }

  /** The mean of the two eyes' vertical ratios. */
  function VerticalRatio(p: EyePixels): real {
    (EyeRatio(p.leftIrisY, p.leftTopY, p.leftBottomY - p.leftTopY) +
     EyeRatio(p.rightIrisY, p.rightTopY, p.rightBottomY - p.rightTopY)) / 2.0
  }

  /** The if/elif chain over the two averaged ratios. */
  function Decide(h: real, v: real): (g: Gaze)
    // The horizontal ratio decides alone when it is out of the middle band.
    ensures g == LookingLeft <==> h < LowBound
    ensures g == LookingRight <==> h > HighBound
    // The vertical ratio is consulted only inside the horizontal band.
    ensures g == LookingUp <==> LowBound <= h <= HighBound && v < LowBound
    ensures g == LookingDown <==> LowBound <= h <= HighBound && v > HighBound
    ensures g == LookingForward <==> LowBound <= h <= HighBound && LowBound <= v <= HighBound
  {
    if h < LowBound then LookingLeft
    else if h > HighBound then LookingRight
    else if v < LowBound then LookingUp
    else if v > HighBound then LookingDown
    else LookingForward
  }

  /** `get_gaze_direction`: no face gives `None`, otherwise one of the five directions. */
  function GetGazeDirection(face: Option<EyePixels>): (r: Option<Gaze>)
    ensures face.None? <==> r.None?
    ensures face.Some? ==> r == Some(Decide(HorizontalRatio(face.value), VerticalRatio(face.value)))
  {
    match face
    case None => None
    case Some(p) => Some(Decide(HorizontalRatio(p), VerticalRatio(p)))
  }

  /** Horizontal precedence: once the horizontal ratio is out of band, the vertical ratio has no say. */
  lemma HorizontalPrecedence(h: real, v1: real, v2: real)
    requires h < LowBound || h > HighBound
    ensures Decide(h, v1) == Decide(h, v2)
  {
  }

  /** Irises centred between the corners on both axes read as forward. */
  lemma CentredIsForward(p: EyePixels)
    requires p.leftInnerX - p.leftOuterX == 2 * (p.leftIrisX - p.leftOuterX) && p.leftInnerX - p.leftOuterX >= 1
    requires p.rightOuterX - p.rightInnerX == 2 * (p.rightIrisX - p.rightInnerX) && p.rightOuterX - p.rightInnerX >= 1
    requires p.leftBottomY - p.leftTopY == 2 * (p.leftIrisY - p.leftTopY) && p.leftBottomY - p.leftTopY >= 1
    requires p.rightBottomY - p.rightTopY == 2 * (p.rightIrisY - p.rightTopY) && p.rightBottomY - p.rightTopY >= 1
    ensures GetGazeDirection(Some(p)) == Some(LookingForward)
  {
    HalfwayIsHalf(p.leftIrisX, p.leftOuterX, p.leftInnerX - p.leftOuterX);
    HalfwayIsHalf(p.rightIrisX, p.rightInnerX, p.rightOuterX - p.rightInnerX);
    HalfwayIsHalf(p.leftIrisY, p.leftTopY, p.leftBottomY - p.leftTopY);
    HalfwayIsHalf(p.rightIrisY, p.rightTopY, p.rightBottomY - p.rightTopY);
  }

  /** An iris halfway along a span of at least one pixel has ratio one half. */
  lemma HalfwayIsHalf(a: int, origin: int, span: int)
    requires span >= 1 && span == 2 * (a - origin)
    ensures EyeRatio(a, origin, span) == 0.5
  {
    var d := (a - origin) as real;
    assert span as real == 2.0 * d;
    assert (a - origin) as real / Clamp(span) as real == d / (2.0 * d);
  }

  /** Collapsed eyes (zero-width spans) divide by one instead of failing. */
  lemma CollapsedEyeDividesByOne(p: EyePixels)
    requires p.leftInnerX == p.leftOuterX && p.rightOuterX == p.rightInnerX
    ensures HorizontalRatio(p) == ((p.leftIrisX - p.leftOuterX) + (p.rightIrisX - p.rightInnerX)) as real / 2.0
  {
  }
}
