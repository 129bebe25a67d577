/**
 * The hand-tracking boundary: landmark coordinates, the hand side and the
 * gesture classifier, which is an abstract, deterministic, side-effect-free
 * oracle. Its two operations are total functions supplied by the caller.
 */
module Landmarks {
  import opened Wrappers
  import opened Domain

  /** A normalised landmark (x, y, depth). */
  datatype Point = Point(x: real, y: real, z: real)

  /** The 21 points of one hand; the empty sequence stands for "no landmarks". */
  type Landmarks = seq<Point>

  /** Index of the wrist landmark. */
  const Wrist: nat := 0

  datatype Side = Left | Right

  /** determine_hand_direction and determine_move. */
  datatype Classifier = Classifier(
    handDirection: Landmarks -> Option<ThumbDirection>,
    handMove: (Side, Landmarks) -> Option<Move>)

  /** The direction read for a frame; no landmarks means no gesture. */
  function DirectionOf(cls: Classifier, lms: Landmarks): (d: Option<ThumbDirection>)
    ensures |lms| == 0 ==> d == None
    ensures |lms| > 0 ==> d == cls.handDirection(lms)
  {
    if |lms| > 0 then cls.handDirection(lms) else None
  }

  /** The landmarks of the primary hand; no hand means no landmarks. */
  function LandmarksOf(hand: Option<(Side, Landmarks)>): (lms: Landmarks)
    ensures hand.None? ==> lms == []
    ensures hand.Some? ==> lms == hand.value.1
  {
    if hand.Some? then hand.value.1 else []
  }
}
