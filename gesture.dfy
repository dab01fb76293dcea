// Gesture guards used by the stage logic: plain predicates over one
// tracked hand. Landmark coordinates are normalised to the camera frame.

module Gesture {

  /** One landmark in normalised camera coordinates. */
  datatype Point = Point(x: real, y: real)

  /** The three landmarks the stage logic reads, by MediaPipe's hand
      convention: index 4 is the thumb tip, 8 the index tip, 12 the
      middle-finger tip. */
  datatype Hand = Hand(thumbTip: Point, indexTip: Point, middleTip: Point)

  /** Thumb-to-index distance threshold for a pinch. */
  const PinchThreshold: real := 0.05

  /** A raised hand has its middle-finger tip in the top 30% of the frame. */
  const RaisedThreshold: real := 0.3

  /** Squared thumb-to-index distance in the image plane. */
  function PinchDistanceSquared(h: Hand): (d2: real)
    ensures d2 >= 0.0
  {
    var dx := h.thumbTip.x - h.indexTip.x;
    var dy := h.thumbTip.y - h.indexTip.y;
    dx * dx + dy * dy
  }

  /** The pinch test, compared on squared distance (no square root). A
      pinch has the two tips within 0.05 of each other on each axis. */
  predicate IsPinch(h: Hand)
    ensures IsPinch(h) ==> -PinchThreshold < h.thumbTip.x - h.indexTip.x < PinchThreshold
    ensures IsPinch(h) ==> -PinchThreshold < h.thumbTip.y - h.indexTip.y < PinchThreshold
  {
    var dx := h.thumbTip.x - h.indexTip.x;
    var dy := h.thumbTip.y - h.indexTip.y;
    AxisBelow(dx, dy);
    AxisBelow(dy, dx);
    dx * dx + dy * dy < PinchThreshold * PinchThreshold
  }

  /** If a*a + b*b is below 0.05 squared, a lies strictly between -0.05
      and 0.05. */
  lemma AxisBelow(a: real, b: real)
    ensures a * a + b * b < PinchThreshold * PinchThreshold ==> -PinchThreshold < a < PinchThreshold
  {
    assert b * b >= 0.0;
    if a >= PinchThreshold {
      assert a * a >= a * PinchThreshold >= PinchThreshold * PinchThreshold;
    } else if a <= -PinchThreshold {
      assert a * a >= -a * PinchThreshold >= PinchThreshold * PinchThreshold;
    }
  }

  /** The raised-hand test. */
  predicate IsRaised(h: Hand) {
    h.middleTip.y < RaisedThreshold
  }

  /** For the Euclidean distance d (the non-negative root of the squared
      distance), the squared test agrees with "d < 0.05" in both
      directions. */
  lemma PinchIffDistanceBelow(h: Hand, d: real)
    requires d >= 0.0 && d * d == PinchDistanceSquared(h)
    ensures IsPinch(h) <==> d < PinchThreshold
  {
    if d < PinchThreshold {
      assert d * d <= d * PinchThreshold < PinchThreshold * PinchThreshold;
    } else {
      assert d * d >= d * PinchThreshold >= PinchThreshold * PinchThreshold;
    }
  }
}
