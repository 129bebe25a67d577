/**
 * The pure pixel helpers of the annotation overlay (visualizer.py): scaling
 * normalised landmarks to pixel coordinates and the bounding box of a hand.
 * Drawing itself is not modelled.
 */
module Visualizer {
  import opened Landmarks

  /** A pixel position (x, y). */
  type Pixel = (int, int)

  /** A box as (x_min, y_min, x_max, y_max). */
  datatype Box = Box(xMin: int, yMin: int, xMax: int, yMax: int)

  /** Python's `int()` on a number: truncation toward zero. */
  function Trunc(r: real): (n: int)
    ensures r >= 0.0 ==> n == r.Floor
    ensures r >= 0.0 ==> 0 <= n && n as real <= r < n as real + 1.0
    ensures r < 0.0 ==> n <= 0 && n as real - 1.0 < r <= n as real
  {
    if r >= 0.0 then r.Floor else -((-r).Floor)
  }

  /** The horizontal coordinate after optional mirroring. */
  function DisplayX(p: Point, mirror: bool): real
  {
    if mirror then 1.0 - p.x else p.x
  }

  /** A normalised coordinate scaled to `size` pixels: `int(c * (size - 1))`. */
  function Scale(c: real, size: int): int
  {
    Trunc(c * (size - 1) as real)
  }

  /** The pixel of one landmark in a `width` x `height` image, mirrored horizontally if asked. */
  function PixelOf(p: Point, width: int, height: int, mirror: bool): Pixel
  {
    (Scale(DisplayX(p, mirror), width), Scale(p.y, height))
  }

  /** `_to_pixel_points`: one pixel per landmark, in order. */
  method ToPixelPoints(lms: Landmarks, width: int, height: int, mirror: bool) returns (points: seq<Pixel>)
    ensures |points| == |lms|
    ensures forall i :: 0 <= i < |lms| ==> points[i] == PixelOf(lms[i], width, height, mirror)
  {
    points := [];
    var i := 0;
    while i < |lms|
      invariant 0 <= i <= |lms|
      invariant |points| == i
      invariant forall k :: 0 <= k < i ==> points[k] == PixelOf(lms[k], width, height, mirror)
    {
      var xNorm := lms[i].x;
      var yNorm := lms[i].y;
      if mirror {
        xNorm := 1.0 - xNorm;
      }
      var xPx := Scale(xNorm, width);
      var yPx := Scale(yNorm, height);
      points := points + [(xPx, yPx)];
      i := i + 1;
    }
  }

  /** Normalised coordinates in [0, 1] land inside the image. */
  lemma PixelInImage(p: Point, width: int, height: int, mirror: bool)
    requires 0.0 <= p.x <= 1.0 && 0.0 <= p.y <= 1.0
    requires width >= 1 && height >= 1
    ensures 0 <= PixelOf(p, width, height, mirror).0 <= width - 1
    ensures 0 <= PixelOf(p, width, height, mirror).1 <= height - 1
  {
    ScaledPixelInRange(DisplayX(p, mirror), width);
    ScaledPixelInRange(p.y, height);
  }

  lemma ScaledPixelInRange(c: real, size: int)
    requires 0.0 <= c <= 1.0 && size >= 1
    ensures 0 <= Scale(c, size) <= size - 1
  {
    var m := (size - 1) as real;
    assert 0.0 <= c * m <= m by {
      assert c * m <= 1.0 * m;
    }
    var n := Trunc(c * m);
    assert n as real <= m;
  }

  /** Mirroring replaces x by 1 - x before scaling and leaves y alone. */
  lemma MirrorFlipsX(p: Point, width: int, height: int)
    ensures PixelOf(p, width, height, true) == PixelOf(p.(x := 1.0 - p.x), width, height, false)
    ensures PixelOf(p, width, height, true).1 == PixelOf(p, width, height, false).1
  {
  }

  /** The smallest entry of a non-empty list. */
  function MinOf(xs: seq<int>): (m: int)
    requires |xs| > 0
    ensures m in xs
    ensures forall i :: 0 <= i < |xs| ==> m <= xs[i]
  {
    if |xs| == 1 then xs[0]
    else
      var rest := MinOf(xs[1..]);
      assert forall i :: 1 <= i < |xs| ==> xs[i] == xs[1..][i - 1];
      if xs[0] <= rest then xs[0] else rest
  }

  /** The largest entry of a non-empty list. */
  function MaxOf(xs: seq<int>): (m: int)
    requires |xs| > 0
    ensures m in xs
    ensures forall i :: 0 <= i < |xs| ==> xs[i] <= m
  {
    if |xs| == 1 then xs[0]
    else
      var rest := MaxOf(xs[1..]);
      assert forall i :: 1 <= i < |xs| ==> xs[i] == xs[1..][i - 1];
      if xs[0] >= rest then xs[0] else rest
  }

  function Xs(points: seq<Pixel>): (xs: seq<int>)
    ensures |xs| == |points| && forall i :: 0 <= i < |points| ==> xs[i] == points[i].0
  {
    seq(|points|, i requires 0 <= i < |points| => points[i].0)
  }

  function Ys(points: seq<Pixel>): (ys: seq<int>)
    ensures |ys| == |points| && forall i :: 0 <= i < |points| ==> ys[i] == points[i].1
  {
    seq(|points|, i requires 0 <= i < |points| => points[i].1)
  }

  /** `_bounding_box`: the smallest box holding every point; each side touches a point. */
  function BoundingBox(points: seq<Pixel>): (b: Box)
    requires |points| > 0
    ensures b.xMin <= b.xMax && b.yMin <= b.yMax
    ensures forall i :: 0 <= i < |points| ==>
              b.xMin <= points[i].0 <= b.xMax && b.yMin <= points[i].1 <= b.yMax
    ensures exists i :: 0 <= i < |points| && points[i].0 == b.xMin
    ensures exists i :: 0 <= i < |points| && points[i].0 == b.xMax
    ensures exists i :: 0 <= i < |points| && points[i].1 == b.yMin
    ensures exists i :: 0 <= i < |points| && points[i].1 == b.yMax
  {
    var xs := Xs(points);
    var ys := Ys(points);
    Box(MinOf(xs), MinOf(ys), MaxOf(xs), MaxOf(ys))
  }

  /** The hands with at least one point, in their original order. */
  function NonEmptyHands(hands: seq<seq<Pixel>>): (ne: seq<seq<Pixel>>)
    ensures |ne| <= |hands|
    ensures forall i :: 0 <= i < |ne| ==> |ne[i]| > 0
    ensures (forall i :: 0 <= i < |hands| ==> |hands[i]| > 0) ==> ne == hands
    ensures multiset(ne) == multiset(hands)[[] := 0]
    ensures |hands| == 1 ==> ne == if |hands[0]| > 0 then hands else []
  {
    if |hands| == 0 then []
    else
      assert hands == [hands[0]] + hands[1..];
      if |hands[0]| == 0 then NonEmptyHands(hands[1..])
      else [hands[0]] + NonEmptyHands(hands[1..])
  }

  /** Filtering a concatenation filters each part in turn, so the kept hands stay in order. */
  lemma {:induction false} NonEmptyHandsAppend(a: seq<seq<Pixel>>, b: seq<seq<Pixel>>)
    ensures NonEmptyHands(a + b) == NonEmptyHands(a) + NonEmptyHands(b)
  {
    if |a| > 0 {
      assert (a + b)[1..] == a[1..] + b;
      NonEmptyHandsAppend(a[1..], b);
    } else {
      assert a + b == b;
    }
  }

  /** One bounding box per hand, in the hands' order. */
  function BoxesOf(hands: seq<seq<Pixel>>): (boxes: seq<Box>)
    requires forall i :: 0 <= i < |hands| ==> |hands[i]| > 0
    ensures |boxes| == |hands|
  {
    if |hands| == 0 then [] else [BoundingBox(hands[0])] + BoxesOf(hands[1..])
  }

  /** The boxes `render` draws: one per hand with at least one point, in order; empty hands are skipped. */
  function RenderedBoxes(hands: seq<seq<Pixel>>): (boxes: seq<Box>)
    ensures |boxes| <= |hands|
    ensures (forall i :: 0 <= i < |hands| ==> |hands[i]| > 0) ==> |boxes| == |hands|
    ensures boxes == BoxesOf(NonEmptyHands(hands))
  {
    if |hands| == 0 then []
    else if |hands[0]| == 0 then RenderedBoxes(hands[1..])
    else
      assert NonEmptyHands(hands)[1..] == NonEmptyHands(hands[1..]);
      [BoundingBox(hands[0])] + RenderedBoxes(hands[1..])
  }

  /** The i-th entry of `BoxesOf` is the bounding box of the i-th hand. */
  lemma {:induction false} BoxesOfIndex(hands: seq<seq<Pixel>>, i: int)
    requires forall j :: 0 <= j < |hands| ==> |hands[j]| > 0
    requires 0 <= i < |hands|
    ensures BoxesOf(hands)[i] == BoundingBox(hands[i])
  {
    if i > 0 {
      BoxesOfIndex(hands[1..], i - 1);
    }
  }
}
