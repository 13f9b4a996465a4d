/**
 * Rescaling of the model's bounding boxes from the size of the image the model
 * was given (`imgSize`) into the size of the image as it is rendered on screen
 * (`display`, read from the rendered `<img>` element). The x-axis pair
 * (x, width) and the y-axis pair (y, height) are scaled independently.
 */
module Normalize {
  import opened Types

  /**
   * The source divides by `imgSize.width` and `imgSize.height` once for every
   * detection; a division by zero can only happen when there is a detection to
   * rescale and a size to divide by.
   */
  predicate Divisible(predictions: Option<seq<Detection>>, imgSize: Option<Size>)
  {
    predictions.Some? && |predictions.value| > 0 && imgSize.Some? ==>
      imgSize.value.width != 0.0 && imgSize.value.height != 0.0
  }

  /** A box with its x-axis pair scaled by `rx` and its y-axis pair by `ry`. */
  function ScaleBox(b: Box, rx: real, ry: real): Box
  {
    Box(b.x * rx, b.y * ry, b.width * rx, b.height * ry)
  }

  /** The rescaling of one detection: a new box, every other field kept. */
  function NormalizeDetection(d: Detection, imgSize: Size, display: Size): Detection
    requires imgSize.width != 0.0 && imgSize.height != 0.0
  {
    var b := d.bbox;
    d.(bbox := Box(Rescale(b.x, display.width, imgSize.width),
                   Rescale(b.y, display.height, imgSize.height),
                   Rescale(b.width, display.width, imgSize.width),
                   Rescale(b.height, display.height, imgSize.height)))
  }

  /** `(v * to) / from`, the source's order of operations for one coordinate. */
  function Rescale(v: real, to: real, from: real): real
    requires from != 0.0
  {
    (v * to) / from
  }

  /** `predictions.map(...)`: the rescaling applied element by element, in order. */
  function NormalizeAll(ps: seq<Detection>, imgSize: Size, display: Size): (r: seq<Detection>)
    requires imgSize.width != 0.0 && imgSize.height != 0.0
    ensures |r| == |ps|
    ensures forall i :: 0 <= i < |ps| ==> r[i] == NormalizeDetection(ps[i], imgSize, display)
  {
    if ps == [] then []
    else [NormalizeDetection(ps[0], imgSize, display)] + NormalizeAll(ps[1..], imgSize, display)
  }

  /**
   * `normalizePredictions`: a missing list gives the empty list, a missing size
   * gives the list back untouched, and otherwise every box is rescaled.
   */
  function NormalizePredictions(predictions: Option<seq<Detection>>, imgSize: Option<Size>,
                                display: Size): (r: seq<Detection>)
    requires Divisible(predictions, imgSize)
    ensures predictions.None? ==> r == []
    ensures predictions.Some? && imgSize.None? ==> r == predictions.value
    ensures predictions.Some? && imgSize.Some? ==>
      var ps, s := predictions.value, imgSize.value;
      |r| == |ps| &&
      forall i :: 0 <= i < |ps| ==>
        r[i].className == ps[i].className && r[i].score == ps[i].score &&
        r[i].bbox == Box(Rescale(ps[i].bbox.x, display.width, s.width),
                         Rescale(ps[i].bbox.y, display.height, s.height),
                         Rescale(ps[i].bbox.width, display.width, s.width),
                         Rescale(ps[i].bbox.height, display.height, s.height))
  {
    match predictions
    case None => []
    case Some(ps) =>
      match imgSize
      case None => ps
      case Some(s) => if ps == [] then [] else NormalizeAll(ps, s, display)
  }

  /**
   * Every detection of one call is scaled by the same pair of ratios,
   * `display.width / imgSize.width` for x and width and
   * `display.height / imgSize.height` for y and height.
   */
  lemma UniformRatios(ps: seq<Detection>, imgSize: Size, display: Size)
    requires imgSize.width != 0.0 && imgSize.height != 0.0
    ensures var r := NormalizePredictions(Some(ps), Some(imgSize), display);
      var rx, ry := display.width / imgSize.width, display.height / imgSize.height;
      |r| == |ps| &&
      forall i :: 0 <= i < |ps| ==>
        r[i] == ps[i].(bbox := ScaleBox(ps[i].bbox, rx, ry))
  {
    var r := NormalizePredictions(Some(ps), Some(imgSize), display);
    assert r == NormalizeAll(ps, imgSize, display);
    forall i | 0 <= i < |ps|
      ensures r[i] == ps[i].(bbox := ScaleBox(ps[i].bbox, display.width / imgSize.width,
                                                           display.height / imgSize.height))
    {
      DetectionRatios(ps[i], imgSize, display);
    }
  }

  lemma DetectionRatios(d: Detection, imgSize: Size, display: Size)
    requires imgSize.width != 0.0 && imgSize.height != 0.0
    ensures NormalizeDetection(d, imgSize, display) ==
            d.(bbox := ScaleBox(d.bbox, display.width / imgSize.width, display.height / imgSize.height))
  {
    var b := d.bbox;
    MulDiv(b.x, display.width, imgSize.width);
    MulDiv(b.y, display.height, imgSize.height);
    MulDiv(b.width, display.width, imgSize.width);
    MulDiv(b.height, display.height, imgSize.height);
  }

  /** `(a * d) / s` is `a` scaled by the ratio `d / s`. */
  lemma MulDiv(a: real, d: real, s: real)
    requires s != 0.0
    ensures Rescale(a, d, s) == a * (d / s)
  {
  }

  /**
   * The two axes are independent: the x-axis pair of every output box depends
   * on the widths only, the y-axis pair on the heights only.
   */
  lemma AxesIndependent(ps: seq<Detection>, s1: Size, d1: Size, s2: Size, d2: Size)
    requires s1.width != 0.0 && s1.height != 0.0 && s2.width != 0.0 && s2.height != 0.0
    ensures var r1, r2 := NormalizePredictions(Some(ps), Some(s1), d1),
                          NormalizePredictions(Some(ps), Some(s2), d2);
      |r1| == |r2| == |ps| &&
      (s1.width == s2.width && d1.width == d2.width ==>
         forall i :: 0 <= i < |ps| ==> r1[i].bbox.x == r2[i].bbox.x && r1[i].bbox.width == r2[i].bbox.width) &&
      (s1.height == s2.height && d1.height == d2.height ==>
         forall i :: 0 <= i < |ps| ==> r1[i].bbox.y == r2[i].bbox.y && r1[i].bbox.height == r2[i].bbox.height)
  {
    var r1, r2 := NormalizeAll(ps, s1, d1), NormalizeAll(ps, s2, d2);
    assert NormalizePredictions(Some(ps), Some(s1), d1) == r1;
    assert NormalizePredictions(Some(ps), Some(s2), d2) == r2;
    forall i | 0 <= i < |ps|
      ensures s1.width == s2.width && d1.width == d2.width ==>
                r1[i].bbox.x == r2[i].bbox.x && r1[i].bbox.width == r2[i].bbox.width
      ensures s1.height == s2.height && d1.height == d2.height ==>
                r1[i].bbox.y == r2[i].bbox.y && r1[i].bbox.height == r2[i].bbox.height
    {
      assert r1[i] == NormalizeDetection(ps[i], s1, d1);
      assert r2[i] == NormalizeDetection(ps[i], s2, d2);
    }
  }

  /** Rescaling commutes with concatenation: the map keeps order and pairing. */
  lemma {:induction false} NormalizeAppend(a: seq<Detection>, b: seq<Detection>, imgSize: Size, display: Size)
    requires imgSize.width != 0.0 && imgSize.height != 0.0
    ensures NormalizeAll(a + b, imgSize, display) ==
            NormalizeAll(a, imgSize, display) + NormalizeAll(b, imgSize, display)
  {
    if a == [] {
      assert a + b == b;
    } else {
      assert (a + b)[1..] == a[1..] + b;
      NormalizeAppend(a[1..], b, imgSize, display);
    }
  }

  /**
   * Rescaling into a size equal to the model's input size changes nothing.
   */
  lemma NormalizeSameSize(ps: seq<Detection>, s: Size)
    requires s.width != 0.0 && s.height != 0.0
    ensures NormalizePredictions(Some(ps), Some(s), s) == ps
  {
    var r := NormalizePredictions(Some(ps), Some(s), s);
    assert r == NormalizeAll(ps, s, s);
    forall i | 0 <= i < |ps| ensures r[i] == ps[i] {
      SameSizeDetection(ps[i], s);
    }
  }

  lemma SameSizeDetection(p: Detection, s: Size)
    requires s.width != 0.0 && s.height != 0.0
    ensures NormalizeDetection(p, s, s) == p
  {
    var b := p.bbox;
    CancelScale(b.x, s.width);
    CancelScale(b.y, s.height);
    CancelScale(b.width, s.width);
    CancelScale(b.height, s.height);
  }

  lemma CancelScale(a: real, s: real)
    requires s != 0.0
    ensures Rescale(a, s, s) == a
  {
  }

  /**
   * Round trip: rescaling from the model's size into the display size and then
   * back again gives the detections the model reported.
   */
  lemma RoundTrip(ps: seq<Detection>, imgSize: Size, display: Size)
    requires imgSize.width != 0.0 && imgSize.height != 0.0
    requires display.width != 0.0 && display.height != 0.0
    ensures NormalizePredictions(Some(NormalizePredictions(Some(ps), Some(imgSize), display)),
                                 Some(display), imgSize) == ps
  {
    Compose(ps, imgSize, display, imgSize);
    NormalizeSameSize(ps, imgSize);
  }

  /**
   * Two rescalings in a row, from `s` to `m` and from `m` to `d`, are the one
   * rescaling from `s` to `d`.
   */
  lemma Compose(ps: seq<Detection>, s: Size, m: Size, d: Size)
    requires s.width != 0.0 && s.height != 0.0 && m.width != 0.0 && m.height != 0.0
    ensures NormalizePredictions(Some(NormalizePredictions(Some(ps), Some(s), m)), Some(m), d) ==
            NormalizePredictions(Some(ps), Some(s), d)
  {
    var once := NormalizeAll(ps, s, m);
    assert NormalizePredictions(Some(ps), Some(s), m) == once;
    assert NormalizePredictions(Some(once), Some(m), d) == NormalizeAll(once, m, d);
    assert NormalizePredictions(Some(ps), Some(s), d) == NormalizeAll(ps, s, d);
    forall i | 0 <= i < |ps|
      ensures NormalizeAll(once, m, d)[i] == NormalizeAll(ps, s, d)[i]
    {
      ComposeDetection(ps[i], s, m, d);
    }
  }

  lemma ComposeDetection(p: Detection, s: Size, m: Size, d: Size)
    requires s.width != 0.0 && s.height != 0.0 && m.width != 0.0 && m.height != 0.0
    ensures NormalizeDetection(NormalizeDetection(p, s, m), m, d) == NormalizeDetection(p, s, d)
  {
    var b := p.bbox;
    ComposeScale(b.x, s.width, m.width, d.width);
    ComposeScale(b.y, s.height, m.height, d.height);
    ComposeScale(b.width, s.width, m.width, d.width);
    ComposeScale(b.height, s.height, m.height, d.height);
  }

  lemma ComposeScale(a: real, s: real, m: real, d: real)
    requires s != 0.0 && m != 0.0
    ensures Rescale(Rescale(a, m, s), d, m) == Rescale(a, d, s)
  {
  }

  /**
   * A model input of 300 by 300 pixels rendered at 600 by 450 pixels: the box
   * (30, 30, 60, 60) becomes (60, 45, 120, 90).
   */
  lemma ScalingExample()
    ensures NormalizePredictions(Some([Detection("person", 0.9, Box(30.0, 30.0, 60.0, 60.0))]),
                                 Some(Size(300.0, 300.0)), Size(600.0, 450.0))
         == [Detection("person", 0.9, Box(60.0, 45.0, 120.0, 90.0))]
  {
  }
}
