/** detect_shapes_and_dimensions: filter, classify and measure the contours of one frame. */
module ShapeDetector {
  import opened Contours
  import opened Metrics
  import opened ShapeClassifier

  /** Contours of this area or less are noise. */
  const MinArea: real := 1000.0

  /** One annotation: the kind, the box origin in pixels and the box size in centimetres. */
  datatype DetectedShape = DetectedShape(kind: ShapeKind, x: int, y: int, widthCm: real, heightCm: real)

  predicate Survives(c: ShapeContour)
  {
    c.area > MinArea
  }

  /** The shape reported for one surviving contour. */
  function Measure(c: ShapeContour, pixelsPerCm: real): (s: DetectedShape)
    requires pixelsPerCm != 0.0
    ensures s.kind == Classify(c.corners) && s.x == c.box.x && s.y == c.box.y
    ensures s.widthCm * pixelsPerCm == c.box.w as real
    ensures s.heightCm * pixelsPerCm == c.box.h as real
  {
    DetectedShape(Classify(c.corners), c.box.x, c.box.y,
                  ToCm(c.box.w as real, pixelsPerCm), ToCm(c.box.h as real, pixelsPerCm))
  }

  /** The contours that pass the area filter, in input order. */
  function Survivors(cs: seq<ShapeContour>): (r: seq<ShapeContour>)
    ensures |r| <= |cs|
    ensures forall c :: c in r <==> c in cs && Survives(c)
  {
    if cs == [] then []
    else
      var last := cs[|cs| - 1];
      assert cs == cs[..|cs| - 1] + [last];
      Survivors(cs[..|cs| - 1]) + (if Survives(last) then [last] else [])
  }

  /** The shapes one frame yields, one per surviving contour, in input order. */
  function Detections(cs: seq<ShapeContour>, pixelsPerCm: real): (r: seq<DetectedShape>)
    requires pixelsPerCm != 0.0
    ensures |r| == |Survivors(cs)|
    ensures forall i :: 0 <= i < |r| ==> r[i] == Measure(Survivors(cs)[i], pixelsPerCm)
  {
    if cs == [] then []
    else
      var last := cs[|cs| - 1];
      Detections(cs[..|cs| - 1], pixelsPerCm) + (if Survives(last) then [Measure(last, pixelsPerCm)] else [])
  }

  /** The area filter keeps survivors of a concatenation in order. */
  lemma {:induction false} SurvivorsAppend(a: seq<ShapeContour>, b: seq<ShapeContour>)
    ensures Survivors(a + b) == Survivors(a) + Survivors(b)
    decreases |b|
  {
    if b == [] {
      assert a + b == a;
    } else {
      var last := b[|b| - 1];
      assert (a + b)[..|a + b| - 1] == a + b[..|b| - 1];
      SurvivorsAppend(a, b[..|b| - 1]);
    }
  }

  /** Detection is frame-order preserving: each part of the contour list contributes its own shapes. */
  lemma {:induction false} DetectionsAppend(a: seq<ShapeContour>, b: seq<ShapeContour>, pixelsPerCm: real)
    requires pixelsPerCm != 0.0
    ensures Detections(a + b, pixelsPerCm) == Detections(a, pixelsPerCm) + Detections(b, pixelsPerCm)
    decreases |b|
  {
    if b == [] {
      assert a + b == a;
    } else {
      var front, last := b[..|b| - 1], b[|b| - 1];
      var tail := if Survives(last) then [Measure(last, pixelsPerCm)] else [];
      assert (a + b)[..|a + b| - 1] == a + front;
      assert (a + b)[|a + b| - 1] == last;
      assert Detections(a + b, pixelsPerCm) == Detections(a + front, pixelsPerCm) + tail;
      assert Detections(b, pixelsPerCm) == Detections(front, pixelsPerCm) + tail;
      DetectionsAppend(a, front, pixelsPerCm);
      assert Detections(a + front, pixelsPerCm) + tail
          == Detections(a, pixelsPerCm) + (Detections(front, pixelsPerCm) + tail);
    }
  }

  /** A single contour yields a shape exactly when its area is strictly above the threshold. */
  lemma DetectionsOfOne(c: ShapeContour, pixelsPerCm: real)
    requires pixelsPerCm != 0.0
    ensures Detections([c], pixelsPerCm) == if c.area > 1000.0 then [Measure(c, pixelsPerCm)] else []
  {
  }

  /** The threshold is strict: area 1000 is dropped, area 1000.01 is kept. */
  lemma ThresholdBoundary(corners: nat, box: BoundingBox, pixelsPerCm: real)
    requires pixelsPerCm != 0.0
    ensures Detections([ShapeContour(1000.0, corners, box)], pixelsPerCm) == []
    ensures |Detections([ShapeContour(1000.01, corners, box)], pixelsPerCm)| == 1
  {
  }

  /**
    A 130 x 65 px four-corner contour of area 1500 at 40/3 px per cm is a
    Rectangle of 9.75 cm by 4.875 cm (drawn as 4.88 after rounding).
   */
  lemma RectangleScenario(x: int, y: int)
    ensures Detections([ShapeContour(1500.0, 4, BoundingBox(x, y, 130, 65))], 40.0 / 3.0)
         == [DetectedShape(Rectangle, x, y, 9.75, 4.875)]
  {
  }

  /** The per-frame loop: scan the contours, keep the large ones, classify and measure each. */
  method DetectShapesAndDimensions(contours: seq<ShapeContour>, pixelsPerCm: real) returns (shapes: seq<DetectedShape>)
    requires pixelsPerCm != 0.0
    ensures shapes == Detections(contours, pixelsPerCm)
  {
    shapes := [];
    var i := 0;
    while i < |contours|
      invariant 0 <= i <= |contours|
      invariant shapes == Detections(contours[..i], pixelsPerCm)
    {
      var cnt := contours[i];
      assert contours[..i + 1][..i] == contours[..i];
      if cnt.area > MinArea {
        var widthCm := cnt.box.w as real / pixelsPerCm;
        var heightCm := cnt.box.h as real / pixelsPerCm;
        var shape := Classify(cnt.corners);
        shapes := shapes + [DetectedShape(shape, cnt.box.x, cnt.box.y, widthCm, heightCm)];
      }
      i := i + 1;
    }
    assert contours[..i] == contours;
  }
}
