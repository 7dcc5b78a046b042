/**
  The values the image primitives provider (OpenCV) hands to the measuring
  core. Nothing here reimplements an image operation: a frame is modelled by
  what the two contour pipelines of shape_measure.py extract from it.
 */
module Contours {

  datatype Option<+T> = None | Some(value: T)

  /** The rotated rectangle minAreaRect returns: center, (width, height), angle. */
  datatype MarkerRect = MarkerRect(centerX: real, centerY: real, width: real, height: real, angle: real)

  /** A contour of the reference pipeline, seen through contourArea and minAreaRect. */
  datatype MarkerContour = MarkerContour(area: real, rect: MarkerRect)

  /** The axis-aligned box boundingRect returns, in whole pixels. */
  datatype BoundingBox = BoundingBox(x: int, y: int, w: int, h: int)

  /**
    A contour of the shape pipeline: its contourArea, the number of vertices of
    its approxPolyDP polygon (tolerance 2% of the arc length) and the
    boundingRect of that polygon.
   */
  datatype ShapeContour = ShapeContour(area: real, corners: nat, box: BoundingBox)

  /**
    One image. The reference locator (Canny thresholds 35/125) and the shape
    detector (Canny thresholds 50/150) extract their external contours
    independently, so a frame carries both lists, in the order findContours
    reports them.
   */
  datatype Frame = Frame(markerContours: seq<MarkerContour>, shapeContours: seq<ShapeContour>)
}
