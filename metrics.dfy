/**
  Calibration and live metrics: the focal-length, distance and
  pixels-per-centimetre formulas, on exact reals.
 */
module Metrics {

  /** Physical width of the reference object (an A4 sheet). */
  const KnownWidthCm: real := 21.0

  /** The distance assumed when the calibration image was taken. */
  const ReferenceDistanceCm: real := 50.0

  /** The focal length calibrated from the marker's pixel width in the reference image. */
  function FocalLength(markerWidth: real): (f: real)
    ensures f * KnownWidthCm == markerWidth * ReferenceDistanceCm
  {
    (markerWidth * ReferenceDistanceCm) / KnownWidthCm
  }

  /** distance_to_camera: similar triangles, undefined for a zero pixel width. */
  function DistanceToCamera(knownWidth: real, focalLength: real, perWidth: real): (d: real)
    requires perWidth != 0.0
    ensures d * perWidth == knownWidth * focalLength
  {
    (knownWidth * focalLength) / perWidth
  }

  /** The live conversion ratio from the marker's current pixel width. */
  function PixelsPerCm(perWidth: real): (p: real)
    ensures p * KnownWidthCm == perWidth
    ensures perWidth > 0.0 ==> p > 0.0
  {
    perWidth / KnownWidthCm
  }

  /** A pixel length in centimetres (before the two-decimal rounding). */
  function ToCm(pixels: real, pixelsPerCm: real): (cm: real)
    requires pixelsPerCm != 0.0
    ensures cm * pixelsPerCm == pixels
  {
    pixels / pixelsPerCm
  }

  /** The farther the object, the smaller it looks: distance strictly falls as the pixel width grows. */
  lemma DistanceDecreasesWithWidth(knownWidth: real, focalLength: real, w1: real, w2: real)
    requires knownWidth > 0.0 && focalLength > 0.0
    requires 0.0 < w1 < w2
    ensures DistanceToCamera(knownWidth, focalLength, w2) < DistanceToCamera(knownWidth, focalLength, w1)
  {
  }

  /**
    With the calibrated focal length the live distance is the reference
    distance scaled by calibrated width over live width.
   */
  lemma DistanceFromCalibration(w0: real, w: real)
    requires w != 0.0
    ensures DistanceToCamera(KnownWidthCm, FocalLength(w0), w) == ReferenceDistanceCm * w0 / w
  {
  }

  /** A live marker as wide as at calibration time is at the assumed distance. */
  lemma CalibrationRoundTrip(w0: real)
    requires w0 != 0.0
    ensures DistanceToCamera(KnownWidthCm, FocalLength(w0), w0) == ReferenceDistanceCm
  {
  }

  /** Converting to centimetres divides by the width and scales by the known width; multiplying back recovers the pixels. */
  lemma CmRoundTrip(pixels: real, perWidth: real)
    requires perWidth != 0.0
    ensures ToCm(pixels, PixelsPerCm(perWidth)) == pixels * KnownWidthCm / perWidth
    ensures ToCm(pixels, PixelsPerCm(perWidth)) * PixelsPerCm(perWidth) == pixels
  {
  }

  /**
    The worked calibration: a 300 px reference gives focal length 5000/7
    (about 714.29); a later 280 px marker gives 40/3 px per cm (about 13.33)
    and a distance of 375/7 cm (about 53.57).
   */
  lemma CalibrationScenario()
    ensures FocalLength(300.0) == 5000.0 / 7.0
    ensures PixelsPerCm(280.0) == 40.0 / 3.0
    ensures DistanceToCamera(KnownWidthCm, FocalLength(300.0), 280.0) == 375.0 / 7.0
  {
  }
}
