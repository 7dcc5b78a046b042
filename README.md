# Shape and distance measurement — a Dafny model

This project models the measuring core of `shape_measure.py`, a script that
estimates an object's distance from a monocular camera and the physical size
of the shapes in view. It calibrates once against a reference object of known
width (an A4 sheet, 21 cm) photographed at an assumed 50 cm. Every later frame
is processed independently:

- the reference object is located again, as the largest contour;
- the live pixels-per-centimetre ratio and the distance are computed from its width;
- every external contour larger than 1000 px² is classified by its corner count;
- its bounding box is converted to centimetres.

The image operations (grey-scale conversion, blur, Canny edges, `findContours`,
`contourArea`, `approxPolyDP`, `boundingRect`, `minAreaRect`) belong to OpenCV
and are not reimplemented. A frame is modelled by what its two contour
pipelines report: `Frame(markerContours, shapeContours)`. Each marker contour
carries its area and rotated rectangle. Each shape contour carries its area,
the vertex count of its approximating polygon, and that polygon's bounding box.

Modules:

- `Contours` (`contours.dfy`): the values OpenCV hands over, and `Option`.
- `ReferenceLocator` (`reference_locator.dfy`): `find_marker`. Python's
  `max(..., key=...)` keeps the first of several equally large contours, and
  `ArgMaxArea` models that.
- `Metrics` (`metrics.dfy`): the focal length, `distance_to_camera`, the
  pixels-per-centimetre ratio and the centimetre conversion, as exact `real`s.
- `ShapeClassifier` (`shape_classifier.dfy`): the corner-count `if`/`elif`
  chain. The chain is kept as written, including the second `corners == 4`
  test, so "Square" is never produced. This is proved. The labels keep the
  program's spellings "Heptagone" and "Octagone".
- `ShapeDetector` (`shape_detector.dfy`): `detect_shapes_and_dimensions`. A
  method with a loop is proved equal to a filter-and-measure specification.
- `FrameLoop` (`frame_loop.dfy`): calibration, the per-frame step and the
  `while True` loop. Camera frames and key codes are a parameter sequence of
  `Tick`s. A marker of width 0 makes line 89 divide by zero. Python then raises
  `ZeroDivisionError` and the program ends, so this is modelled as a stop
  reason, not excluded by a precondition.

The model follows the code as written:

- the labels keep the code's spellings;
- a 4-corner polygon is always a Rectangle;
- a frame without a marker is not displayed, because `imshow` sits inside `if marker:`.

`if marker:` tests a non-empty tuple, so it is the same test as `marker is not None`.

## Model

| member | source | states |
|---|---|---|
| `ReferenceLocator.ArgMaxArea` | shape_measure.py:19 | the chosen index is in range, its area is at least every contour's area, and every earlier contour is strictly smaller (the first maximum, as Python's `max` keeps it) |
| `ReferenceLocator.FindMarker` | shape_measure.py:15-20 | returns None exactly when the contour list is empty; otherwise the rectangle of a contour whose area is at least that of every contour |
| `ReferenceLocator.FindMarkerPicksFirstLargest` | shape_measure.py:19-20 | the first largest contour is unique, and its rectangle is what `find_marker` returns |
| `ReferenceLocator.StrictlyLargestIsChosen` | shape_measure.py:19-20 | a contour strictly larger than all the others is always the one chosen |
| `Metrics.FocalLength` | shape_measure.py:75 | focal length times the known width equals the calibration pixel width times the assumed 50 cm |
| `Metrics.DistanceToCamera` | shape_measure.py:22-23 | distance times pixel width equals known width times focal length, for any non-zero pixel width |
| `Metrics.PixelsPerCm` | shape_measure.py:90 | the ratio times the known width gives back the marker's pixel width; a positive width gives a positive ratio |
| `Metrics.ToCm` | shape_measure.py:38-39 | the centimetre value times the ratio gives back the pixel length |
| `Metrics.DistanceDecreasesWithWidth` | shape_measure.py:22-23 | for positive known width and focal length, a larger pixel width gives a strictly smaller distance |
| `Metrics.DistanceFromCalibration` | shape_measure.py:88-89 | with the calibrated focal length, the live distance is 50 cm scaled by calibration width over live width |
| `Metrics.CalibrationRoundTrip` | shape_measure.py:75 | a live marker exactly as wide as at calibration is measured at the assumed 50 cm |
| `Metrics.CmRoundTrip` | shape_measure.py:38-39 | converting with `per_width / 21` gives `L * 21 / per_width`, and multiplying back by the ratio recovers `L` |
| `Metrics.CalibrationScenario` | shape_measure.py:88-90 | a 300 px reference and a 280 px live marker give focal length 5000/7, 40/3 px per cm and 375/7 cm |
| `ShapeClassifier.Label` | shape_measure.py:41-58 | the text "Square" belongs to the Square kind alone, and "Heptagone" and "Octagone" are the heptagon's and octagon's labels, spelled as the code spells them |
| `ShapeClassifier.Classify` | shape_measure.py:41-58 | never Square; Unknown exactly below 3 corners; Circle exactly above 8; for 3 to 8 corners the kind names that vertex count |
| `ShapeClassifier.ClassifyLabels` | shape_measure.py:41-58 | the label for each corner count: 3 Triangle, 4 Rectangle, 5 Pentagon, 6 Hexagon, 7 "Heptagone", 8 "Octagone", more than 8 Circle, fewer than 3 Unknown |
| `ShapeClassifier.LabelInjective` | shape_measure.py:41-58 | two kinds with the same label are the same kind |
| `ShapeClassifier.SquareUnreachable` | shape_measure.py:45-48 | no corner count is ever labelled "Square" |
| `ShapeDetector.Measure` | shape_measure.py:35-42 | a surviving contour is reported with its classified kind, its box origin, and a width and height that give back the pixel box size when multiplied by the ratio |
| `ShapeDetector.Survivors` | shape_measure.py:32-34 | a contour is kept exactly when it is in the input and its area is strictly above 1000 |
| `ShapeDetector.Detections` | shape_measure.py:32-58 | one detected shape per surviving contour, in input order, each the measurement of that survivor |
| `ShapeDetector.SurvivorsAppend` | shape_measure.py:32-34 | filtering keeps input order: the survivors of a concatenation are the concatenated survivors |
| `ShapeDetector.DetectionsAppend` | shape_measure.py:32-34 | detection keeps input order: each part of the contour list contributes its own shapes, in order |
| `ShapeDetector.DetectionsOfOne` | shape_measure.py:33-34 | a single contour yields a shape exactly when its area is strictly above 1000 |
| `ShapeDetector.ThresholdBoundary` | shape_measure.py:34 | area exactly 1000 is excluded; area 1000.01 is included |
| `ShapeDetector.RectangleScenario` | shape_measure.py:35-46 | a 4-corner 130 × 65 px contour of area 1500 at 40/3 px per cm is a Rectangle of 9.75 cm × 4.875 cm |
| `ShapeDetector.DetectShapesAndDimensions` | shape_measure.py:25-64 | the loop's output equals the filter-classify-measure specification `Detections` |
| `FrameLoop.QuitPressed` | shape_measure.py:97 | a key code from 0 to 255 quits exactly when it is 'q' (113); Dafny's Euclidean `% 256` equals Python's `& 0xFF` for every int, negative codes included |
| `FrameLoop.QuitDependsOnLowByte` | shape_measure.py:97 | only the low byte of a key code matters: codes that differ by a multiple of 256 act alike |
| `FrameLoop.QuitKeyCodes` | shape_measure.py:97 | no key (-1, low byte 255) does not quit; 113, 369 and -143 (low byte 113) quit; 81 ('Q') does not |
| `FrameLoop.Calibrate` | shape_measure.py:69-75 | no focal length exactly when the reference image has no contour; otherwise focal length times 21 equals the marker width times 50 |
| `FrameLoop.FrameStep` | shape_measure.py:86-92 | no marker exactly when there are no contours; the zero-division case exactly when the marker width is 0; otherwise the distance and ratio satisfy the formulas, and detection runs with ratio `per_width / 21` |
| `FrameLoop.MeasuredOutcomes` | shape_measure.py:86-95 | at most one outcome per frame, and every outcome is a measurement |
| `FrameLoop.MeasuredOutcomesMembers` | shape_measure.py:86-95 | an outcome is among the measurements exactly when some frame of the stream was measured with it |
| `FrameLoop.MeasuredOutcomesAppend` | shape_measure.py:81-95 | measuring a stream part by part gives the parts' measurements, in stream order |
| `FrameLoop.FirstStop` | shape_measure.py:81-98 | the index of the first frame with a zero-width marker or followed by q; no earlier frame stops the loop, and the stream's length when none does |
| `FrameLoop.LiveSession` | shape_measure.py:81-98 | the loop ends with the stream exactly when no frame has a zero-width marker or is followed by q. Otherwise it stops at the first such frame. A zero-width marker stops it with the measured frames before that frame; a q stops it with the measured frames up to and including that frame. At end of stream every measured frame is shown |
| `FrameLoop.Program` | shape_measure.py:69-98 | stops with a calibration failure exactly when the reference image has no contour, and then shows nothing; otherwise it is the live loop run with the focal length calibrated at line 75 |
| `FrameLoop.FrameWithoutMarkerSkipped` | shape_measure.py:86-87 | a frame without a marker shows nothing and computes nothing; the loop continues with the next frame, or stops if q was pressed |
| `FrameLoop.NoMarkerNothingShown` | shape_measure.py:81-98 | a stream in which the marker is never found shows nothing and ends at end of stream or on q |
| `FrameLoop.CalibratedDistanceAtReferenceWidth` | shape_measure.py:70-89 | after calibrating on a marker of width w0 ≠ 0, a live marker of width w0 is measured at 50 cm |
| `FrameLoop.ProcessFrame` | shape_measure.py:86-92 | the per-frame statements compute exactly `FrameStep` |
| `FrameLoop.RunLive` | shape_measure.py:81-98 | the `while True` loop computes exactly `LiveSession`: frames shown, then the stop reason |
| `FrameLoop.Run` | shape_measure.py:69-98 | the whole script computes exactly `Program` |

## Left out

- OpenCV image primitives (`cvtColor`, `GaussianBlur`, `Canny`, `findContours`, `contourArea`, `arcLength`, `approxPolyDP`, `boundingRect`, `minAreaRect`) are foreign library calls. Their results are inputs of the model.
- Drawing and text overlay (`drawContours`, `putText`) change only pixels. The model keeps only the data they would draw: the kind, the box origin and the sizes in cm, the distance.
- `imread`, `print`, `exit`, `VideoCapture`, `read`, `imshow`, `waitKey`, `release` and `destroyAllWindows` are I/O. Frames and key codes are a parameter sequence, and the frames passed to `imshow` are the `shown` list.
- An unreadable reference image, where `imread` returns None and `cvtColor` raises, is not modelled: the reference image is always a frame.
- `round(..., 2)` on the centimetre values and the displayed distance is floating-point behaviour. The model keeps exact reals.
- Floating-point division is modelled by exact `real` division.
- `Metrics.DistanceToCamera`, `Metrics.ToCm`: require a non-zero divisor, where Python would raise `ZeroDivisionError`. The one reachable case, a zero marker width, is modelled in `FrameLoop.FrameStep` as an outcome that stops the program.
- `ShapeDetector.DetectShapesAndDimensions`: requires a non-zero ratio, although Python divides only when some contour survives. Its only caller passes a ratio from a non-zero marker width.
- The text position of each label, 10 px above the box, is not modelled.
