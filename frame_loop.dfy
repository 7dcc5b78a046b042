/**
  The main program: calibrate once on the reference image, then measure every
  live frame until the stream ends, the user presses q, or a zero-width
  marker makes the distance formula divide by zero.
 */
module FrameLoop {
  import opened Contours
  import opened ReferenceLocator
  import opened Metrics
  import opened ShapeDetector

  /** What processing one live frame gives. */
  datatype FrameOutcome =
    | NoMarker                 // find_marker found no contour: nothing is measured or shown
    | ZeroWidthMarker          // the marker's width is 0: distance_to_camera raises ZeroDivisionError
    | Measured(distanceCm: real, pixelsPerCm: real, shapes: seq<DetectedShape>)

  /** Why the program stopped. */
  datatype StopReason = CalibrationFailed | EndOfStream | QuitKey | ZeroDivision

  /** The frames that were shown, with their measurements, and how the run ended. */
  datatype Session = Session(shown: seq<FrameOutcome>, stop: StopReason)

  /** A frame read from the camera and the key code waitKey returned after it (-1 for none). */
  datatype Tick = Tick(frame: Frame, key: int)

  /** waitKey(1) & 0xFF == ord('q'); Python's & 0xFF on any int is its non-negative residue mod 256. */
  predicate QuitPressed(key: int)
    ensures 0 <= key < 256 ==> (QuitPressed(key) <==> key == 'q' as int)
  {
    key % 256 == 'q' as int
  }

  /** Calibration: the focal length from the reference image's marker, or None when no contour is found. */
  function Calibrate(reference: Frame): (f: Option<real>)
    ensures f.None? <==> reference.markerContours == []
    ensures f.Some? ==> f.value * KnownWidthCm == FindMarker(reference.markerContours).value.width * ReferenceDistanceCm
  {
    match FindMarker(reference.markerContours)
    case None => None
    case Some(rect) => Some(FocalLength(rect.width))
  }

  /** What one live frame yields, given the calibrated focal length. */
  function FrameStep(frame: Frame, focalLength: real): (o: FrameOutcome)
    ensures o.NoMarker? <==> frame.markerContours == []
    ensures o.ZeroWidthMarker? <==> frame.markerContours != [] && FindMarker(frame.markerContours).value.width == 0.0
    ensures o.Measured? ==>
      var w := FindMarker(frame.markerContours).value.width;
      && w != 0.0
      && o.distanceCm * w == KnownWidthCm * focalLength
      && o.pixelsPerCm * KnownWidthCm == w
      && o.shapes == Detections(frame.shapeContours, o.pixelsPerCm)
  {
    match FindMarker(frame.markerContours)
    case None => NoMarker
    case Some(rect) =>
      if rect.width == 0.0 then ZeroWidthMarker
      else
        var ppcm := PixelsPerCm(rect.width);
        Measured(DistanceToCamera(KnownWidthCm, focalLength, rect.width), ppcm, Detections(frame.shapeContours, ppcm))
  }

  /** The outcome of every frame in which a usable marker was found, in stream order. */
  function MeasuredOutcomes(focalLength: real, ticks: seq<Tick>): (r: seq<FrameOutcome>)
    ensures |r| <= |ticks|
    ensures forall o :: o in r ==> o.Measured?
  {
    if ticks == [] then []
    else
      var o := FrameStep(ticks[0].frame, focalLength);
      var rest := MeasuredOutcomes(focalLength, ticks[1..]);
      (if o.Measured? then [o] else []) + rest
  }

  /** A frame's outcome is among the measurements exactly when some frame of the stream was measured with it. */
  lemma {:induction false} MeasuredOutcomesMembers(focalLength: real, ticks: seq<Tick>)
    ensures forall o :: o in MeasuredOutcomes(focalLength, ticks) <==>
      exists i :: 0 <= i < |ticks| && o == FrameStep(ticks[i].frame, focalLength) && o.Measured?
  {
    if ticks != [] {
      MeasuredOutcomesMembers(focalLength, ticks[1..]);
      assert forall i :: 1 <= i < |ticks| ==> ticks[i] == ticks[1..][i - 1];
      assert forall i :: 0 <= i < |ticks| - 1 ==> ticks[1..][i] == ticks[i + 1];
    }
  }

  /** The loop ends after this frame: its marker has width 0, or q was pressed after it. */
  predicate Stops(focalLength: real, t: Tick)
  {
    FrameStep(t.frame, focalLength).ZeroWidthMarker? || QuitPressed(t.key)
  }

  /** The index of the first frame that ends the loop, or the stream's length when none does. */
  function FirstStop(focalLength: real, ticks: seq<Tick>): (j: nat)
    ensures j <= |ticks|
    ensures forall i :: 0 <= i < j ==> !Stops(focalLength, ticks[i])
    ensures j < |ticks| ==> Stops(focalLength, ticks[j])
  {
    if ticks == [] then 0
    else if Stops(focalLength, ticks[0]) then 0
    else
      var j := FirstStop(focalLength, ticks[1..]);
      assert forall i :: 1 <= i < j + 1 ==> ticks[i] == ticks[1..][i - 1];
      1 + j
  }

  /** A helper for LiveSession's proof: measuring a non-empty prefix starts with its first frame. */
  lemma MeasuredPrefixStep(focalLength: real, ticks: seq<Tick>, k: nat)
    requires 0 < k <= |ticks|
    ensures
      var o := FrameStep(ticks[0].frame, focalLength);
      MeasuredOutcomes(focalLength, ticks[..k])
        == (if o.Measured? then [o] else []) + MeasuredOutcomes(focalLength, ticks[1..][..k - 1])
  {
    assert ticks[..k][0] == ticks[0];
    assert ticks[..k][1..] == ticks[1..][..k - 1];
  }

  /** Measuring a stream part by part gives the parts' measurements, in order. */
  lemma {:induction false} MeasuredOutcomesAppend(focalLength: real, a: seq<Tick>, b: seq<Tick>)
    ensures MeasuredOutcomes(focalLength, a + b) == MeasuredOutcomes(focalLength, a) + MeasuredOutcomes(focalLength, b)
    decreases |a|
  {
    if a == [] {
      assert a + b == b;
    } else {
      var o := FrameStep(a[0].frame, focalLength);
      var head := if o.Measured? then [o] else [];
      assert (a + b)[0] == a[0];
      assert (a + b)[1..] == a[1..] + b;
      MeasuredOutcomesAppend(focalLength, a[1..], b);
      assert head + (MeasuredOutcomes(focalLength, a[1..]) + MeasuredOutcomes(focalLength, b))
          == (head + MeasuredOutcomes(focalLength, a[1..])) + MeasuredOutcomes(focalLength, b);
    }
  }

  /**
    The loop's end as the program determines it: it stops at the first
    frame that stops it, showing the measured frames before it, and that
    frame too when q (not a zero-width marker) stopped the loop; with no
    stopping frame it shows every measured frame and ends with the stream.
   */
  ghost predicate EndsAtFirstStop(focalLength: real, ticks: seq<Tick>, s: Session)
  {
    var j := FirstStop(focalLength, ticks);
    && (j == |ticks| ==> s == Session(MeasuredOutcomes(focalLength, ticks), EndOfStream))
    && (j < |ticks| && FrameStep(ticks[j].frame, focalLength).ZeroWidthMarker? ==>
          s == Session(MeasuredOutcomes(focalLength, ticks[..j]), ZeroDivision))
    && (j < |ticks| && !FrameStep(ticks[j].frame, focalLength).ZeroWidthMarker? ==>
          s == Session(MeasuredOutcomes(focalLength, ticks[..j + 1]), QuitKey))
  }

  /** A helper for LiveSession's proof: a frame that does not stop the loop puts its measurement in front. */
  lemma ExtendSession(focalLength: real, ticks: seq<Tick>, rest: Session)
    requires ticks != [] && !Stops(focalLength, ticks[0])
    requires EndsAtFirstStop(focalLength, ticks[1..], rest)
    ensures
      var o := FrameStep(ticks[0].frame, focalLength);
      var head := if o.Measured? then [o] else [];
      EndsAtFirstStop(focalLength, ticks, Session(head + rest.shown, rest.stop))
  {
    var o := FrameStep(ticks[0].frame, focalLength);
    var head := if o.Measured? then [o] else [];
    var s := Session(head + rest.shown, rest.stop);
    var j := FirstStop(focalLength, ticks[1..]);
    assert FirstStop(focalLength, ticks) == j + 1;
    if j == |ticks[1..]| {
      assert rest == Session(MeasuredOutcomes(focalLength, ticks[1..]), EndOfStream);
      assert MeasuredOutcomes(focalLength, ticks) == head + MeasuredOutcomes(focalLength, ticks[1..]);
    } else if FrameStep(ticks[j + 1].frame, focalLength).ZeroWidthMarker? {
      assert ticks[j + 1] == ticks[1..][j];
      assert rest == Session(MeasuredOutcomes(focalLength, ticks[1..][..j]), ZeroDivision);
      MeasuredPrefixStep(focalLength, ticks, j + 1);
    } else {
      assert ticks[j + 1] == ticks[1..][j];
      assert rest == Session(MeasuredOutcomes(focalLength, ticks[1..][..j + 1]), QuitKey);
      MeasuredPrefixStep(focalLength, ticks, j + 2);
    }
  }

  /** The live loop over the frames the camera delivers, in order. */
  function LiveSession(focalLength: real, ticks: seq<Tick>): (s: Session)
    ensures s.stop != CalibrationFailed
    ensures |s.shown| <= |ticks|
    ensures forall o :: o in s.shown ==> o.Measured?
    ensures s.shown <= MeasuredOutcomes(focalLength, ticks)
    ensures s.stop == EndOfStream <==> forall i :: 0 <= i < |ticks| ==> !Stops(focalLength, ticks[i])
    ensures s.stop == EndOfStream ==> s.shown == MeasuredOutcomes(focalLength, ticks)
    ensures EndsAtFirstStop(focalLength, ticks, s)
    decreases |ticks|
  {
    if ticks == [] then Session([], EndOfStream)
    else
      var o := FrameStep(ticks[0].frame, focalLength);
      if o.ZeroWidthMarker? then
        assert ticks[..0] == [];
        Session([], ZeroDivision)
      else
        var head := if o.Measured? then [o] else [];
        if QuitPressed(ticks[0].key) then
          MeasuredPrefixStep(focalLength, ticks, 1);
          assert ticks[1..][..0] == [];
          Session(head, QuitKey)
        else
          var rest := LiveSession(focalLength, ticks[1..]);
          assert forall i :: 1 <= i < |ticks| ==> ticks[i] == ticks[1..][i - 1];
          ExtendSession(focalLength, ticks, rest);
          Session(head + rest.shown, rest.stop)
  }

  /** The whole run: a failed calibration ends the program before any frame is read; otherwise the live loop runs with the calibrated focal length. */
  function Program(reference: Frame, ticks: seq<Tick>): (s: Session)
    ensures s.stop == CalibrationFailed <==> reference.markerContours == []
    ensures s.stop == CalibrationFailed ==> s.shown == []
    ensures reference.markerContours != [] ==> s == LiveSession(Calibrate(reference).value, ticks)
  {
    match Calibrate(reference)
    case None => Session([], CalibrationFailed)
    case Some(f) => LiveSession(f, ticks)
  }

  /** Only the low byte of a key code matters: codes that differ by a multiple of 256 act alike. */
  lemma QuitDependsOnLowByte(key: int, m: int)
    ensures QuitPressed(key + 256 * m) <==> QuitPressed(key)
  {
  }

  /** Sample key codes: no key (-1) is not a quit, and only the low byte of a code counts. */
  lemma QuitKeyCodes()
    ensures !QuitPressed(-1) && QuitPressed(113) && QuitPressed(369) && QuitPressed(-143) && !QuitPressed(81)
  {
  }

  /** A frame without a marker is skipped: it shows nothing, and the loop goes on unless q was pressed. */
  lemma FrameWithoutMarkerSkipped(focalLength: real, ticks: seq<Tick>)
    requires ticks != [] && ticks[0].frame.markerContours == []
    ensures FrameStep(ticks[0].frame, focalLength) == NoMarker
    ensures !QuitPressed(ticks[0].key) ==> LiveSession(focalLength, ticks) == LiveSession(focalLength, ticks[1..])
    ensures QuitPressed(ticks[0].key) ==> LiveSession(focalLength, ticks) == Session([], QuitKey)
  {
  }

  /** A stream in which the marker is never found shows nothing and ends normally. */
  lemma {:induction false} NoMarkerNothingShown(focalLength: real, ticks: seq<Tick>)
    requires forall i :: 0 <= i < |ticks| ==> ticks[i].frame.markerContours == []
    ensures MeasuredOutcomes(focalLength, ticks) == []
    ensures LiveSession(focalLength, ticks).shown == []
    ensures LiveSession(focalLength, ticks).stop in {EndOfStream, QuitKey}
    decreases |ticks|
  {
    if ticks != [] {
      assert ticks[0].frame.markerContours == [];
      NoMarkerNothingShown(focalLength, ticks[1..]);
    }
  }

  /** After calibrating on a reference marker of width w0, a live marker of width w0 is measured at the assumed 50 cm. */
  lemma CalibratedDistanceAtReferenceWidth(reference: Frame, frame: Frame)
    requires reference.markerContours != [] && frame.markerContours != []
    requires FindMarker(frame.markerContours).value.width == FindMarker(reference.markerContours).value.width != 0.0
    ensures Calibrate(reference).Some?
    ensures FrameStep(frame, Calibrate(reference).value).Measured?
    ensures FrameStep(frame, Calibrate(reference).value).distanceCm == ReferenceDistanceCm
  {
  }

  /** A helper for RunLive's proof: one turn of the live loop, spelled out. */
  lemma LiveSessionStep(focalLength: real, ticks: seq<Tick>)
    requires ticks != []
    ensures
      var o := FrameStep(ticks[0].frame, focalLength);
      var head := if o.Measured? then [o] else [];
      var rest := LiveSession(focalLength, ticks[1..]);
      LiveSession(focalLength, ticks)
        == if o.ZeroWidthMarker? then Session([], ZeroDivision)
           else if QuitPressed(ticks[0].key) then Session(head, QuitKey)
           else Session(head + rest.shown, rest.stop)
  {
  }

  /** A helper for RunLive's proof, which runs out of resource without it. */
  lemma AppendAssociative<T>(a: seq<T>, b: seq<T>, c: seq<T>)
    ensures a + (b + c) == (a + b) + c
  {
  }

  /** The body of the live loop for one frame: locate the marker, then measure distance and shapes. */
  method ProcessFrame(frame: Frame, focalLength: real) returns (o: FrameOutcome)
    ensures o == FrameStep(frame, focalLength)
  {
    var marker := FindMarker(frame.markerContours);
    if marker.None? {
      return NoMarker;
    }
    var perWidth := marker.value.width;
    if perWidth == 0.0 {
      return ZeroWidthMarker;
    }
    var dist := DistanceToCamera(KnownWidthCm, focalLength, perWidth);
    var pixelsPerCm := PixelsPerCm(perWidth);
    var shapes := DetectShapesAndDimensions(frame.shapeContours, pixelsPerCm);
    o := Measured(dist, pixelsPerCm, shapes);
  }

  /** The while-True loop: read, process, show, poll the keyboard. */
  method RunLive(focalLength: real, ticks: seq<Tick>) returns (s: Session)
    ensures s == LiveSession(focalLength, ticks)
  {
    var shown: seq<FrameOutcome> := [];
    var i := 0;
    while i < |ticks|
      invariant 0 <= i <= |ticks|
      invariant LiveSession(focalLength, ticks)
             == Session(shown + LiveSession(focalLength, ticks[i..]).shown, LiveSession(focalLength, ticks[i..]).stop)
    {
      ghost var before := shown;
      ghost var cur := LiveSession(focalLength, ticks[i..]);
      ghost var next := LiveSession(focalLength, ticks[i + 1..]);
      assert ticks[i..][0] == ticks[i];
      assert ticks[i..][1..] == ticks[i + 1..];
      LiveSessionStep(focalLength, ticks[i..]);
      var outcome := ProcessFrame(ticks[i].frame, focalLength);
      ghost var head := if outcome.Measured? then [outcome] else [];
      if outcome.ZeroWidthMarker? {
        assert cur == Session([], ZeroDivision);
        assert shown + [] == shown;
        return Session(shown, ZeroDivision);
      }
      if outcome.Measured? {
        shown := shown + [outcome];
      }
      assert shown == before + head;
      if QuitPressed(ticks[i].key) {
        assert cur == Session(head, QuitKey);
        return Session(shown, QuitKey);
      }
      assert cur == Session(head + next.shown, next.stop);
      AppendAssociative(before, head, next.shown);
      i := i + 1;
    }
    assert ticks[i..] == [];
    assert shown + [] == shown;
    s := Session(shown, EndOfStream);
  }

  /** The program: calibrate, exit when the reference is not found, otherwise run the live loop. */
  method Run(reference: Frame, ticks: seq<Tick>) returns (s: Session)
    ensures s == Program(reference, ticks)
  {
    var marker := FindMarker(reference.markerContours);
    if marker.None? {
      return Session([], CalibrationFailed);
    }
    var focalLength := FocalLength(marker.value.width);
    s := RunLive(focalLength, ticks);
  }
}
