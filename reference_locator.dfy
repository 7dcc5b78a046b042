/** The reference locator: find_marker. */
module ReferenceLocator {
  import opened Contours

  /** Contour k has the largest area and every contour before it is strictly smaller. */
  ghost predicate IsFirstLargest(cnts: seq<MarkerContour>, k: int)
  {
    && 0 <= k < |cnts|
    && (forall j :: 0 <= j < |cnts| ==> cnts[j].area <= cnts[k].area)
    && (forall j :: 0 <= j < k ==> cnts[j].area < cnts[k].area)
  }

  /**
    The index Python's max(cnts, key=cv2.contourArea) settles on: it scans left
    to right and replaces its candidate only by a strictly larger area, so the
    first of several equally large contours wins.
   */
  function ArgMaxArea(cnts: seq<MarkerContour>): (k: nat)
    requires |cnts| > 0
    ensures k < |cnts|
    ensures forall j :: 0 <= j < |cnts| ==> cnts[j].area <= cnts[k].area
    ensures forall j :: 0 <= j < k ==> cnts[j].area < cnts[k].area
  {
    if |cnts| == 1 then 0
    else
      var k := ArgMaxArea(cnts[..|cnts| - 1]);
      if cnts[|cnts| - 1].area > cnts[k].area then |cnts| - 1 else k
  }

  /** find_marker on the contours of one image: None when there are none. */
  function FindMarker(cnts: seq<MarkerContour>): (r: Option<MarkerRect>)
    ensures r.None? <==> |cnts| == 0
    ensures r.Some? ==>
      exists k :: 0 <= k < |cnts| && r.value == cnts[k].rect &&
        forall j :: 0 <= j < |cnts| ==> cnts[j].area <= cnts[k].area
  {
    if |cnts| == 0 then None else Some(cnts[ArgMaxArea(cnts)].rect)
  }

  /** The first largest contour is unique, and it is the one find_marker reports. */
  lemma FindMarkerPicksFirstLargest(cnts: seq<MarkerContour>, k: int)
    requires IsFirstLargest(cnts, k)
    ensures FindMarker(cnts) == Some(cnts[k].rect)
    ensures ArgMaxArea(cnts) == k
  {
  }

  /** A contour strictly larger than all others is always the one chosen. */
  lemma StrictlyLargestIsChosen(cnts: seq<MarkerContour>, k: int)
    requires 0 <= k < |cnts|
    requires forall j :: 0 <= j < |cnts| && j != k ==> cnts[j].area < cnts[k].area
    ensures FindMarker(cnts) == Some(cnts[k].rect)
  {
  }
}
