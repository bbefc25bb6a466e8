/**
 * The earlier object tracker (classicOCV/functions.py) without its image
 * processing: contour selection with no area gate, and a per-frame result
 * that is the displacement alone.
 */
module TrackerEarly {
  import opened Tracking
  import Tracker

  /**
   * `get_selected_contour`: nothing for no contours, otherwise the first contour
   * of largest area, whatever that area is.
   */
  function SelectedContour(cs: seq<Contour>): (s: Option<Contour>)
    ensures s.Some? <==> cs != []
    ensures s.Some? ==>
              exists k :: 0 <= k < |cs| && cs[k] == s.value && forall j :: 0 <= j < k ==> cs[j].area < cs[k].area
    ensures s.Some? ==> forall j :: 0 <= j < |cs| ==> cs[j].area <= s.value.area
  {
    if cs == [] then None else Some(cs[MaxAreaIndex(cs)])
  }

  /** `process`, given the contours found in the filtered mask: the pair (dx, dy) and nothing else. */
  function Process(f: Frame, cs: seq<Contour>): (r: (real, real))
    requires f.w > 0 && f.h > 0
    ensures cs == [] ==> r == (0.0, 0.0)
    ensures cs != [] ==> r == CenterToCentroid(f, Some(cs[MaxAreaIndex(cs)]))
  {
    var selected := SelectedContour(cs);
    CenterToCentroid(f, selected)
  }

  /**
   * The area gate of the current version only adds the tracking flag: for any
   * bounds it selects the same contour as this version, and its displacement is
   * the same pair.
   */
  lemma GateOnlyAddsFlag(f: Frame, cs: seq<Contour>, minArea: real, maxArea: real)
    requires f.w > 0 && f.h > 0
    ensures Tracker.SelectedContour(cs, minArea, maxArea).selected == SelectedContour(cs)
    ensures (Tracker.Process(f, cs, minArea, maxArea).0, Tracker.Process(f, cs, minArea, maxArea).1) == Process(f, cs)
  {
  }
}
