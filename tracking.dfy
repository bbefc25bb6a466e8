/**
 * The decision arithmetic common to both versions of the object tracker
 * (classicOCV.py and classicOCV/functions.py): choosing the largest contour
 * and turning its centroid into a displacement from the frame centre.
 * A contour is abstracted to its area and its first image moments.
 */
module Tracking {
  import opened Numeric

  datatype Option<T> = None | Some(value: T)

  /** A contour as the tracker sees it: its enclosed area and moments m00, m10, m01. */
  datatype Contour = Contour(area: real, m00: real, m10: real, m01: real)

  /** The pixel dimensions of a frame. */
  datatype Frame = Frame(w: nat, h: nat)

  /**
   * Python's `max(contours, key=area)`: the index of the largest area, and
   * of the first one in list order when several share it.
   */
  function MaxAreaIndex(cs: seq<Contour>): (k: nat)
    requires |cs| > 0
    ensures k < |cs|
    ensures forall j :: 0 <= j < |cs| ==> cs[j].area <= cs[k].area
    ensures forall j :: 0 <= j < k ==> cs[j].area < cs[k].area
    decreases |cs|
  {
    if |cs| == 1 then 0
    else
      var k := MaxAreaIndex(cs[..|cs| - 1]);
      if cs[|cs| - 1].area > cs[k].area then |cs| - 1 else k
  }

  /** The integer frame centre `(w // 2, h // 2)`. */
  function Centre(f: Frame): (c: (int, int))
    ensures 0 <= 2 * c.0 <= f.w && f.w <= 2 * c.0 + 1
    ensures 0 <= 2 * c.1 <= f.h && f.h <= 2 * c.1 + 1
  {
    (f.w / 2, f.h / 2)
  }

  /** The centroid `(int(m10 / m00), int(m01 / m00))` of a contour with non-zero mass. */
  function Centroid(c: Contour): (t: (int, int))
    requires c.m00 != 0.0
  {
    (Trunc(c.m10 / c.m00), Trunc(c.m01 / c.m00))
  }

  /** A pixel offset from the centre as a fraction of half the extent: `2 * d / extent`. */
  function Normalise(d: int, extent: nat): (r: real)
    requires extent > 0
    ensures r * (extent as real) == 2.0 * d as real
    ensures (r > 0.0 <==> d > 0) && (r == 0.0 <==> d == 0)
  {
    (2 * d) as real / extent as real
  }

  /**
   * The returned numbers of `center_to_centroid`: nothing selected, or a
   * contour of zero mass, gives (0, 0); otherwise the centroid's offset from
   * the centre, per axis, as a fraction of half the frame's extent.
   */
  function CenterToCentroid(f: Frame, selected: Option<Contour>): (d: (real, real))
    requires f.w > 0 && f.h > 0
    ensures selected.None? ==> d == (0.0, 0.0)
    ensures selected.Some? && selected.value.m00 == 0.0 ==> d == (0.0, 0.0)
    ensures selected.Some? && selected.value.m00 != 0.0 ==>
              d.0 * (f.w as real) == 2.0 * (Centroid(selected.value).0 - Centre(f).0) as real &&
              d.1 * (f.h as real) == 2.0 * (Centroid(selected.value).1 - Centre(f).1) as real
  {
    match selected
    case None => (0.0, 0.0)
    case Some(c) =>
      if c.m00 == 0.0 then (0.0, 0.0)
      else
        var (cx, cy) := Centre(f);
        var (tx, ty) := Centroid(c);
        (Normalise(tx - cx, f.w), Normalise(ty - cy, f.h))
  }

  /** A centroid exactly at the frame centre gives no displacement. */
  lemma CentredIsZero(f: Frame, c: Contour)
    requires f.w > 0 && f.h > 0 && c.m00 != 0.0
    requires Centroid(c) == Centre(f)
    ensures CenterToCentroid(f, Some(c)) == (0.0, 0.0)
  {
  }

  /** A quotient by a positive number stays in [-1, 1) when the dividend lies in [-divisor, divisor). */
  lemma QuotientInUnit(x: real, y: real)
    requires y > 0.0 && -y <= x < y
    ensures -1.0 <= x / y < 1.0
  {
  }

  /** A pixel coordinate inside an extent gives a normalised offset in [-1, 1). */
  lemma NormalisedInside(t: int, extent: nat)
    requires 0 <= t < extent
    ensures -1.0 <= Normalise(t - extent / 2, extent) < 1.0
  {
    var c := extent / 2;
    assert -(extent as int) <= 2 * (t - c) < extent;
    QuotientInUnit((2 * (t - c)) as real, extent as real);
  }

  /** A centroid inside the frame gives a displacement in [-1, 1) on both axes. */
  lemma DisplacementInsideFrame(f: Frame, c: Contour)
    requires f.w > 0 && f.h > 0 && c.m00 != 0.0
    requires 0 <= Centroid(c).0 < f.w && 0 <= Centroid(c).1 < f.h
    ensures -1.0 <= CenterToCentroid(f, Some(c)).0 < 1.0
    ensures -1.0 <= CenterToCentroid(f, Some(c)).1 < 1.0
  {
    NormalisedInside(Centroid(c).0, f.w);
    NormalisedInside(Centroid(c).1, f.h);
  }
}
