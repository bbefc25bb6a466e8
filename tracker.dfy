/**
 * The current object tracker (classicOCV.py) without its image processing:
 * the area-gated contour selection, the value returned per frame, and the
 * auto-calibration that replaces the colour range from a sample box at the
 * frame centre.
 */
module Tracker {
  import opened Numeric
  import opened Tracking
  import Config

  /** The contour chosen in a frame, if any, and whether its area passes the tracking gate. */
  datatype Selection = Selection(selected: Option<Contour>, track: bool)

  /**
   * `get_selected_contour`: no contours select nothing and do not track;
   * otherwise the first contour of largest area is selected, and it is tracked
   * exactly when its area lies in `[minArea, maxArea]`, both ends included.
   */
  function SelectedContour(cs: seq<Contour>, minArea: real, maxArea: real): (s: Selection)
    ensures cs == [] ==> s == Selection(None, false)
    ensures cs != [] ==> s.selected.Some?
    ensures s.selected.Some? ==>
              exists k :: 0 <= k < |cs| && cs[k] == s.selected.value && forall j :: 0 <= j < k ==> cs[j].area < cs[k].area
    ensures s.selected.Some? ==> forall j :: 0 <= j < |cs| ==> cs[j].area <= s.selected.value.area
    ensures s.track <==> s.selected.Some? && minArea <= s.selected.value.area <= maxArea
  {
    if cs == [] then Selection(None, false)
    else
      var selected := cs[MaxAreaIndex(cs)];
      var area := selected.area;
      var track := !(area < minArea || area > maxArea);
      Selection(Some(selected), track)
  }

  /**
   * `process`, given the contours found in the filtered mask: the displacement
   * of the selected contour and the tracking decision.
   */
  function Process(f: Frame, cs: seq<Contour>, minArea: real, maxArea: real): (r: (real, real, bool))
    requires f.w > 0 && f.h > 0
    ensures cs == [] ==> r == (0.0, 0.0, false)
    ensures r.2 <==> cs != [] && minArea <= cs[MaxAreaIndex(cs)].area <= maxArea
    ensures cs != [] ==> (r.0, r.1) == CenterToCentroid(f, Some(cs[MaxAreaIndex(cs)]))
  {
    var s := SelectedContour(cs, minArea, maxArea);
    var (dx, dy) := CenterToCentroid(f, s.selected);
    (dx, dy, s.track)
  }

  /**
   * A worked frame: a 100 x 100 blob centred 50 pixels right of and 30 pixels
   * below the centre of a 640 x 480 frame is tracked under the gate [300, 40000]
   * and gives the displacement (0.15625, 0.125).
   */
  lemma OffsetBlobExample()
    ensures Process(Frame(640, 480), [Contour(10000.0, 10000.0, 3700000.0, 2700000.0)], 300.0, 40000.0)
              == (0.15625, 0.125, true)
  {
  }

  /** The gate's ends are included: areas 300 and 40000 are tracked, 299 and 40001 are not. */
  lemma GateBoundaries(c: Contour)
    ensures SelectedContour([c.(area := 300.0)], 300.0, 40000.0).track
    ensures SelectedContour([c.(area := 40000.0)], 300.0, 40000.0).track
    ensures !SelectedContour([c.(area := 299.0)], 300.0, 40000.0).track
    ensures !SelectedContour([c.(area := 40001.0)], 300.0, 40000.0).track
  {
  }

  /** A pixel already converted to hue, saturation and value. */
  datatype Hsv = Hsv(hue: int, sat: int, val: int)

  /** Per-channel percentile values of a sample, as floats. */
  datatype HsvSample = HsvSample(hue: real, sat: real, val: real)

  /** The lower and upper percentile of each channel of the sample box. */
  datatype Percentiles = Percentiles(low: HsvSample, high: HsvSample)

  /** The six bounds of the colour mask. */
  datatype ColorRange = ColorRange(hueLow: int, hueHigh: int, satLow: int, satHigh: int, valLow: int, valHigh: int)

  /** A rectangle of pixels `[x1, x2) x [y1, y2)`. */
  datatype Box = Box(x1: int, y1: int, x2: int, y2: int) {
    /** No pixel lies in the rectangle. */
    predicate IsEmpty() {
      x2 <= x1 || y2 <= y1
    }
  }

  /** The mask test of `inRange` on one pixel: every channel within its inclusive bounds. */
  predicate InRange(p: Hsv, r: ColorRange)
  {
    && r.hueLow <= p.hue <= r.hueHigh
    && r.satLow <= p.sat <= r.satHigh
    && r.valLow <= p.val <= r.valHigh
  }

  /** Every bound lies in its channel's domain: hue in [0, 179], saturation and value in [0, 255]. */
  predicate InDomain(r: ColorRange)
  {
    && 0 <= r.hueLow <= Config.HueMax && 0 <= r.hueHigh <= Config.HueMax
    && 0 <= r.satLow <= Config.SatValMax && 0 <= r.satHigh <= Config.SatValMax
    && 0 <= r.valLow <= Config.SatValMax && 0 <= r.valHigh <= Config.SatValMax
  }

  /** Low is at most high on every channel. */
  predicate Ordered(r: ColorRange)
  {
    r.hueLow <= r.hueHigh && r.satLow <= r.satHigh && r.valLow <= r.valHigh
  }

  /** The range the tracker starts with. */
  const DefaultRange: ColorRange :=
    ColorRange(Config.HueLow, Config.HueHigh, Config.SatLow, Config.SatHigh, Config.ValLow, Config.ValHigh)

  /**
   * The sample box of `get_center_hsv_range`: `n // 2` pixels either side of the
   * frame centre on each axis, cut to the frame. For `n >= 0` it lies inside the
   * frame, is no wider or taller than `2 * (n // 2)`, and is exactly that size
   * and centred when it fits.
   */
  function CenterBox(f: Frame, n: int): (b: Box)
    ensures n >= 0 ==> 0 <= b.x1 <= b.x2 <= f.w && 0 <= b.y1 <= b.y2 <= f.h
    ensures n >= 0 ==> b.x2 - b.x1 <= 2 * (n / 2) && b.y2 - b.y1 <= 2 * (n / 2)
    ensures n / 2 <= Centre(f).0 && Centre(f).0 + n / 2 <= f.w ==>
              b.x1 == Centre(f).0 - n / 2 && b.x2 == Centre(f).0 + n / 2
    ensures n / 2 <= Centre(f).1 && Centre(f).1 + n / 2 <= f.h ==>
              b.y1 == Centre(f).1 - n / 2 && b.y2 == Centre(f).1 + n / 2
    ensures n >= 2 && f.w > 0 && f.h > 0 ==> !b.IsEmpty()
  {
    var (cx, cy) := Centre(f);
    var x1, x2 := cx - n / 2, cx + n / 2;
    var y1, y2 := cy - n / 2, cy + n / 2;
    var x1', y1' := (if x1 > 0 then x1 else 0), (if y1 > 0 then y1 else 0);
    var x2', y2' := (if x2 < f.w then x2 else f.w), (if y2 < f.h then y2 else f.h);
    Box(x1', y1', x2', y2')
  }

  /**
   * The range derived from the sample's percentiles: each low bound is the
   * truncated lower percentile minus the channel's allowance, each high bound the
   * truncated upper percentile plus it, clipped to the channel's domain.
   */
  function CalibratedRange(p: Percentiles): (r: ColorRange)
    ensures InDomain(r)
  {
    ColorRange(
      Clip(Trunc(p.low.hue) - Config.HueAllowance, 0, Config.HueMax),
      Clip(Trunc(p.high.hue) + Config.HueAllowance, 0, Config.HueMax),
      Clip(Trunc(p.low.sat) - Config.SatAllowance, 0, Config.SatValMax),
      Clip(Trunc(p.high.sat) + Config.SatAllowance, 0, Config.SatValMax),
      Clip(Trunc(p.low.val) - Config.ValAllowance, 0, Config.SatValMax),
      Clip(Trunc(p.high.val) + Config.ValAllowance, 0, Config.SatValMax))
  }

  /** Ordered percentiles give an ordered range on every channel. */
  lemma CalibratedOrdered(p: Percentiles)
    requires p.low.hue <= p.high.hue && p.low.sat <= p.high.sat && p.low.val <= p.high.val
    ensures Ordered(CalibratedRange(p))
  {
  }

  /**
   * The new range is wider than the sampled core: every pixel whose channels lie
   * in their domains and between the truncated lower and upper percentiles passes
   * the new mask.
   */
  lemma CalibrationCoversSample(p: Percentiles, px: Hsv)
    requires 0 <= px.hue <= Config.HueMax && 0 <= px.sat <= Config.SatValMax && 0 <= px.val <= Config.SatValMax
    requires Trunc(p.low.hue) <= px.hue <= Trunc(p.high.hue)
    requires Trunc(p.low.sat) <= px.sat <= Trunc(p.high.sat)
    requires Trunc(p.low.val) <= px.val <= Trunc(p.high.val)
    ensures InRange(px, CalibratedRange(p))
  {
  }

  class ObjectTracker {
    var hueLow: int
    var hueHigh: int
    var satLow: int
    var satHigh: int
    var valLow: int
    var valHigh: int
    var dynBox: bool

    /** The colour range the mask currently uses. */
    function Range(): ColorRange
      reads this
    {
      ColorRange(hueLow, hueHigh, satLow, satHigh, valLow, valHigh)
    }

    /** A tracker with the configured colour range and the sample box not shown. */
    constructor ()
      ensures Range() == DefaultRange && !dynBox
      ensures InDomain(Range()) && Ordered(Range())
    {
      hueLow, hueHigh := Config.HueLow, Config.HueHigh;
      satLow, satHigh := Config.SatLow, Config.SatHigh;
      valLow, valHigh := Config.ValLow, Config.ValHigh;
      dynBox := false;
    }

    /**
     * `get_center_hsv_range`: replaces all six bounds with the range derived from
     * the percentiles of the centre box of side `n`. `sample` stands for the
     * colour conversion and numpy's percentiles over the pixels of a box. The
     * colour conversion raises on an empty region, before any bound is assigned:
     * for an empty box `ok` is false and the range is unchanged.
     */
    method GetCenterHsvRange(f: Frame, sample: Box -> Percentiles, n: int := Config.BoxSize) returns (ok: bool)
      modifies this`hueLow, this`hueHigh, this`satLow, this`satHigh, this`valLow, this`valHigh
      ensures ok <==> !CenterBox(f, n).IsEmpty()
      ensures ok ==> Range() == CalibratedRange(sample(CenterBox(f, n)))
      ensures !ok ==> Range() == old(Range())
      ensures ok ==> InDomain(Range())
      ensures dynBox == old(dynBox)
    {
      var box := CenterBox(f, n);
      if box.IsEmpty() {
        return false;
      }
      var pct := sample(box);
      var lo, hi := pct.low, pct.high;

      hueLow := Clip(Trunc(lo.hue) - Config.HueAllowance, 0, Config.HueMax);
      satLow := Clip(Trunc(lo.sat) - Config.SatAllowance, 0, Config.SatValMax);
      valLow := Clip(Trunc(lo.val) - Config.ValAllowance, 0, Config.SatValMax);

      hueHigh := Clip(Trunc(hi.hue) + Config.HueAllowance, 0, Config.HueMax);
      satHigh := Clip(Trunc(hi.sat) + Config.SatAllowance, 0, Config.SatValMax);
      valHigh := Clip(Trunc(hi.val) + Config.ValAllowance, 0, Config.SatValMax);
      ok := true;
    }
  }
}
