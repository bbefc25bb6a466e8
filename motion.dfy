/**
 * The arithmetic shared by both versions of the serial controller:
 * the saturating integrator of one axis and the period gate of the
 * transmission, as single steps and as runs of many updates.
 */
module Motion {

  /** `max(-1.0, min(1.0, v))`: the position bound of every axis. */
  function Clamp(v: real): (r: real)
    ensures -1.0 <= r <= 1.0
    ensures -1.0 <= v <= 1.0 ==> r == v
    ensures v > 1.0 ==> r == 1.0
    ensures v < -1.0 ==> r == -1.0
  {
    var m := if v < 1.0 then v else 1.0;
    if -1.0 < m then m else -1.0
  }

  /** The signed step of one axis: the displacement, negated when the axis is inverted, times the gain. */
  function Increment(d: real, gain: real, inv: bool): (r: real)
  {
    (if inv then -d else d) * gain
  }

  /** One axis of an update: the position moved by its increment and clamped to [-1, 1]. */
  function AxisUpdate(pos: real, d: real, gain: real, inv: bool): (r: real)
    ensures -1.0 <= r <= 1.0
    ensures -1.0 <= pos + Increment(d, gain, inv) <= 1.0 ==> r == pos + Increment(d, gain, inv)
    ensures pos + Increment(d, gain, inv) > 1.0 ==> r == 1.0
    ensures pos + Increment(d, gain, inv) < -1.0 ==> r == -1.0
  {
    Clamp(pos + Increment(d, gain, inv))
  }

  /** Inverting an axis is the same as feeding it the negated displacement. */
  lemma InversionNegates(pos: real, d: real, gain: real)
    ensures AxisUpdate(pos, d, gain, true) == AxisUpdate(pos, -d, gain, false)
  {
  }

  /**
   * Saturation: from a position inside the bounds, a non-negative step never
   * lowers the position and never passes 1; a non-positive step never raises
   * it and never passes -1.
   */
  lemma AxisSaturation(pos: real, d: real, gain: real, inv: bool)
    requires -1.0 <= pos <= 1.0
    ensures Increment(d, gain, inv) >= 0.0 ==> pos <= AxisUpdate(pos, d, gain, inv) <= 1.0
    ensures Increment(d, gain, inv) <= 0.0 ==> -1.0 <= AxisUpdate(pos, d, gain, inv) <= pos
  {
  }

  /** The position of one axis after a run of updates with displacements `ds`, first to last. */
  function Drive(pos: real, ds: seq<real>, gain: real, inv: bool): (r: real)
    decreases |ds|
  {
    if ds == [] then pos else Drive(AxisUpdate(pos, ds[0], gain, inv), ds[1..], gain, inv)
  }

  /** Across any run of updates the position stays within [-1, 1]. */
  lemma {:induction false} DriveBounded(pos: real, ds: seq<real>, gain: real, inv: bool)
    requires -1.0 <= pos <= 1.0
    ensures -1.0 <= Drive(pos, ds, gain, inv) <= 1.0
    decreases |ds|
  {
    if ds != [] {
      DriveBounded(AxisUpdate(pos, ds[0], gain, inv), ds[1..], gain, inv);
    }
  }

  /** While every step is non-negative the position never decreases and never passes 1. */
  lemma {:induction false} DriveRises(pos: real, ds: seq<real>, gain: real, inv: bool)
    requires -1.0 <= pos <= 1.0
    requires forall i :: 0 <= i < |ds| ==> Increment(ds[i], gain, inv) >= 0.0
    ensures pos <= Drive(pos, ds, gain, inv) <= 1.0
    decreases |ds|
  {
    if ds != [] {
      var next := AxisUpdate(pos, ds[0], gain, inv);
      assert Increment(ds[0], gain, inv) >= 0.0;
      assert forall i :: 0 <= i < |ds[1..]| ==> ds[1..][i] == ds[i + 1];
      DriveRises(next, ds[1..], gain, inv);
    }
  }

  /** While every step is non-positive the position never increases and never passes -1. */
  lemma {:induction false} DriveFalls(pos: real, ds: seq<real>, gain: real, inv: bool)
    requires -1.0 <= pos <= 1.0
    requires forall i :: 0 <= i < |ds| ==> Increment(ds[i], gain, inv) <= 0.0
    ensures -1.0 <= Drive(pos, ds, gain, inv) <= pos
    decreases |ds|
  {
    if ds != [] {
      var next := AxisUpdate(pos, ds[0], gain, inv);
      assert Increment(ds[0], gain, inv) <= 0.0;
      assert forall i :: 0 <= i < |ds[1..]| ==> ds[1..][i] == ds[i + 1];
      DriveFalls(next, ds[1..], gain, inv);
    }
  }

  /** With every step at least `c`, after `k` updates the position is at least `min(1, pos + k*c)`. */
  lemma {:induction false} DriveProgress(pos: real, ds: seq<real>, gain: real, inv: bool, c: real)
    requires -1.0 <= pos <= 1.0 && c >= 0.0
    requires forall i :: 0 <= i < |ds| ==> Increment(ds[i], gain, inv) >= c
    ensures Drive(pos, ds, gain, inv) >= 1.0 || Drive(pos, ds, gain, inv) >= pos + |ds| as real * c
    decreases |ds|
  {
    if ds != [] {
      var next := AxisUpdate(pos, ds[0], gain, inv);
      assert Increment(ds[0], gain, inv) >= c;
      assert next == 1.0 || next >= pos + c;
      assert forall i :: 0 <= i < |ds[1..]| ==> ds[1..][i] == ds[i + 1];
      DriveProgress(next, ds[1..], gain, inv, c);
      if next == 1.0 {
        DriveRises(next, ds[1..], gain, inv);
      } else {
        assert (|ds| - 1) as real * c + c == |ds| as real * c;
      }
    }
  }

  /**
   * A constant push saturates: when every step is at least `c > 0` and there are
   * enough of them to cross the whole range (`k*c >= 2`), the position ends at exactly 1.
   */
  lemma DriveSaturates(pos: real, ds: seq<real>, gain: real, inv: bool, c: real)
    requires -1.0 <= pos <= 1.0 && c > 0.0
    requires forall i :: 0 <= i < |ds| ==> Increment(ds[i], gain, inv) >= c
    requires |ds| as real * c >= 2.0
    ensures Drive(pos, ds, gain, inv) == 1.0
  {
    DriveProgress(pos, ds, gain, inv, c);
    DriveBounded(pos, ds, gain, inv);
  }

  /** The transmission gate: strictly more than one period since the last send. */
  predicate SendDue(now: real, last: real, period: real)
  {
    now > last + period
  }

  /** Consecutive send times lie strictly more than `period` apart. */
  predicate Spaced(ts: seq<real>, period: real)
  {
    forall i :: 0 <= i < |ts| - 1 ==> ts[i] + period < ts[i + 1]
  }

  /** A send more than one period after the last one keeps a spaced log spaced. */
  lemma SpacedAppend(ts: seq<real>, period: real, t: real)
    requires Spaced(ts, period)
    requires |ts| > 0 ==> ts[|ts| - 1] + period < t
    ensures Spaced(ts + [t], period)
  {
    var us := ts + [t];
    forall i | 0 <= i < |us| - 1
      ensures us[i] + period < us[i + 1]
    {
      if i < |ts| - 1 {
        assert us[i] == ts[i] && us[i + 1] == ts[i + 1];
      }
    }
  }

  /**
   * The times at which a run of updates at clock readings `nows` sends,
   * starting from last-sent time `last`; a send moves the last-sent time to its clock reading.
   */
  function SendTimes(last: real, period: real, nows: seq<real>): (ts: seq<real>)
    decreases |nows|
  {
    if nows == [] then []
    else if SendDue(nows[0], last, period) then [nows[0]] + SendTimes(nows[0], period, nows[1..])
    else SendTimes(last, period, nows[1..])
  }

  /**
   * Every run sends at most once per update and only at a clock reading of
   * one of its updates; its first send comes more than one period after
   * `last`, and its sends are more than one period apart (whatever the order
   * of the clock readings).
   */
  lemma {:induction false} SendTimesSpaced(last: real, period: real, nows: seq<real>)
    ensures |SendTimes(last, period, nows)| <= |nows|
    ensures forall i :: 0 <= i < |SendTimes(last, period, nows)| ==> SendTimes(last, period, nows)[i] in nows
    ensures |SendTimes(last, period, nows)| > 0 ==> SendTimes(last, period, nows)[0] > last + period
    ensures Spaced(SendTimes(last, period, nows), period)
    decreases |nows|
  {
    if nows != [] {
      if SendDue(nows[0], last, period) {
        SendTimesSpaced(nows[0], period, nows[1..]);
      } else {
        SendTimesSpaced(last, period, nows[1..]);
      }
    }
  }

  /** Updates that all come within one period of the last send send nothing. */
  lemma {:induction false} NoSendWithinPeriod(last: real, period: real, nows: seq<real>)
    requires forall i :: 0 <= i < |nows| ==> nows[i] <= last + period
    ensures SendTimes(last, period, nows) == []
    decreases |nows|
  {
    if nows != [] {
      assert nows[0] <= last + period;
      assert forall i :: 0 <= i < |nows[1..]| ==> nows[1..][i] == nows[i + 1];
      NoSendWithinPeriod(last, period, nows[1..]);
    }
  }

  /**
   * No burst catch-up: updates that all come within two periods of the last
   * send, at least one of them past the first period, send exactly once.
   */
  lemma {:induction false} OneSendWithinTwoPeriods(last: real, period: real, nows: seq<real>)
    requires forall i :: 0 <= i < |nows| ==> nows[i] <= last + 2.0 * period
    requires exists i :: 0 <= i < |nows| && nows[i] > last + period
    ensures |SendTimes(last, period, nows)| == 1
    decreases |nows|
  {
    var rest := nows[1..];
    assert forall i :: 0 <= i < |rest| ==> rest[i] == nows[i + 1];
    if SendDue(nows[0], last, period) {
      NoSendWithinPeriod(nows[0], period, rest);
    } else {
      var i :| 0 <= i < |nows| && nows[i] > last + period;
      assert i > 0 && rest[i - 1] > last + period;
      OneSendWithinTwoPeriods(last, period, rest);
    }
  }
}
