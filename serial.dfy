/**
 * The current serial position controller (serialController.py): a paused-by-default
 * integrator of the tracker's displacement with per-axis inversion and gain,
 * and a wall-clock gate on how often the position goes out on the link.
 */
module Serial {
  import opened Motion
  import Config

  class SerialController {
    var x: real
    var y: real
    var speedx: real
    var speedy: real
    var comPeriod: real
    var lastSentTime: real
    var xinv: bool
    var yinv: bool
    var paused: bool

    /** Every position written to the link, oldest first. */
    ghost var sent: seq<(real, real)>
    /** The clock reading of the update behind each entry of `sent`. */
    ghost var sendTimes: seq<real>

    /** The position bound and the send log's consistency with the clock. */
    ghost predicate Valid()
      reads this
    {
      && -1.0 <= x <= 1.0
      && -1.0 <= y <= 1.0
      && |sent| == |sendTimes|
      && Spaced(sendTimes, comPeriod)
      && (|sendTimes| > 0 ==> sendTimes[|sendTimes| - 1] == lastSentTime)
    }

    /**
     * A controller at the origin, paused, whose clock starts at `now`. The serial
     * port is not modelled; the speeds have no default because the configuration
     * does not define them.
     */
    constructor (now: real, speedx: real, speedy: real,
                 comPeriod: real := Config.ComPeriod, xinv: bool := Config.XInv, yinv: bool := Config.YInv)
      ensures Valid()
      ensures x == 0.0 && y == 0.0 && paused
      ensures lastSentTime == now && sent == [] && sendTimes == []
      ensures this.speedx == speedx && this.speedy == speedy && this.comPeriod == comPeriod
      ensures this.xinv == xinv && this.yinv == yinv
    {
      x, y := 0.0, 0.0;
      this.speedx, this.speedy := speedx, speedy;
      this.comPeriod := comPeriod;
      lastSentTime := now;
      this.xinv, this.yinv := xinv, yinv;
      paused := true;
      sent, sendTimes := [], [];
    }

    /** Writes the current position to the link; `at` is the clock reading of the call. */
    method Send(ghost at: real)
      modifies this`sent, this`sendTimes
      ensures sent == old(sent) + [(x, y)] && sendTimes == old(sendTimes) + [at]
    {
      sent := sent + [(x, y)];
      sendTimes := sendTimes + [at];
    }

    /**
     * One tracker displacement at clock reading `now`. Paused: nothing changes and
     * nothing is sent. Otherwise each axis moves by its own signed, scaled step and
     * is clamped; then, when more than one period has passed since the last send,
     * the new position is sent and the clock moves to `now`.
     */
    method Update(dx: real, dy: real, now: real)
      requires Valid()
      modifies this`x, this`y, this`lastSentTime, this`sent, this`sendTimes
      ensures Valid()
      ensures old(paused) ==> x == old(x) && y == old(y) && lastSentTime == old(lastSentTime)
      ensures old(paused) ==> sent == old(sent) && sendTimes == old(sendTimes)
      ensures !paused ==> x == AxisUpdate(old(x), dx, speedx, xinv) && y == AxisUpdate(old(y), dy, speedy, yinv)
      ensures !paused && SendDue(now, old(lastSentTime), comPeriod) ==>
                sent == old(sent) + [(x, y)] && sendTimes == old(sendTimes) + [now] && lastSentTime == now
      ensures !paused && !SendDue(now, old(lastSentTime), comPeriod) ==>
                sent == old(sent) && sendTimes == old(sendTimes) && lastSentTime == old(lastSentTime)
    {
      if paused {
        return;
      }
      // Negate the axis when inverted, scale by its gain, add and clamp.
      x := AxisUpdate(x, dx, speedx, xinv);
      y := AxisUpdate(y, dy, speedy, yinv);

      if now > lastSentTime + comPeriod {
        SpacedAppend(sendTimes, comPeriod, now);
        Send(now);
        lastSentTime := now;
      }
    }
  }
}
