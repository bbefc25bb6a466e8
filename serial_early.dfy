/**
 * The earlier serial position controller (serialController/functions.py): always
 * active, one speed for both axes, both axes inverted, a fixed one-second gate,
 * and an unused prescaler.
 */
module SerialEarly {
  import opened Motion
  import opened Numeric

  /** The send gate of this version, in seconds. */
  const SendPeriod: real := 1.0

  class SerialController {
    var x: real
    var y: real
    var speed: real
    var lastSentTime: real
    var xinv: bool
    var yinv: bool
    var prescaler: int
    var counter: int

    /** Every position written to the link, oldest first. */
    ghost var sent: seq<(real, real)>
    /** The clock reading of the update behind each entry of `sent`. */
    ghost var sendTimes: seq<real>

    /** The position bound and the send log's consistency with the clock. */
    ghost predicate Valid()
      reads this
    {
      && -1.0 <= x <= 1.0
      && -1.0 <= y <= 1.0
      && |sent| == |sendTimes|
      && Spaced(sendTimes, SendPeriod)
      && (|sendTimes| > 0 ==> sendTimes[|sendTimes| - 1] == lastSentTime)
    }

    /** A controller at the origin whose clock starts at `now`; the serial port is not modelled. */
    constructor (now: real, prescaler: int := 1)
      ensures Valid()
      ensures x == 0.0 && y == 0.0 && speed == 0.01 && xinv && yinv
      ensures this.prescaler == prescaler && counter == 0
      ensures lastSentTime == now && sent == [] && sendTimes == []
    {
      x, y := 0.0, 0.0;
      speed := 0.01;
      lastSentTime := now;
      xinv, yinv := true, true;
      this.prescaler := prescaler;
      counter := 0;
      sent, sendTimes := [], [];
    }

    /** Writes the current position to the link; `at` is the clock reading of the call. */
    method Send(ghost at: real)
      modifies this`sent, this`sendTimes
      ensures sent == old(sent) + [(x, y)] && sendTimes == old(sendTimes) + [at]
    {
      sent := sent + [(x, y)];
      sendTimes := sendTimes + [at];
    }

    /**
     * One tracker displacement at clock reading `now`: both axes move by their
     * signed step at the shared speed and are clamped; the position is sent when
     * more than a second has passed since the last send. The prescaler and its
     * counter take no part.
     */
    method Update(dx: real, dy: real, now: real)
      requires Valid()
      modifies this`x, this`y, this`lastSentTime, this`sent, this`sendTimes
      ensures Valid()
      ensures x == AxisUpdate(old(x), dx, speed, xinv) && y == AxisUpdate(old(y), dy, speed, yinv)
      ensures SendDue(now, old(lastSentTime), SendPeriod) ==>
                sent == old(sent) + [(x, y)] && sendTimes == old(sendTimes) + [now] && lastSentTime == now
      ensures !SendDue(now, old(lastSentTime), SendPeriod) ==>
                sent == old(sent) && sendTimes == old(sendTimes) && lastSentTime == old(lastSentTime)
      ensures prescaler == old(prescaler) && counter == old(counter)
    {
      // Negate the axis when inverted, scale by its gain, add and clamp.
      x := AxisUpdate(x, dx, speed, xinv);
      y := AxisUpdate(y, dy, speed, yinv);

      if now > lastSentTime + 1.0 {
        SpacedAppend(sendTimes, 1.0, now);
        Send(now);
        lastSentTime := now;
      }
    }

    /** `max(1, int(n))`: the prescaler is at least 1, and is `n` itself for a whole `n >= 1`. */
    method SetPrescaler(n: real)
      modifies this`prescaler
      ensures prescaler >= 1
      ensures prescaler == if Trunc(n) > 1 then Trunc(n) else 1
      ensures n.Floor as real == n && n >= 1.0 ==> prescaler as real == n
    {
      var t := Trunc(n);
      prescaler := if 1 > t then 1 else t;
    }
  }
}
