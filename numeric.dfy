/** Python numeric conversions the core relies on. */
module Numeric {

  /** Python's `int(v)` on a float: truncation toward zero. */
  function Trunc(v: real): (i: int)
    ensures v >= 0.0 ==> 0 <= i && i as real <= v < i as real + 1.0
    ensures v < 0.0 ==> i <= 0 && i as real - 1.0 < v <= i as real
  {
    if v >= 0.0 then v.Floor else -((-v).Floor)
  }

  /** numpy's `clip(v, lo, hi)` on integers: `min(max(v, lo), hi)`. */
  function Clip(v: int, lo: int, hi: int): (r: int)
    requires lo <= hi
    ensures lo <= r <= hi
    ensures lo <= v <= hi ==> r == v
    ensures v < lo ==> r == lo
    ensures v > hi ==> r == hi
  {
    var m := if v > lo then v else lo;
    if m < hi then m else hi
  }
}
