/** The handful of Python/numpy numeric built-ins the core relies on, stated
    over Dafny's unbounded reals and integers. Floating-point rounding is
    idealised away: a Python float is a Dafny `real`. */
module Numeric {

  /** Python's `abs` on a float. */
  function Abs(x: real): (r: real)
    ensures r >= 0.0
    ensures r == x || r == -x
  {
    if x < 0.0 then -x else x
  }

  /** Python's `max(a, b)` on two integers. */
  function Max(a: int, b: int): (r: int)
    ensures r >= a && r >= b
    ensures r == a || r == b
  {
    if a < b then b else a
  }

  /** Python's `int(x)` on a float: truncation toward zero. */
  function TruncToInt(x: real): (r: int)
    ensures x >= 0.0 ==> 0 <= r && r as real <= x < r as real + 1.0
    ensures x <= 0.0 ==> r <= 0 && r as real - 1.0 < x <= r as real
  {
    if x >= 0.0 then x.Floor else -((-x).Floor)
  }

  /** `np.clip(x, lo, hi)` on a scalar: `min(max(x, lo), hi)`. */
  function Clip(x: real, lo: real, hi: real): (r: real)
    requires lo <= hi
    ensures lo <= r <= hi
    ensures lo <= x <= hi ==> r == x
    ensures x < lo ==> r == lo
    ensures hi < x ==> r == hi
  {
    if x < lo then lo else if hi < x then hi else x
  }

  /** On non-negative values `int()` is the floor, so it is monotone there. */
  lemma TruncMonotone(x: real, y: real)
    requires 0.0 <= x <= y
    ensures TruncToInt(x) <= TruncToInt(y)
  {
  }

  /** `int(t / 4)` of a non-negative integer total is Euclidean division by 4. */
  lemma TruncQuarter(t: int)
    requires t >= 0
    ensures TruncToInt(t as real / 4.0) == t / 4
  {
    var q, r := t / 4, t % 4;
    assert t as real / 4.0 == q as real + r as real / 4.0;
  }
}
