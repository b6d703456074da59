/** Real-valued arithmetic helpers standing in for Python's float built-ins. */
module Numbers {

  function Abs(x: real): (r: real)
    ensures r >= 0.0
    ensures r == x || r == -x
  {
    if x < 0.0 then -x else x
  }

  function Min(a: real, b: real): (r: real)
    ensures r <= a && r <= b
    ensures r == a || r == b
  {
    if a <= b then a else b
  }

  function Max(a: real, b: real): (r: real)
    ensures r >= a && r >= b
    ensures r == a || r == b
  {
    if a >= b then a else b
  }

  /** Python's `round(x, 2)`: the nearest multiple of 0.01, halves rounded up.
      (Python rounds the binary double half-to-even; exact reals have no such representation.) */
  function Round2(x: real): (r: real)
    ensures x - 0.005 < r <= x + 0.005
  {
    ((x * 100.0 + 0.5).Floor as real) / 100.0
  }

  lemma Round2Monotone(x: real, y: real)
    requires x <= y
    ensures Round2(x) <= Round2(y)
  {
    var u, v := x * 100.0 + 0.5, y * 100.0 + 0.5;
    assert u <= v;
    var a, b := u.Floor, v.Floor;
    assert a as real <= u && v < b as real + 1.0;
    assert a <= b;
    assert Round2(x) == a as real / 100.0 && Round2(y) == b as real / 100.0;
  }

  /** Rounding keeps a value inside the unit interval (and inside [0, 100] for percentages). */
  lemma Round2Within(x: real, lo: int, hi: int)
    requires lo as real <= x <= hi as real
    ensures lo as real <= Round2(x) <= hi as real
  {
    Round2Monotone(lo as real, x);
    Round2Monotone(x, hi as real);
    assert (lo as real * 100.0 + 0.5).Floor == lo * 100;
    assert (hi as real * 100.0 + 0.5).Floor == hi * 100;
  }
}
