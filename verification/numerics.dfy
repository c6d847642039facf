/**
 * The C++ integer and float-to-integer operations the engine relies on,
 * written out explicitly because Dafny's own `/` and `%` are Euclidean.
 */
module Numerics {

  /** C++ `a / m` for `m > 0`: the quotient is truncated toward zero. */
  function CDiv(a: int, m: int): (q: int)
    requires m > 0
    ensures a >= 0 ==> 0 <= a - m * q < m
    ensures a < 0 ==> -m < a - m * q <= 0
  {
    if a >= 0 then a / m else -((-a) / m)
  }

  /** The truncated quotient is the only quotient whose remainder has the dividend's sign and magnitude below `m`. */
  lemma CDivUnique(a: int, m: int, q: int)
    requires m > 0
    requires a >= 0 ==> 0 <= a - m * q < m
    requires a < 0 ==> -m < a - m * q <= 0
    ensures q == CDiv(a, m)
  {
    var c := CDiv(a, m);
    assert (a - m * c) - (a - m * q) == m * (q - c);
    WithinOneMultiple(m, q - c);
  }

  /** Truncation is symmetric: negating the dividend negates the quotient. */
  lemma CDivOdd(a: int, m: int)
    requires m > 0
    ensures CDiv(-a, m) == -CDiv(a, m)
  {
    var c := CDiv(a, m);
    assert m * -c == -(m * c);
    if a == 0 {
      assert c == 0;
    }
    CDivUnique(-a, m, -c);
  }

  /** The only multiple of `m` strictly between `-m` and `m` is zero. */
  lemma WithinOneMultiple(m: int, e: int)
    requires m > 0
    ensures -m < m * e < m ==> e == 0
  {
    if e >= 1 {
      assert m * e == m + m * (e - 1);
    } else if e <= -1 {
      assert m * e == -m + m * (e + 1);
    }
  }

  /** C++ `a % m` for `m > 0`: the remainder takes the sign of `a`. */
  function CRem(a: int, m: int): (r: int)
    requires m > 0
    ensures a == m * CDiv(a, m) + r
    ensures -m < r < m
    ensures a >= 0 ==> r >= 0
    ensures a <= 0 ==> r <= 0
  {
    if a >= 0 then a % m else
      var q, r0 := (-a) / m, (-a) % m;
      assert m * (-q) == -(m * q);
      -r0
  }

  /** Conversion of a float to `int`: the fraction is dropped, rounding toward zero. */
  function Trunc(v: real): (n: int)
    ensures v >= 0.0 ==> n as real <= v < n as real + 1.0
    ensures v < 0.0 ==> n as real - 1.0 < v <= n as real
  {
    if v >= 0.0 then v.Floor else -((-v).Floor)
  }

  /** `floor(v / m) * m` on an integer `v`: the multiple of `m` at or below `v`. */
  function FloorTo(v: int, m: int): (c: int)
    requires m > 0
    ensures c <= v < c + m
    ensures c % m == 0
  {
    var q := v / m;
    assert (q * m) % m == 0 by { MultipleMod(q, m); }
    q * m
  }

  lemma MultipleMod(q: int, m: int)
    requires m > 0
    ensures (q * m) % m == 0 && (q * m) / m == q
  {
    var k := q * m;
    var d, r := k / m, k % m;
    assert k == m * d + r;
    assert 0 <= r < m;
    var e := q - d;
    assert m * e == m * q - m * d;
    assert m * e == r;
  }

  /** The multiple of `m` at or below `v` is the only multiple of `m` within `m` below `v`. */
  lemma FloorToUnique(v: int, m: int, c: int)
    requires m > 0 && c % m == 0 && c <= v < c + m
    ensures FloorTo(v, m) == c
  {
    var a := c / m;
    assert c == m * a;
    var q, r := v / m, v % m;
    assert v == m * q + r && 0 <= r < m;
    var e := q - a;
    assert m * e == m * q - m * a;
    assert m * e == r - (v - c);
    WithinOneMultiple(m, e);
    assert FloorTo(v, m) == q * m;
  }
}
