/** Facts about non-negative remainders, stated with an explicit quotient. */
module Modular {

  lemma MulAtLeast(d: int, m: int)
    requires d >= 1 && m > 0
    ensures d * m >= m
  {
    var e := d - 1;
    assert e * m >= 0;
    assert d * m == e * m + m;
  }

  lemma Distribute(a: int, b: int, m: int)
    ensures a * m - b * m == (a - b) * m
  {
  }

  /** The remainder of q * m + r is r whenever 0 <= r < m. */
  lemma ModUnique(a: int, m: int, q: int, r: int)
    requires m > 0 && 0 <= r < m && a == q * m + r
    ensures a % m == r
  {
    var q', r' := a / m, a % m;
    assert a == q' * m + r';
    Distribute(q, q', m);
    var d := q - q';
    assert d * m == r' - r;
    if d > 0 {
      MulAtLeast(d, m);
    } else if d < 0 {
      MulAtLeast(-d, m);
    }
  }

  /** Adding whole multiples of m does not change the remainder. */
  lemma ModShiftBy(a: nat, m: nat, q: nat)
    requires m > 0
    ensures (q * m + a) % m == a % m
  {
    var p := a / m;
    assert q * m + a == (q + p) * m + a % m by {
      assert (q + p) * m == q * m + p * m;
    }
    ModUnique(q * m + a, m, q + p, a % m);
  }
}
