/** Integer arithmetic as the C++ source performs it. */
module CInt {

  /** C's `/` on signed integers with a positive divisor: the quotient
      truncated toward zero (Dafny's own `/` rounds toward minus infinity). */
  function Quot(a: int, d: int): (q: int)
    requires d > 0
    ensures 0 <= a ==> 0 <= q && q * d <= a < q * d + d
    ensures a < 0 ==> q <= 0 && q * d - d < a <= q * d
  {
    if a >= 0 then a / d else -((-a) / d)
  }

  lemma LessThanOneMultiple(k: int, d: int)
    requires d > 0 && k * d < d
    ensures k < 1
  {
  }

  /** Truncating division never reverses the order of two dividends. */
  lemma {:induction false} QuotMonotone(a: int, b: int, d: int)
    requires d > 0 && a <= b
    ensures Quot(a, d) <= Quot(b, d)
  {
    var qa, qb := Quot(a, d), Quot(b, d);
    if a >= 0 || b < 0 {
      assert qa * d - qb * d < d;
      assert (qa - qb) * d == qa * d - qb * d;
      LessThanOneMultiple(qa - qb, d);
    }
  }

  /** An exact multiple divides back to its factor, whatever its sign. */
  lemma QuotOfMultiple(k: int, d: int)
    requires d > 0
    ensures Quot(k * d, d) == k
  {
    var q := Quot(k * d, d);
    assert (q - k) * d == q * d - k * d;
    LessThanOneMultiple(q - k, d);
    assert (k - q) * d == k * d - q * d;
    LessThanOneMultiple(k - q, d);
  }

  /** A product divides exactly by either factor. */
  lemma ExactDivision(f: int, n: int)
    requires f > 0
    ensures (f * n) % f == 0 && (f * n) / f == n
  {
    var q, r := (f * n) / f, (f * n) % f;
    assert f * n == f * q + r && 0 <= r < f;
    assert (n - q) * f == r;
    LessThanOneMultiple(n - q, f);
    assert (q - n) * f == -r;
    LessThanOneMultiple(q - n, f);
  }
}
