/** Facts about products, quotients and remainders. */
module Arith {
  lemma MulMono(a: int, b: int, c: nat)
    requires a <= b
    ensures a * c <= b * c
  {
  }

  lemma Multiple(w: nat, k: int)
    ensures k >= 1 ==> w * k >= w
    ensures k <= -1 ==> w * k <= -(w as int)
  {
  }

  /** Adding a multiple of w does not change the remainder. */
  lemma AddMultiple(x: int, k: int, w: nat)
    requires w > 0
    ensures (x + w * k) % w == x % w
  {
    var q, q1 := x / w, (x + w * k) / w;
    var r, r1 := x % w, (x + w * k) % w;
    assert r1 - r == w * (q + k - q1);
    Multiple(w, q + k - q1);
  }

  lemma Small(x: nat, w: nat)
    requires x < w
    ensures x % w == x
  {
  }

  /** The quotient is the only number with this property. */
  lemma DivIs(d: nat, p: nat, q: nat)
    requires p > 0 && q * p <= d < (q + 1) * p
    ensures d / p == q
  {
    var k := d / p;
    assert (k + 1) * p == k * p + p && (q + 1) * p == q * p + p;
    if k < q {
      MulMono(k + 1, q, p);
    } else if q < k {
      MulMono(q + 1, k, p);
    }
  }

  lemma DivStep(d: nat, p: nat)
    requires 0 < p <= d
    ensures d / p == (d - p) / p + 1
  {
    var q := (d - p) / p;
    assert (q + 1) * p == q * p + p && (q + 2) * p == q * p + p + p;
    DivIs(d, p, q + 1);
  }

  lemma DivMono(x: nat, y: nat, d: nat)
    requires d > 0 && x <= y
    ensures x / d <= y / d
  {
    assert (y / d + 1) * d == y / d * d + d;
    if y / d < x / d {
      MulMono(y / d + 1, x / d, d);
    }
  }

  lemma DivSmall(d: nat, p: nat)
    requires d < p
    ensures d / p == 0
  {
  }

  lemma DivLess(x: nat, d: nat)
    requires d > 0
    ensures 0 <= x / d <= x
  {
    MulMono(1, d, x / d);
  }

  lemma MultipleOf(d: nat, b: nat)
    requires d > 0
    ensures d * b >= 0 && (d * b) / d == b && (d * b) % d == 0
  {
    assert (b + 1) * d == d * b + d;
    DivIs(d * b, d, b);
  }
}
