/** Multiplication and division facts used by the address and team arithmetic. */
module Arith {

  lemma Distribute(a: int, b: int, c: int)
    ensures a * (b + c) == a * b + a * c
    ensures a * (b - c) == a * b - a * c
  {
  }

  lemma Associate(a: int, b: int, c: int)
    ensures (a * b) * c == a * (b * c)
  {
  }

  lemma Exchange(a: int, b: int, c: int)
    ensures (a * b) * c == (a * c) * b
  {
  }

  function TwoTo(k: nat): (p: nat)
    ensures p >= 1
  {
    if k == 0 then 1 else 2 * TwoTo(k - 1)
  }

  lemma {:induction false} MulAtLeast(b: int, x: int)
    requires b > 0 && x >= 0
    ensures b * x >= x
    decreases x
  {
    if x > 0 {
      MulAtLeast(b, x - 1);
      Distribute(b, x, 1);
    }
  }

  lemma MulStep(b: int, i: int, k: int)
    requires b > 0 && i < k
    ensures b * i + b <= b * k && b * i + (k - i) <= b * k
  {
    MulAtLeast(b, k - i - 1);
    Distribute(b, k - i, 1);
    Distribute(b, k, i);
  }

  lemma MulMonotone(b: int, i: int, k: int)
    requires b >= 0 && i <= k
    ensures b * i <= b * k
  {
    if b > 0 && i < k {
      MulStep(b, i, k);
    }
  }

  lemma MulOrder(b: int, i: int, k: int)
    requires b > 0 && b * i < b * k
    ensures i < k && b * i + b <= b * k
  {
    if k <= i {
      MulMonotone(b, k, i);
    } else {
      MulStep(b, i, k);
    }
  }

  lemma MulInjective(b: int, i: int, j: int)
    requires b > 0 && b * i == b * j
    ensures i == j
  {
    if i < j {
      MulStep(b, i, j);
    } else if j < i {
      MulStep(b, j, i);
    }
  }

  lemma Cancel(u: int, v: int, m: int, d: int, e: int)
    requires v > 0 && d == v * m && u * d == v * e
    ensures e == u * m
  {
    assert u * (v * m) == v * (u * m);
    MulInjective(v, u * m, e);
  }

  lemma MulPositive(b: int, m: int)
    requires b > 0 && b * m > 0
    ensures m >= 1 && b <= b * m
  {
    if m <= 0 {
      MulMonotone(b, m, 0);
    } else {
      MulMonotone(b, 1, m);
    }
  }

  /** Quotient and remainder are determined by the division equation. */
  lemma DivideUnique(a: int, b: int, q: int, r: int)
    requires b > 0 && a == b * q + r && 0 <= r < b
    ensures a / b == q && a % b == r
  {
    var q1, r1 := a / b, a % b;
    assert a == b * q1 + r1;
    if q < q1 {
      MulStep(b, q, q1);
    } else if q1 < q {
      MulStep(b, q1, q);
    }
  }

  function Gcd(a: nat, b: nat): (g: nat)
    requires a > 0
    ensures g > 0
    decreases b
  {
    if b == 0 then a else Gcd(b, a % b)
  }

  lemma Combine(a: int, b: int, q: int, r: int, x: int, y: int)
    requires a == b * q + r
    ensures a * y + b * (x - q * y) == b * x + r * y
  {
    Distribute(b, x, q * y);
    assert a * y == (b * q) * y + r * y;
    assert (b * q) * y == b * (q * y);
  }

  lemma Multiple(g: int, b: int, q: int, r: int, u: int, v: int)
    requires b == g * u && r == g * v
    ensures b * q + r == g * (u * q + v)
  {
    Distribute(g, u * q, v);
    assert (g * u) * q == g * (u * q);
  }

  /** The greatest common divisor divides both and is a combination of both. */
  lemma {:induction false} Bezout(a: nat, b: nat) returns (u: nat, v: nat, x: int, y: int)
    requires a > 0
    ensures a == Gcd(a, b) * u && b == Gcd(a, b) * v
    ensures a * x + b * y == Gcd(a, b)
    decreases b
  {
    if b == 0 {
      u, v, x, y := 1, 0, 1, 0;
    } else {
      var q, r := a / b, a % b;
      assert a == b * q + r;
      var u1, v1, x1, y1 := Bezout(b, r);
      Multiple(Gcd(b, r), b, q, r, u1, v1);
      Combine(a, b, q, r, x1, y1);
      MulMonotone(u1, 0, q);
      u, v, x, y := u1 * q + v1, u1, y1, x1 - q * y1;
    }
  }

  /** If u and v have no common factor, u * d == v * e forces v to divide d. */
  lemma Euclid(u: int, v: int, x: int, y: int, d: int, e: int) returns (m: int)
    requires u * x + v * y == 1 && u * d == v * e
    ensures d == v * m
  {
    m := x * e + y * d;
    calc {
      d;
      d * (u * x + v * y);
      { Distribute(d, u * x, v * y); }
      d * (u * x) + d * (v * y);
      { assert d * (u * x) == (u * d) * x; assert d * (v * y) == v * (y * d); }
      (v * e) * x + v * (y * d);
      { assert (v * e) * x == v * (x * e); Distribute(v, x * e, y * d); }
      v * m;
    }
  }
}
