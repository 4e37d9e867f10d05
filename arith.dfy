/** Facts about Euclidean division by a positive divisor. */
module Arith {

  lemma ModOfMod(a: int, b: int, k: int)
    requires a >= 0 && b > 0 && k > 0
    ensures (a % (b * k)) % b == a % b
  {
    var q := a / (b * k);
    var r := a % (b * k);
    assert a == (b * k) * q + r;
    assert a == b * (k * q) + r;
    var q2 := r / b;
    var r2 := r % b;
    assert r == b * q2 + r2;
    assert a == b * (k * q + q2) + r2;
    DivModUnique(a, b, k * q + q2, r2);
  }

  lemma {:induction false} MulAtLeast(b: int, x: int)
    requires b > 0 && x >= 1
    ensures b * x >= b
    decreases x
  {
    if x > 1 {
      MulAtLeast(b, x - 1);
      assert b * x == b * (x - 1) + b;
    }
  }

  lemma DivModUnique(a: int, b: int, q: int, r: int)
    requires b > 0 && 0 <= r < b && a == b * q + r
    ensures a / b == q && a % b == r
  {
    var q0 := a / b;
    var r0 := a % b;
    assert a == b * q0 + r0;
    assert b * (q - q0) == r0 - r by {
      assert b * q - b * q0 == b * (q - q0);
    }
    if q > q0 {
      MulAtLeast(b, q - q0);
    } else if q < q0 {
      MulAtLeast(b, q0 - q);
    }
  }

  lemma DivDiv(a: int, b: int, c: int)
    requires b > 0 && c > 0
    ensures (a / b) / c == a / (b * c)
  {
    var q := a / b;
    var r := a % b;
    var q2 := q / c;
    var r2 := q % c;
    assert a == b * q + r;
    assert q == c * q2 + r2;
    MulDistributes(b, c * q2, r2);
    MulAssociates(b, c, q2);
    assert a == (b * c) * q2 + (b * r2 + r);
    MulMonotone(b, r2, c - 1);
    MulDistributes(b, c, -1);
    assert b * r2 + r < b * c;
    DivModUnique(a, b * c, q2, b * r2 + r);
  }

  lemma MulDistributes(a: int, x: int, y: int)
    ensures a * (x + y) == a * x + a * y
  {
  }

  lemma MulAssociates(a: int, b: int, c: int)
    ensures a * (b * c) == (a * b) * c
  {
  }

  lemma MulMonotone(a: int, x: int, y: int)
    requires a >= 0 && x <= y
    ensures a * x <= a * y
  {
  }
}
