/** Facts about division by a variable, isolated from their uses. */
module Arithmetic {

  lemma SmallMultiple(a: int, d: int)
    requires a > 0 && -a < a * d < a
    ensures d == 0
  {
    if d >= 1 {
      MulGrows(a, d);
    } else if d <= -1 {
      MulGrows(a, -d);
    }
  }

  lemma {:induction false} MulGrows(a: int, d: int)
    requires a > 0 && d >= 1
    ensures a * d >= a
  {
    if d == 1 {
    } else {
      MulGrows(a, d - 1);
    }
  }

  lemma {:induction false} MulMonotone(a: nat, b: nat, n: nat)
    requires a <= b
    ensures a * n <= b * n
  {
    if a == b {
    } else {
      MulMonotone(a, b - 1, n);
      assert b * n == (b - 1) * n + n;
    }
  }

  /** A quotient and a remainder in range are the quotient and the remainder. */
  lemma DivUnique(x: nat, a: nat, q: nat, r: nat)
    requires a > 0 && x == a * q + r && r < a
    ensures x / a == q && x % a == r
  {
    assert x == a * (x / a) + x % a;
    assert a * (q - x / a) == x % a - r;
    SmallMultiple(a, q - x / a);
  }

  lemma Multiple(q: nat, a: nat)
    requires a > 0
    ensures (q * a) % a == 0 && (q * a) / a == q
  {
    DivUnique(q * a, a, q, 0);
  }

  /** The least multiple of `a` that is at least `x`. */
  function Round(x: nat, a: nat): nat
    requires a > 0
  {
    (x + a - 1) / a * a
  }

  lemma RoundUp(x: nat, a: nat)
    requires a > 0
    ensures x <= Round(x, a) < x + a && Round(x, a) % a == 0
  {
    var q := (x + a - 1) / a;
    assert x + a - 1 == a * q + (x + a - 1) % a;
    Multiple(q, a);
  }

  /** Rounding is the only multiple in its window. */
  lemma RoundUnique(x: nat, a: nat, y: nat)
    requires a > 0 && x <= y < x + a && y % a == 0
    ensures y == Round(x, a)
  {
    RoundUp(x, a);
    var z := Round(x, a);
    assert y == a * (y / a) && z == a * (z / a);
    var d := y / a - z / a;
    assert y - z == a * d;
    SmallMultiple(a, d);
  }

  lemma RoundShift(x: nat, a: nat, b: nat)
    requires a > 0 && b % a == 0
    ensures Round(x + b, a) == Round(x, a) + b
  {
    RoundUp(x, a);
    var z := Round(x, a);
    assert z == a * (z / a) && b == a * (b / a);
    Multiple(z / a + b / a, a);
    assert z + b == (z / a + b / a) * a;
    RoundUnique(x + b, a, z + b);
  }
}
