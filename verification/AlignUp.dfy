/** `align_up`, which rounds with a bit mask, is rounding to a multiple. */
module AlignUp {
  import opened Arithmetic

  function Pow2(k: nat): (p: nat)
    ensures p > 0
  {
    if k == 0 then 1 else 2 * Pow2(k - 1)
  }

  /** Bitwise and of two numbers, bit by bit. */
  function And(x: nat, y: nat): nat {
    if x == 0 || y == 0 then 0 else (x % 2) * (y % 2) + 2 * And(x / 2, y / 2)
  }

  /** `(size + align - 1) & !(align - 1)` on words of `w` bits. */
  function Align(w: nat, size: nat, align: nat): nat
    requires 0 < align <= Pow2(w)
  {
    And(size + align - 1, Pow2(w) - 1 - (align - 1))
  }

  lemma {:induction false} Pow2Monotone(k: nat, w: nat)
    requires k <= w
    ensures Pow2(k) <= Pow2(w)
  {
    if k == w {
    } else {
      Pow2Monotone(k, w - 1);
    }
  }

  lemma {:induction false} AndOnes(x: nat, w: nat)
    requires x < Pow2(w)
    ensures And(x, Pow2(w) - 1) == x
  {
    if x == 0 {
    } else {
      assert (Pow2(w) - 1) % 2 == 1 && (Pow2(w) - 1) / 2 == Pow2(w - 1) - 1;
      AndOnes(x / 2, w - 1);
    }
  }

  /** Masking with the ones from bit `k` to bit `w - 1` clears the low `k` bits. */
  lemma {:induction false} AndHigh(x: nat, k: nat, w: nat)
    requires x < Pow2(w) && k <= w
    ensures Pow2(k) <= Pow2(w) && And(x, Pow2(w) - Pow2(k)) == x - x % Pow2(k)
  {
    Pow2Monotone(k, w);
    if k == 0 {
      AndOnes(x, w);
    } else {
      AndHigh(x / 2, k - 1, w - 1);
      AndEven(x, Pow2(w - 1) - Pow2(k - 1));
      HalfMod(x, Pow2(k - 1));
    }
  }

  lemma AndEven(x: nat, y: nat)
    ensures And(x, 2 * y) == 2 * And(x / 2, y)
  {}

  lemma HalfMod(x: nat, m: nat)
    requires m > 0
    ensures x % (2 * m) == 2 * ((x / 2) % m) + x % 2
  {
    var q, r := (x / 2) / m, (x / 2) % m;
    assert x / 2 == m * q + r;
    assert x == 2 * (x / 2) + x % 2;
    assert x == (2 * m) * q + (2 * r + x % 2) by {
      assert 2 * (m * q) == (2 * m) * q;
    }
    DivUnique(x, 2 * m, q, 2 * r + x % 2);
  }

  /** For every power of two, and as long as the sum does not overflow, `align_up`
      gives the least multiple that is not below `size`. */
  lemma AlignIsRound(w: nat, size: nat, k: nat)
    requires k <= w && Pow2(k) <= Pow2(w) && size + Pow2(k) - 1 < Pow2(w)
    ensures Align(w, size, Pow2(k)) == Round(size, Pow2(k))
    ensures size <= Align(w, size, Pow2(k)) && Align(w, size, Pow2(k)) % Pow2(k) == 0
    ensures forall y: nat :: size <= y && y % Pow2(k) == 0 ==> Align(w, size, Pow2(k)) <= y
  {
    hide Pow2;
    var a := Pow2(k);
    MaskIsRound(w, size, k);
    RoundUp(size, a);
    forall y: nat | size <= y && y % a == 0
      ensures Round(size, a) <= y
    {
      if y < Round(size, a) { RoundUnique(size, a, y); }
    }
  }

  lemma MaskIsRound(w: nat, size: nat, k: nat)
    requires k <= w && Pow2(k) <= Pow2(w) && size + Pow2(k) - 1 < Pow2(w)
    ensures Align(w, size, Pow2(k)) == Round(size, Pow2(k))
  {
    hide Pow2, And;
    var a := Pow2(k);
    var x := size + a - 1;
    AndHigh(x, k, w);
    assert x == a * (x / a) + x % a;
  }
}
