/** Machine integers: unsigned words that wrap around. */
module Machine {
  type U16 = x: nat | x < 0x1_0000
  type U32 = x: nat | x < 0x1_0000_0000

  const TWO63: nat := 0x8000_0000_0000_0000
  const TWO64: nat := 0x1_0000_0000_0000_0000

  function Wrap(x: int): (r: nat)
    ensures r < TWO64
  {
    x % TWO64
  }

  /** A 64-bit word read as signed. */
  function Signed(x: nat): int
    requires x < TWO64
  {
    if x < TWO63 then x else x - TWO64
  }

  lemma WrapSmall(x: nat)
    requires x < TWO64
    ensures Wrap(x) == x
  {}

  lemma WrapAdd(x: nat, y: nat)
    ensures Wrap(Wrap(x) + y) == Wrap(x + y)
  {}
}
