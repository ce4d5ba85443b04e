/** The 64-bit keys of the TPC-C tables: several numbers shifted into one word, with
    wrap-around where they do not fit. */
module TpccKeys {
  import opened Machine
  import opened Arithmetic

  datatype OrderKey = OrderKey(w: nat, d: nat, c: nat, o: nat)

  datatype LineKey = LineKey(w: nat, d: nat, o: nat, item: nat)

  function PackDistrict(w: nat, d: nat): (r: nat)
    ensures r < TWO64
  {
    Wrap(w * 0x1_0000_0000_0000 + d)
  }

  function PackCustomer(w: nat, d: nat, c: nat): (r: nat)
    ensures r < TWO64
  {
    Wrap(w * 0x1_0000_0000_0000 + d * 0x1_0000_0000 + c)
  }

  function PackStock(w: nat, i: nat): nat { Wrap(w * 0x1_0000_0000 + i) }

  function PackOrder(k: OrderKey): (r: nat)
    ensures r < TWO64
  {
    Wrap(Packed(k.w, k.d, k.c, k.o))
  }

  /** The new-order index has the order number before the customer. */
  function PackNewOrder(k: OrderKey): (r: nat)
    ensures r < TWO64
  {
    Wrap(Packed(k.w, k.d, k.o, k.c))
  }

  function PackLine(k: LineKey): (r: nat)
    ensures r < TWO64
  {
    Wrap(k.w * 0x1_0000_0000_0000 + k.d * 0x100_0000_0000 + k.o * 0x10_0000 + k.item)
  }

  /** Four fields of 16 bits. */
  function Packed(a: nat, b: nat, c: nat, d: nat): nat {
    a * 0x1_0000_0000_0000 + b * 0x1_0000_0000 + c * 0x1_0000 + d
  }

  // Reading a key back.

  function UnpackOrder(n: nat): OrderKey {
    OrderKey(n / 0x1_0000_0000_0000, n / 0x1_0000_0000 % 0x1_0000, n / 0x1_0000 % 0x1_0000, n % 0x1_0000)
  }

  function UnpackNewOrder(n: nat): OrderKey {
    var k := UnpackOrder(n);
    OrderKey(k.w, k.d, k.o, k.c)
  }

  function UnpackLine(n: nat): LineKey {
    LineKey(n / 0x1_0000_0000_0000, n / 0x100_0000_0000 % 0x100, n / 0x10_0000 % 0x10_0000, n % 0x10_0000)
  }

  function UnpackDistrict(n: nat): (nat, nat) { (n / 0x1_0000_0000_0000, n % 0x1_0000_0000_0000) }

  function UnpackCustomer(n: nat): (nat, nat, nat) {
    (n / 0x1_0000_0000_0000, n / 0x1_0000_0000 % 0x1_0000, n % 0x1_0000_0000)
  }

  predicate DistrictFits(w: nat, d: nat) { w < 0x1_0000 && d < 0x1_0000_0000_0000 }

  predicate CustomerFits(w: nat, d: nat, c: nat) { w < 0x1_0000 && d < 0x1_0000 && c < 0x1_0000_0000 }

  predicate OrderFits(k: OrderKey) { k.w < 0x1_0000 && k.d < 0x1_0000 && k.c < 0x1_0000 && k.o < 0x1_0000 }

  predicate LineFits(k: LineKey) { k.w < 0x1_0000 && k.d < 0x100 && k.o < 0x10_0000 && k.item < 0x10_0000 }

  /** A field of `n`, with `lo` below it, `hi` above it, and `width` values. */
  lemma OneField(n: nat, place: nat, width: nat, hi: nat, x: nat, lo: nat)
    requires place > 0 && width > 0 && x < width && lo < place
    requires n == place * (width * hi + x) + lo
    ensures n / place == width * hi + x && n / place % width == x && n % place == lo
  {
    DivUnique(n, place, width * hi + x, lo);
    DivUnique(width * hi + x, width, hi, x);
  }

  lemma FourFields(a: nat, b: nat, c: nat, d: nat)
    requires a < 0x1_0000 && b < 0x1_0000 && c < 0x1_0000 && d < 0x1_0000
    ensures Wrap(Packed(a, b, c, d)) == Packed(a, b, c, d)
    ensures UnpackOrder(Packed(a, b, c, d)) == OrderKey(a, b, c, d)
  {
    var n := Packed(a, b, c, d);
    WrapSmall(n);
    hide Wrap;
    OneField(n, 0x1_0000_0000_0000, 0x1_0000, 0, a, b * 0x1_0000_0000 + c * 0x1_0000 + d);
    OneField(n, 0x1_0000_0000, 0x1_0000, a, b, c * 0x1_0000 + d);
    OneField(n, 0x1_0000, 0x1_0000, a * 0x1_0000 + b, c, d);
  }

  lemma UnpackedFits(n: nat)
    requires n < TWO64
    ensures OrderFits(UnpackOrder(n)) && OrderFits(UnpackNewOrder(n)) && LineFits(UnpackLine(n))
  {}

  /** An order key can be read back from its word exactly when every field is within
      its 16 bits. */
  lemma OrderKeyIff(k: OrderKey)
    ensures UnpackOrder(PackOrder(k)) == k <==> OrderFits(k)
    ensures UnpackNewOrder(PackNewOrder(k)) == k <==> OrderFits(k)
  {
    hide Wrap, UnpackOrder, Packed;
    UnpackedFits(PackOrder(k));
    UnpackedFits(PackNewOrder(k));
    if OrderFits(k) {
      FourFields(k.w, k.d, k.c, k.o);
      FourFields(k.w, k.d, k.o, k.c);
    }
  }

  lemma LineFields(k: LineKey)
    requires LineFits(k)
    ensures UnpackLine(PackLine(k)) == k
  {
    var n := k.w * 0x1_0000_0000_0000 + k.d * 0x100_0000_0000 + k.o * 0x10_0000 + k.item;
    WrapSmall(n);
    hide Wrap;
    OneField(n, 0x1_0000_0000_0000, 0x1_0000, 0, k.w, k.d * 0x100_0000_0000 + k.o * 0x10_0000 + k.item);
    OneField(n, 0x100_0000_0000, 0x100, k.w, k.d, k.o * 0x10_0000 + k.item);
    OneField(n, 0x10_0000, 0x10_0000, k.w * 0x100 + k.d, k.o, k.item);
  }

  /** A line key can be read back exactly when the warehouse fits in 16 bits, the
      district in 8, and order number and item in 20 each. */
  lemma LineKeyIff(k: LineKey)
    ensures UnpackLine(PackLine(k)) == k <==> LineFits(k)
  {
    hide UnpackLine, PackLine;
    UnpackedFits(PackLine(k));
    if LineFits(k) { LineFields(k); }
  }

  /** Keys that fit are packed alike only if they are the same; a key that does not
      fit shares its word with another key, which does. */
  lemma OrderKeysDistinct(k: OrderKey, l: OrderKey)
    ensures OrderFits(k) && OrderFits(l) ==> (PackOrder(k) == PackOrder(l) <==> k == l)
    ensures OrderFits(k) && OrderFits(l) ==> (PackNewOrder(k) == PackNewOrder(l) <==> k == l)
    ensures !OrderFits(k) ==>
              var x := UnpackOrder(PackOrder(k)); OrderFits(x) && x != k && PackOrder(x) == PackOrder(k)
  {
    hide UnpackOrder, UnpackNewOrder, PackOrder, PackNewOrder, OrderFits;
    OrderKeyIff(k);
    OrderKeyIff(l);
    UnpackedFits(PackOrder(k));
    PackUnpack(PackOrder(k));
  }

  lemma LineKeysDistinct(k: LineKey, l: LineKey)
    ensures LineFits(k) && LineFits(l) ==> (PackLine(k) == PackLine(l) <==> k == l)
  {
    hide UnpackLine, PackLine, LineFits;
    LineKeyIff(k);
    LineKeyIff(l);
  }

  lemma PackUnpack(n: nat)
    requires n < TWO64
    ensures PackOrder(UnpackOrder(n)) == n
  {
    var a := n / 0x1_0000;
    var b := a / 0x1_0000;
    assert b == n / 0x1_0000_0000 && b / 0x1_0000 == n / 0x1_0000_0000_0000;
    WrapSmall(n);
    hide Wrap;
  }

  /** From order number 65536 on, an order has the key of an earlier order of the
      next customer; a new-order key carries into the district in the same way, and
      a line key from 2^20 on. */
  lemma KeysCollide(w: nat, d: nat, c: nat, o: nat, item: nat)
    ensures o >= 0x1_0000 ==>
              && PackOrder(OrderKey(w, d, c, o)) == PackOrder(OrderKey(w, d, c + 1, o - 0x1_0000))
              && PackNewOrder(OrderKey(w, d, c, o)) == PackNewOrder(OrderKey(w, d + 1, c, o - 0x1_0000))
    ensures o >= 0x10_0000 ==> PackLine(LineKey(w, d, o, item)) == PackLine(LineKey(w, d + 1, o - 0x10_0000, item))
  {
    hide Wrap;
  }

  /** Within one order the word tells the items apart, whatever the other fields. */
  lemma SameOrderLines(w: nat, d: nat, o: nat, i: U32, j: U32)
    ensures PackLine(LineKey(w, d, o, i)) == PackLine(LineKey(w, d, o, j)) <==> i == j
  {
    WrapInjective(w * 0x1_0000_0000_0000 + d * 0x100_0000_0000 + o * 0x10_0000, i, j);
  }

  lemma WrapInjective(base: nat, i: U32, j: U32)
    ensures Wrap(base + i) == Wrap(base + j) <==> i == j
  {}

  /** A district key can be read back exactly when the warehouse fits in 16 bits and
      the district in 48. */
  lemma DistrictKeyIff(w: nat, d: nat)
    ensures UnpackDistrict(PackDistrict(w, d)) == (w, d) <==> DistrictFits(w, d)
  {
    if DistrictFits(w, d) {
      WrapSmall(w * 0x1_0000_0000_0000 + d);
      OneField(w * 0x1_0000_0000_0000 + d, 0x1_0000_0000_0000, 0x1_0000, 0, w, d);
    } else {
      DistrictInRange(PackDistrict(w, d));
    }
  }

  lemma DistrictInRange(n: nat)
    requires n < TWO64
    ensures UnpackDistrict(n).0 < 0x1_0000 && UnpackDistrict(n).1 < 0x1_0000_0000_0000
  {}

  /** A customer key can be read back exactly when warehouse and district fit in 16
      bits each and the customer in 32. */
  lemma CustomerKeyIff(w: nat, d: nat, c: nat)
    ensures UnpackCustomer(PackCustomer(w, d, c)) == (w, d, c) <==> CustomerFits(w, d, c)
  {
    if CustomerFits(w, d, c) { CustomerFields(w, d, c); }
  }

  lemma CustomerFields(w: nat, d: nat, c: nat)
    requires CustomerFits(w, d, c)
    ensures UnpackCustomer(PackCustomer(w, d, c)) == (w, d, c)
  {
    var n := w * 0x1_0000_0000_0000 + d * 0x1_0000_0000 + c;
    WrapSmall(n);
    hide Wrap, UnpackCustomer;
    CustomerUnpacked(n, w, d, c);
  }

  lemma CustomerUnpacked(n: nat, w: nat, d: nat, c: nat)
    requires CustomerFits(w, d, c) && n == w * 0x1_0000_0000_0000 + d * 0x1_0000_0000 + c
    ensures UnpackCustomer(n) == (w, d, c)
  {
    OneField(n, 0x1_0000_0000_0000, 0x1_0000, 0, w, d * 0x1_0000_0000 + c);
    OneField(n, 0x1_0000_0000, 0x1_0000, w, d, c);
  }

  /** Keys that fit tell districts and customers apart. */
  lemma DistrictKeysDistinct(w: nat, d: nat, v: nat, e: nat)
    requires DistrictFits(w, d) && DistrictFits(v, e)
    ensures PackDistrict(w, d) == PackDistrict(v, e) <==> w == v && d == e
  {
    hide PackDistrict, UnpackDistrict, DistrictFits;
    DistrictKeyIff(w, d);
    DistrictKeyIff(v, e);
  }

  lemma CustomerKeysDistinct(w: nat, d: nat, c: nat, v: nat, e: nat, b: nat)
    requires CustomerFits(w, d, c) && CustomerFits(v, e, b)
    ensures PackCustomer(w, d, c) == PackCustomer(v, e, b) <==> w == v && d == e && c == b
  {
    hide PackCustomer, UnpackCustomer, CustomerFits;
    CustomerKeyIff(w, d, c);
    CustomerKeyIff(v, e, b);
  }

  /** A 16-bit warehouse and a 32-bit item always fit. */
  lemma StockKeysDistinct(w: U16, i: U32, v: U16, j: U32)
    ensures PackStock(w, i) == PackStock(v, j) <==> w == v && i == j
  {
    WrapSmall(w * 0x1_0000_0000 + i);
    WrapSmall(v * 0x1_0000_0000 + j);
    hide Wrap;
  }
}
