/** The column-subset schemas of the TPC-C tables, with the byte layout that their
    `to_cached_field` relies on. */
module TpccSchemas {
  import opened Arithmetic
  import opened Common
  import opened Columns
  import opened FieldItem

  type Positive = n: nat | n > 0 witness 1

  /** Size and alignment of a column type. */
  datatype ColType = ColType(size: Positive, align: Positive)

  /** C layout: the byte after column `n - 1`. */
  function End(cols: seq<ColType>, n: nat): nat
    requires n <= |cols|
    decreases n, 0
  {
    if n == 0 then 0 else Offset(cols, n - 1) + cols[n - 1].size
  }

  /** C layout: where column `c` starts. */
  function Offset(cols: seq<ColType>, c: nat): nat
    requires c < |cols|
    decreases c, 1
  {
    Round(End(cols, c), cols[c].align)
  }

  function FieldOf(cols: seq<ColType>, c: nat): Field
    requires c < |cols|
  {
    Field(Offset(cols, c), Offset(cols, c) + cols[c].size)
  }

  // The layout of a prefix and of a suffix.

  lemma {:induction false} Increasing(cols: seq<ColType>, c: nat, d: nat)
    requires c < d < |cols|
    ensures Offset(cols, c) + cols[c].size <= Offset(cols, d)
  {
    RoundUp(End(cols, d), cols[d].align);
    if c == d - 1 {
    } else {
      Increasing(cols, c, d - 1);
    }
  }

  /** Columns of a prefix are laid out as in the whole. */
  lemma {:induction false} PrefixLayout(cols: seq<ColType>, n: nat, c: nat)
    requires c < n <= |cols|
    ensures Offset(cols[..n], c) == Offset(cols, c)
  {
    if c == 0 {
    } else {
      PrefixLayout(cols, n, c - 1);
    }
  }

  /** Columns of a suffix that starts on a common alignment are laid out as in the
      whole, shifted to zero. */
  lemma {:induction false} SuffixLayout(cols: seq<ColType>, b: nat, c: nat)
    requires b <= c < |cols|
    requires forall i :: b <= i < |cols| ==> Offset(cols, b) % cols[i].align == 0
    ensures Offset(cols[b..], c - b) + Offset(cols, b) == Offset(cols, c)
  {
    hide Round;
    var base, rest := Offset(cols, b), cols[b..];
    if c == b {
      RoundUnique(0, cols[b].align, 0);
    } else {
      SuffixLayout(cols, b, c - 1);
      assert rest[c - b] == cols[c] && rest[c - b - 1] == cols[c - 1];
      assert End(rest, c - b) + base == End(cols, c);
      RoundShift(End(rest, c - b), cols[c].align, base);
    }
  }

  // Which bytes of a cached item hold a column.

  /** The column types of a cached item. */
  function CachedCols(cols: seq<ColType>, fields: seq<nat>): (cs: seq<ColType>)
    requires forall j :: 0 <= j < |fields| ==> fields[j] < |cols|
    ensures |cs| == |fields|
  {
    seq(|fields|, j requires 0 <= j < |fields| => cols[fields[j]])
  }

  /** The field of the cached item that `to_cached` fills from column `c`. */
  function Expected(cols: seq<ColType>, k: Schema, c: nat): Option<Field>
    requires k.width == |cols| && WfSchema(k)
  {
    var p := Position(k.fields, c);
    if p.Some? then Some(FieldOf(CachedCols(cols, k.fields), p.value)) else None
  }

  function Range(b: nat, e: nat): seq<nat>
    requires b <= e
  {
    seq(e - b, i requires 0 <= i < e - b => b + i)
  }

  /** The columns from `b` up to `e`, all written back. */
  function RangeSchema(width: nat, b: nat, e: nat): Schema
    requires b <= e
  {
    Schema(width, Range(b, e), UpTo(e - b))
  }

  lemma SameField(cols: seq<ColType>, c: nat, d: nat)
    requires c < |cols| && d < |cols|
    ensures FieldOf(cols, c) == FieldOf(cols, d) <==> c == d
    ensures Offset(cols, c) < Offset(cols, d) <==> c < d
  {
    if c < d { Increasing(cols, c, d); }
    if d < c { Increasing(cols, d, c); }
  }

  lemma RangePosition(width: nat, b: nat, e: nat, c: nat)
    requires b <= e <= width
    ensures WfSchema(RangeSchema(width, b, e))
    ensures Position(Range(b, e), c) == if b <= c < e then Some(c - b) else None
  {
    hide Position;
    var k := RangeSchema(width, b, e);
    if b <= c < e {
      PositionOf(k, c - b);
    }
  }

  /** `to_cached_field` of a schema that caches the columns before column `n`. */
  function PrefixField(cols: seq<ColType>, n: nat, f: Field): Option<Field>
    requires n < |cols|
  {
    if f.begin >= Offset(cols, n) then None else Some(f)
  }

  lemma PrefixAddresses(cols: seq<ColType>, n: nat, c: nat)
    requires n < |cols| && c < |cols|
    ensures WfSchema(RangeSchema(|cols|, 0, n))
    ensures PrefixField(cols, n, FieldOf(cols, c)) == Expected(cols, RangeSchema(|cols|, 0, n), c)
  {
    hide Position, Offset, WfSchema, UpTo;
    RangePosition(|cols|, 0, n, c);
    SameField(cols, c, n);
    if c < n {
      PrefixLayout(cols, n, c);
      assert CachedCols(cols, Range(0, n)) == cols[..n];
    }
  }

  /** `to_cached_field` of a schema that caches the columns from column `b`. */
  function SuffixField(cols: seq<ColType>, b: nat, f: Field): Option<Field>
    requires b < |cols| && f.begin <= f.end
  {
    var base := Offset(cols, b);
    if f.begin < base then None else Some(Field(f.begin - base, f.end - base))
  }

  lemma SuffixAddresses(cols: seq<ColType>, b: nat, c: nat)
    requires b < |cols| && c < |cols|
    requires forall i :: b <= i < |cols| ==> Offset(cols, b) % cols[i].align == 0
    ensures WfSchema(RangeSchema(|cols|, b, |cols|))
    ensures SuffixField(cols, b, FieldOf(cols, c)) == Expected(cols, RangeSchema(|cols|, b, |cols|), c)
  {
    hide Position, Offset, WfSchema, UpTo;
    RangePosition(|cols|, b, |cols|, c);
    SameField(cols, c, b);
    if c >= b {
      SuffixLayout(cols, b, c);
      assert CachedCols(cols, Range(b, |cols|)) == cols[b..];
    }
  }

  /** A schema that caches the columns before `n` and one later column `x`, and
      writes back only the positions `written`. */
  function ExtraSchema(width: nat, n: nat, x: nat, written: set<nat>): Schema {
    Schema(width, Range(0, n) + [x], written)
  }

  function ExtraField(cols: seq<ColType>, n: nat, x: nat, f: Field): Option<Field>
    requires n < |cols| && x < |cols|
  {
    if f == FieldOf(cols, x) then Some(FieldOf(CachedCols(cols, Range(0, n) + [x]), n))
    else if f.begin >= Offset(cols, n) then None else Some(f)
  }

  lemma ExtraAddresses(cols: seq<ColType>, n: nat, x: nat, written: set<nat>, c: nat)
    requires n <= x < |cols| && c < |cols|
    ensures WfSchema(ExtraSchema(|cols|, n, x, written))
    ensures ExtraField(cols, n, x, FieldOf(cols, c)) == Expected(cols, ExtraSchema(|cols|, n, x, written), c)
  {
    hide Position, Offset;
    var k := ExtraSchema(|cols|, n, x, written);
    assert WfSchema(k);
    SameField(cols, c, x);
    SameField(cols, c, n);
    var cached := CachedCols(cols, k.fields);
    if c == x {
      PositionOf(k, n);
    } else if c < n {
      PositionOf(k, c);
      PrefixLayout(cols, n, c);
      PrefixLayout(cached, n, c);
      assert cached[..n] == cols[..n];
    }
  }

  /** `to_cached_field` of a schema that lists its columns: a loop over their byte
      ranges, for whatever layout the compiler gives the cached struct. It answers
      with the place of exactly the column that `to_cached` copied there. */
  method ListedField(cols: seq<ColType>, k: Schema, layout: seq<Field>, c: nat) returns (r: Option<Field>)
    requires WfSchema(k) && k.width == |cols| && |layout| == |k.fields| && c < |cols|
    ensures r.Some? <==> c in k.fields
    ensures r.Some? ==> exists j :: 0 <= j < |layout| && k.fields[j] == c && r.value == layout[j]
    ensures r == match Position(k.fields, c) case None => None case Some(j) => Some(layout[j])
  {
    hide Offset;
    var i := 0;
    while i < |k.fields|
      invariant 0 <= i <= |k.fields|
      invariant c !in k.fields[..i]
    {
      SameField(cols, k.fields[i], c);
      if FieldOf(cols, k.fields[i]) == FieldOf(cols, c) {
        PositionOf(k, i);
        return Some(layout[i]);
      }
      i := i + 1;
    }
    assert k.fields[..i] == k.fields;
    return None;
  }

  /** `to_cached_field` of a schema that caches the whole tuple is the identity, which
      is right for every column. */
  lemma WholeAddresses(cols: seq<ColType>, c: nat)
    requires c < |cols|
    ensures WfSchema(Whole(|cols|)) && Expected(cols, Whole(|cols|), c) == Some(FieldOf(cols, c))
  {
    hide Position, Offset, WfSchema, UpTo;
    RangePosition(|cols|, 0, |cols|, c);
    assert CachedCols(cols, Range(0, |cols|)) == cols;
  }

  // The tables.

  const U64 := ColType(8, 8)
  const F64 := ColType(8, 8)
  const U32 := ColType(4, 4)

  function Str(n: Positive): ColType { ColType(n, 1) }

  const CUSTOMER: seq<ColType> := [
    U64, Str(20), Str(2), Str(16), Str(20), Str(20), Str(20), Str(2), U64, Str(16), U64, Str(2), F64, F64, F64, F64,
    U32, U32, U64, U64, Str(500)]

  const ITEM: seq<ColType> := [U64, U64, F64, Str(24), Str(50)]

  const ORDER: seq<ColType> := [U64, U64, U64, U64, U64, U64, U64, U64]

  const ORDER_LINE: seq<ColType> := [U64, U64, U64, U64, U64, U64, F64, U64, U64, Str(24)]

  const STOCK: seq<ColType> := [
    U64, U64, U64, U64, U64, U64, Str(24), Str(24), Str(24), Str(24), Str(24), Str(24), Str(24), Str(24), Str(24),
        Str(24),
    Str(24)]

  function WarehouseCached(): Schema { Schema(9, [8], UpTo(1)) }
  function DistrictCached(): Schema { Schema(11, [9], UpTo(1)) }
  function CustomerCachedWrite(): Schema { Schema(21, [14, 15, 16], UpTo(3)) }
  function CustomerCachedRead(): Schema { RangeSchema(21, 0, 18) }
  function ItemCached(): Schema { RangeSchema(5, 2, 5) }
  function OrderCached(): Schema { RangeSchema(8, 0, 4) }
  function OrderLineCached(): Schema { RangeSchema(10, 0, 7) }

  /** Seven leading columns and the last one; the two keys and `s_dist10` are not
      written back. */
  function StockCached(): Schema { ExtraSchema(17, 7, 16, {2, 3, 4, 5, 6}) }

  /** Caching the whole tuple. */
  function Whole(width: nat): Schema { RangeSchema(width, 0, width) }

  predicate WritesAllBack(k: Schema) { WfSchema(k) && k.written == UpTo(|k.fields|) }

  /** Every schema but that of the stock table writes all its columns back. */
  lemma SchemasWriteAllBack(width: nat)
    ensures WritesAllBack(WarehouseCached()) && WritesAllBack(DistrictCached())
    ensures WritesAllBack(CustomerCachedWrite()) && WritesAllBack(CustomerCachedRead())
    ensures WritesAllBack(ItemCached()) && WritesAllBack(OrderCached())
    ensures WritesAllBack(OrderLineCached()) && WritesAllBack(Whole(width))
  {}

  /** For those schemas an item survives write-back and caching again. */
  lemma ItemSurvives(k: Schema, f: Cached, t: Tuple)
    requires WritesAllBack(k) && |f| == |k.fields| && |t| == k.width
    ensures ToCached(k, WriteBack(k, f, t)) == f
  {
    ToCachedWriteBack(k, f, t);
  }

  lemma StockFrozen(f: Cached, t: Tuple)
    requires |f| == 8 && |t| == 17
    ensures WfSchema(StockCached())
    ensures Frozen(StockCached(), f, t) <==> f[0] == t[0] && f[1] == t[1] && f[7] == t[16]
  {
    var k := StockCached();
    assert k.fields[0] == 0 && k.fields[1] == 1 && k.fields[7] == 16;
    assert forall j: nat :: j < 8 && j !in k.written ==> j == 0 || j == 1 || j == 7;
  }

  /** For the stock table it survives exactly when its two keys and `s_dist10`
      are those of the tuple. */
  lemma StockItemSurvives(f: Cached, t: Tuple)
    requires |f| == 8 && |t| == 17
    ensures WfSchema(StockCached())
    ensures ToCached(StockCached(), WriteBack(StockCached(), f, t)) == f <==>
              f[0] == t[0] && f[1] == t[1] && f[7] == t[16]
  {
    hide ToCached, WriteBack, Frozen, WfSchema;
    StockFrozen(f, t);
    ToCachedWriteBack(StockCached(), f, t);
  }

  /** A write to a cached `s_dist10` is lost when the item is written back. */
  lemma StockDistLost(f: Cached, t: Tuple, v: int)
    requires |f| == 8 && |t| == 17 && WfSchema(StockCached()) && Frozen(StockCached(), f, t) && v != t[16]
    ensures WriteBack(StockCached(), f[7 := v], t)[16] == t[16] != v
    ensures WriteBack(StockCached(), f[7 := v], t) != WriteBack(StockCached(), f, t)[16 := v]
  {
    var k := StockCached();
    assert k.fields[7] == 16 && 7 !in k.written;
    hide StockCached, WfSchema;
    PositionOf(k, 7);
    SetCachedIsLogical(k, f, t, 7, v);
  }

  // `to_cached_field` of every table with a computed mapping addresses the column
  // that `to_cached` copied.

  lemma CustomerAddresses(c: nat)
    requires c < |CUSTOMER|
    ensures WfSchema(CustomerCachedRead())
    ensures PrefixField(CUSTOMER, 18, FieldOf(CUSTOMER, c)) == Expected(CUSTOMER, CustomerCachedRead(), c)
  {
    hide FieldOf, PrefixField, Expected, WfSchema;
    PrefixAddresses(CUSTOMER, 18, c);
  }

  lemma ItemAddresses(c: nat)
    requires c < |ITEM|
    ensures WfSchema(ItemCached())
    ensures SuffixField(ITEM, 2, FieldOf(ITEM, c)) == Expected(ITEM, ItemCached(), c)
  {
    hide SuffixField, Expected, WfSchema, Offset;
    ItemBase();
    SuffixAddresses(ITEM, 2, c);
  }

  lemma OrderAddresses(c: nat)
    requires c < |ORDER|
    ensures WfSchema(OrderCached())
    ensures PrefixField(ORDER, 4, FieldOf(ORDER, c)) == Expected(ORDER, OrderCached(), c)
  {
    hide FieldOf, PrefixField, Expected, WfSchema;
    PrefixAddresses(ORDER, 4, c);
  }

  lemma OrderLineAddresses(c: nat)
    requires c < |ORDER_LINE|
    ensures WfSchema(OrderLineCached())
    ensures PrefixField(ORDER_LINE, 7, FieldOf(ORDER_LINE, c)) == Expected(ORDER_LINE, OrderLineCached(), c)
  {
    hide FieldOf, PrefixField, Expected, WfSchema;
    PrefixAddresses(ORDER_LINE, 7, c);
  }

  lemma StockAddresses(c: nat)
    requires c < |STOCK|
    ensures WfSchema(StockCached())
    ensures ExtraField(STOCK, 7, 16, FieldOf(STOCK, c)) == Expected(STOCK, StockCached(), c)
  {
    hide FieldOf, ExtraField, Expected, WfSchema;
    ExtraAddresses(STOCK, 7, 16, {2, 3, 4, 5, 6}, c);
  }

  /** The cached part of an item starts on an 8-byte boundary. */
  lemma ItemBase()
    ensures Offset(ITEM, 2) == 16
  {
    hide Round;
    RoundUnique(0, 8, 0);
    RoundUnique(8, 8, 8);
    RoundUnique(16, 8, 16);
    assert Offset(ITEM, 0) == 0;
    assert Offset(ITEM, 1) == 8;
  }
}
