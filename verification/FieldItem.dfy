/** The parametric schema over tuples of 8-byte columns: its loops over arrays,
    and the update queries that run on a tuple and on its cached item. */
module FieldItem {
  import opened Common
  import opened Columns

  /** A byte range of a tuple; both ends are 16-bit numbers. */
  datatype Field = Field(begin: nat, end: nat) {
    function Size(): int { end - begin }
  }

  const U16: nat := 0x1_0000

  /** `from_span` keeps the low 16 bits of both ends. */
  function FromSpan(begin: nat, end: nat): Field { Field(begin % U16, end % U16) }

  /** An 8-byte column within a tuple of `width` columns. */
  predicate Proper(f: Field, width: nat) {
    f.begin % 8 == 0 && f.end == f.begin + 8 && f.end < U16 && f.begin / 8 < width
  }

  /** The fields of a schema: distinct proper columns. */
  predicate WfFields(fields: seq<Field>, width: nat) {
    && (forall j :: 0 <= j < |fields| ==> Proper(fields[j], width))
    && (forall i, j :: 0 <= i < j < |fields| ==> fields[i] != fields[j])
  }

  function Col(f: Field): nat { f.begin / 8 }

  function ColsOf(fields: seq<Field>): seq<nat> {
    seq(|fields|, j requires 0 <= j < |fields| => Col(fields[j]))
  }

  /** Every cached column is written back. */
  function SchemaOf(fields: seq<Field>, width: nat): Schema {
    Schema(width, ColsOf(fields), UpTo(|fields|))
  }

  lemma ProperByColumn(f: Field, g: Field, width: nat)
    requires Proper(f, width) && Proper(g, width)
    ensures f == g <==> Col(f) == Col(g)
  {}

  lemma SchemaOfWf(fields: seq<Field>, width: nat)
    requires WfFields(fields, width)
    ensures WfSchema(SchemaOf(fields, width))
  {
    forall i, j | 0 <= i < j < |fields|
      ensures Col(fields[i]) != Col(fields[j])
    {
      ProperByColumn(fields[i], fields[j], width);
    }
  }

  /** `position`: a linear search, which finds exactly the cached position of the
      column. */
  method FindPosition(fields: seq<Field>, width: nat, field: Field) returns (p: Option<nat>)
    requires WfFields(fields, width) && Proper(field, width)
    ensures p == Position(ColsOf(fields), Col(field))
  {
    SchemaOfWf(fields, width);
    var k := SchemaOf(fields, width);
    for i := 0 to |fields|
      invariant forall j :: 0 <= j < i ==> fields[j] != field
    {
      if fields[i] == field {
        PositionOf(k, i);
        return Some(i);
      }
    }
    forall j | 0 <= j < |fields|
      ensures ColsOf(fields)[j] != Col(field)
    {
      ProperByColumn(fields[j], field, width);
    }
    return None;
  }

  /** `matches`: whether every field of the query is cached. */
  method MatchesQuery(fields: seq<Field>, width: nat, query: seq<Field>) returns (all: bool)
    requires WfFields(fields, width) && forall q | q in query :: Proper(q, width)
    ensures all == Matches(SchemaOf(fields, width), set q | q in query :: Col(q))
  {
    var k := SchemaOf(fields, width);
    for i := 0 to |query|
      invariant forall j :: 0 <= j < i ==> Position(k.fields, Col(query[j])).Some?
    {
      var p := FindPosition(fields, width, query[i]);
      if p.None? {
        assert Col(query[i]) in (set q | q in query :: Col(q));
        return false;
      }
    }
    return true;
  }

  method ToCachedLoop(fields: seq<Field>, tuple: array<int>) returns (cached: array<int>)
    requires WfFields(fields, tuple.Length)
    ensures fresh(cached)
    ensures WfSchema(SchemaOf(fields, tuple.Length))
    ensures cached[..] == ToCached(SchemaOf(fields, tuple.Length), tuple[..])
  {
    SchemaOfWf(fields, tuple.Length);
    cached := new int[|fields|](_ => 0);
    for i := 0 to |fields|
      invariant forall j :: 0 <= j < i ==> cached[j] == tuple[Col(fields[j])]
    {
      cached[i] := tuple[fields[i].begin / 8];
    }
  }

  /** Column `c` after the first `n` fields were written back. */
  function Written(fields: seq<Field>, width: nat, f: Cached, t: Tuple, n: nat, c: nat): int
    requires |f| == |fields| && |t| == width && c < width
  {
    var p := Position(ColsOf(fields), c);
    if p.Some? && p.value < n then f[p.value] else t[c]
  }

  method WriteBackLoop(fields: seq<Field>, cached: array<int>, tuple: array<int>)
    requires WfFields(fields, tuple.Length) && cached.Length == |fields| && cached != tuple
    modifies tuple
    ensures tuple[..] == WriteBack(SchemaOf(fields, tuple.Length), cached[..], old(tuple[..]))
  {
    hide Position;
    var width := tuple.Length;
    SchemaOfWf(fields, width);
    var k := SchemaOf(fields, width);
    ghost var t, f := tuple[..], cached[..];
    for i := 0 to |fields|
      invariant cached[..] == f
      invariant forall c :: 0 <= c < width ==> tuple[c] == Written(fields, width, f, t, i, c)
    {
      PositionOf(k, i);
      tuple[fields[i].begin / 8] := cached[i];
    }
    ghost var w := WriteBack(k, f, t);
    assert forall c :: 0 <= c < width ==> tuple[c] == w[c];
  }

  /** `to_cached_field` names the 8 bytes at which `to_cached` put the column. The
      16-bit casts lose nothing: there cannot be more distinct columns than 16-bit
      offsets. */
  function ToCachedField(fields: seq<Field>, field: Field): Option<Field> {
    var p := Position(ColsOf(fields), Col(field));
    if p.Some? then Some(FromSpan(p.value * 8, (p.value + 1) * 8)) else None
  }

  lemma CachedFieldAddresses(fields: seq<Field>, width: nat, field: Field, t: Tuple)
    requires WfFields(fields, width) && Proper(field, width) && |t| == width
    ensures ToCachedField(fields, field).Some? <==> field in fields
    ensures ToCachedField(fields, field).Some? ==>
              && WfSchema(SchemaOf(fields, width)) && Proper(ToCachedField(fields, field).value, |fields|)
              && ToCached(SchemaOf(fields, width), t)[Col(ToCachedField(fields, field).value)] == t[Col(field)]
  {
    hide Position;
    SchemaOfWf(fields, width);
    var k := SchemaOf(fields, width);
    var p := Position(k.fields, Col(field));
    if p.Some? {
      ProperByColumn(fields[p.value], field, width);
      FewFields(fields, width);
    }
    if field in fields {
      var j :| 0 <= j < |fields| && fields[j] == field;
      assert k.fields[j] == Col(field);
    }
  }

  lemma FewFields(fields: seq<Field>, width: nat)
    requires WfFields(fields, width)
    ensures |fields| < U16 / 8
  {
    SchemaOfWf(fields, width);
    DistinctBelow(ColsOf(fields), U16 / 8 - 1);
  }

  /** Distinct numbers below `n` are at most `n` many. */
  lemma {:induction false} DistinctBelow(s: seq<nat>, n: nat)
    requires forall i :: 0 <= i < |s| ==> s[i] < n
    requires forall i, j :: 0 <= i < j < |s| ==> s[i] != s[j]
    ensures |s| <= n
    decreases n
  {
    if s == [] {
    } else {
      assert s[0] < n;
      if n - 1 in s {
        var j :| 0 <= j < |s| && s[j] == n - 1;
        var rest := s[..j] + s[j + 1..];
        assert forall i :: 0 <= i < |rest| ==> rest[i] == if i < j then s[i] else s[i + 1];
        DistinctBelow(rest, n - 1);
      } else {
        DistinctBelow(s, n - 1);
      }
    }
  }

  // Update queries.

  /** `FieldsMeta::size`. */
  function SizeOf(fields: seq<Field>): int {
    if fields == [] then 0 else SizeOf(fields[..|fields| - 1]) + fields[|fields| - 1].Size()
  }

  lemma {:induction false} EightEach(fields: seq<Field>, n: nat)
    requires n <= |fields| && forall f | f in fields :: f.Size() == 8
    ensures SizeOf(fields[..n]) == 8 * n
  {
    if n == 0 {
    } else {
      EightEach(fields, n - 1);
      assert fields[..n][..n - 1] == fields[..n - 1];
    }
  }

  /** Walks over the fields of an update query and the values packed one after the
      other. */
  class UpdateIter {
    const fields: seq<Field>
    var curIdx: nat
    var ptrOff: int

    ghost predicate Valid()
      reads this
    {
      curIdx <= |fields| && ptrOff == SizeOf(fields[..curIdx])
    }

    constructor (fs: seq<Field>)
      ensures Valid() && fields == fs && curIdx == 0
    {
      fields, curIdx, ptrOff := fs, 0, 0;
    }

    /** The next field, with the packed offset of its value: the size of all the
        fields before it. */
    method Next() returns (item: Option<(Field, int)>)
      requires Valid()
      modifies this
      ensures Valid()
      ensures item.None? <==> old(curIdx) == |fields|
      ensures item.None? ==> curIdx == old(curIdx)
      ensures item.Some? ==> curIdx == old(curIdx) + 1
                             && item.value == (fields[old(curIdx)], SizeOf(fields[..old(curIdx)]))
    {
      if curIdx == |fields| { return None; }
      item := Some((fields[curIdx], ptrOff));
      ptrOff := ptrOff + fields[curIdx].Size();
      assert fields[..curIdx + 1][..curIdx] == fields[..curIdx];
      curIdx := curIdx + 1;
    }
  }

  /** One column update after the other. */
  function UpdateTuple(t: Tuple, q: seq<(nat, int)>): (u: Tuple)
    ensures |u| == |t|
  {
    if q == [] then t
    else
      var u := UpdateTuple(t, q[..|q| - 1]);
      var (c, v) := q[|q| - 1];
      if c < |u| then u[c := v] else u
  }

  /** The same on a cached item; columns that are not cached are skipped. */
  function UpdateItem(k: Schema, f: Cached, q: seq<(nat, int)>): (g: Cached)
    requires |f| == |k.fields|
    ensures |g| == |f|
  {
    if q == [] then f
    else
      var g := UpdateItem(k, f, q[..|q| - 1]);
      var (c, v) := q[|q| - 1];
      if Position(k.fields, c).Some? then g[Position(k.fields, c).value := v] else g
  }

  /** Updating the item and the tuple, then writing back, is writing back and then
      updating, for every query on columns of a schema that writes all its columns
      back. If all columns of the query are cached, the item alone is enough. */
  lemma {:induction false} UpdateCommutes(k: Schema, f: Cached, t: Tuple, q: seq<(nat, int)>)
    requires WfSchema(k) && |f| == |k.fields| && |t| == k.width && k.written == UpTo(|k.fields|)
    requires forall x | x in q :: x.0 < k.width
    ensures WriteBack(k, UpdateItem(k, f, q), UpdateTuple(t, q)) == UpdateTuple(WriteBack(k, f, t), q)
    ensures (forall x | x in q :: Position(k.fields, x.0).Some?) ==>
              WriteBack(k, UpdateItem(k, f, q), t) == UpdateTuple(WriteBack(k, f, t), q)
  {
    if q == [] {
    } else {
      var q0, c, v := q[..|q| - 1], q[|q| - 1].0, q[|q| - 1].1;
      UpdateCommutes(k, f, t, q0);
      OneUpdate(k, UpdateItem(k, f, q0), UpdateTuple(t, q0), c, v);
      OneUpdate(k, UpdateItem(k, f, q0), t, c, v);
    }
  }

  lemma OneUpdate(k: Schema, f: Cached, t: Tuple, c: nat, v: int)
    requires WfSchema(k) && |f| == |k.fields| && |t| == k.width && k.written == UpTo(|k.fields|) && c < k.width
    ensures var p := Position(k.fields, c);
            var g := if p.Some? then f[p.value := v] else f;
            && WriteBack(k, g, t[c := v]) == WriteBack(k, f, t)[c := v]
            && (p.Some? ==> WriteBack(k, g, t) == WriteBack(k, f, t)[c := v])
  {
    hide Position;
    var p := Position(k.fields, c);
    var g := if p.Some? then f[p.value := v] else f;
    forall d | 0 <= d < k.width
      ensures WriteBack(k, g, t[c := v])[d] == WriteBack(k, f, t)[c := v][d]
      ensures p.Some? ==> WriteBack(k, g, t)[d] == WriteBack(k, f, t)[c := v][d]
    {}
  }

  /** The column updates that a query of 8-byte fields with packed values means. */
  function Pairs(query: seq<Field>, data: seq<int>): seq<(nat, int)>
    requires |data| == |query|
  {
    seq(|query|, i requires 0 <= i < |query| => (Col(query[i]), data[i]))
  }

  /** No column is named twice. */
  predicate Apart(q: seq<(nat, int)>) {
    forall i, j :: 0 <= i < j < |q| ==> q[i].0 != q[j].0
  }

  /** Each named column gets its own value, and no other column changes. */
  lemma {:induction false} TupleUpdated(t: Tuple, q: seq<(nat, int)>, n: nat)
    requires n <= |q| && Apart(q) && forall x | x in q :: x.0 < |t|
    ensures forall i :: 0 <= i < n ==> UpdateTuple(t, q[..n])[q[i].0] == q[i].1
    ensures forall c :: 0 <= c < |t| && (forall i :: 0 <= i < n ==> q[i].0 != c) ==> UpdateTuple(t, q[..n])[c] == t[c]
  {
    if n == 0 {
    } else {
      TupleUpdated(t, q, n - 1);
      assert q[..n][..n - 1] == q[..n - 1] && q[n - 1] in q;
    }
  }

  /** The same on the item: the place of each cached column gets its value. */
  lemma {:induction false} ItemUpdated(k: Schema, f: Cached, q: seq<(nat, int)>, n: nat)
    requires WfSchema(k) && |f| == |k.fields| && n <= |q| && Apart(q)
    ensures forall i :: 0 <= i < n && Position(k.fields, q[i].0).Some? ==>
              UpdateItem(k, f, q[..n])[Position(k.fields, q[i].0).value] == q[i].1
    ensures forall j :: 0 <= j < |f| && (forall i :: 0 <= i < n ==> q[i].0 != k.fields[j]) ==>
              UpdateItem(k, f, q[..n])[j] == f[j]
  {
    hide Position;
    if n == 0 {
    } else {
      ItemUpdated(k, f, q, n - 1);
      assert q[..n][..n - 1] == q[..n - 1];
    }
  }

  /** After an update query with distinct fields the column of `query[i]` holds
      `data[i]`, in the tuple and, where it is cached, in the item. */
  lemma UpdateSetsColumns(fields: seq<Field>, query: seq<Field>, data: seq<int>, t: Tuple, f: Cached, i: nat)
    requires WfFields(fields, |t|) && |f| == |fields| && |data| == |query| && i < |query|
    requires forall g | g in query :: Proper(g, |t|)
    requires forall a, b :: 0 <= a < b < |query| ==> query[a] != query[b]
    ensures WfSchema(SchemaOf(fields, |t|)) && Col(query[i]) < |t|
    ensures UpdateTuple(t, Pairs(query, data))[Col(query[i])] == data[i]
    ensures forall j :: 0 <= j < |fields| && fields[j] == query[i] ==>
              UpdateItem(SchemaOf(fields, |t|), f, Pairs(query, data))[j] == data[i]
  {
    SchemaOfWf(fields, |t|);
    var q, k := Pairs(query, data), SchemaOf(fields, |t|);
    PairsApart(query, data, |t|);
    TupleUpdated(t, q, |q|);
    ItemUpdated(k, f, q, |q|);
    assert q[..|q|] == q && q[i] == (Col(query[i]), data[i]);
    forall j | 0 <= j < |fields| && fields[j] == query[i]
      ensures UpdateItem(k, f, q)[j] == data[i]
    {
      assert k.fields[j] == Col(query[i]);
      PositionOf(k, j);
    }
  }

  lemma PairsApart(query: seq<Field>, data: seq<int>, width: nat)
    requires |data| == |query| && forall g | g in query :: Proper(g, width)
    requires forall a, b :: 0 <= a < b < |query| ==> query[a] != query[b]
    ensures Apart(Pairs(query, data)) && forall x | x in Pairs(query, data) :: x.0 < width
  {
    var q := Pairs(query, data);
    forall a, b | 0 <= a < b < |q|
      ensures q[a].0 != q[b].0
    {
      ProperByColumn(query[a], query[b], width);
    }
    forall x | x in q
      ensures x.0 < width
    {
      var i :| 0 <= i < |q| && q[i] == x;
      assert query[i] in query;
    }
  }

  method UpdateTupleLoop(query: seq<Field>, data: seq<int>, tuple: array<int>)
    requires |data| == |query| && forall f | f in query :: Proper(f, tuple.Length)
    modifies tuple
    ensures tuple[..] == UpdateTuple(old(tuple[..]), Pairs(query, data))
  {
    var iter := new UpdateIter(query);
    ghost var t, q := tuple[..], Pairs(query, data);
    while iter.curIdx < |query|
      invariant iter.Valid() && iter.fields == query && fresh(iter)
      invariant tuple[..] == UpdateTuple(t, q[..iter.curIdx])
      decreases |query| - iter.curIdx
    {
      ghost var i := iter.curIdx;
      var item := iter.Next();
      EightEach(query, i);
      assert q[..i + 1][..i] == q[..i];
      assert Proper(query[i], tuple.Length);
      tuple[item.value.0.begin / 8] := data[item.value.1 / 8];
    }
    assert q[..|query|] == q;
  }

  method UpdateCachedLoop(fields: seq<Field>, width: nat, query: seq<Field>, data: seq<int>, cached: array<int>)
    requires WfFields(fields, width) && cached.Length == |fields|
    requires |data| == |query| && forall f | f in query :: Proper(f, width)
    modifies cached
    ensures cached[..] == UpdateItem(SchemaOf(fields, width), old(cached[..]), Pairs(query, data))
  {
    hide Position;
    var iter := new UpdateIter(query);
    ghost var k, f, q := SchemaOf(fields, width), cached[..], Pairs(query, data);
    while iter.curIdx < |query|
      invariant iter.Valid() && iter.fields == query && fresh(iter)
      invariant cached[..] == UpdateItem(k, f, q[..iter.curIdx])
      decreases |query| - iter.curIdx
    {
      ghost var i := iter.curIdx;
      var item := iter.Next();
      EightEach(query, i);
      assert q[..i + 1][..i] == q[..i];
      assert Proper(query[i], width);
      var p := FindPosition(fields, width, item.value.0);
      ghost var g := cached[..];
      if p.Some? {
        cached[p.value] := data[item.value.1 / 8];
        assert cached[..] == g[p.value := data[i]];
      }
    }
    assert q[..|query|] == q;
  }
}
