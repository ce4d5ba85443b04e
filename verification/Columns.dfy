/** Tuples, the columns of them that are cached, and the mapping between a full
    tuple and its cached item. */
module Columns {
  import opened Common

  type Tuple = seq<int>

  /** The cached item of a tuple: one value per cached column. */
  type Cached = seq<int>

  /** `fields[j]` is the tuple column held at position `j` of a cached item;
      `written` are the positions that `write_back` copies to the tuple. */
  datatype Schema = Schema(width: nat, fields: seq<nat>, written: set<nat>)

  /** The positions below `n`. */
  function UpTo(n: nat): (s: set<nat>)
    ensures forall j: nat :: j in s <==> j < n
  {
    if n == 0 then {} else UpTo(n - 1) + {n - 1}
  }

  predicate WfSchema(k: Schema) {
    && (forall j :: 0 <= j < |k.fields| ==> k.fields[j] < k.width)
    && (forall i, j :: 0 <= i < j < |k.fields| ==> k.fields[i] != k.fields[j])
  }

  /** The first position that holds column `c`. */
  function Position(fields: seq<nat>, c: nat): (p: Option<nat>)
    ensures p.Some? ==> p.value < |fields| && fields[p.value] == c
    ensures p.None? <==> c !in fields
  {
    if fields == [] then None
    else if fields[0] == c then Some(0)
    else
      var rest := Position(fields[1..], c);
      if rest.Some? then Some(rest.value + 1) else None
  }

  lemma PositionOf(k: Schema, j: nat)
    requires WfSchema(k) && j < |k.fields|
    ensures Position(k.fields, k.fields[j]) == Some(j)
  {}

  function ToCached(k: Schema, t: Tuple): (f: Cached)
    requires WfSchema(k) && |t| == k.width
    ensures |f| == |k.fields|
  {
    seq(|k.fields|, j requires 0 <= j < |k.fields| => t[k.fields[j]])
  }

  /** The position from which `write_back` fills column `c`, if it does. */
  function Source(k: Schema, c: nat): (p: Option<nat>)
    ensures p.Some? ==> p.value < |k.fields| && k.fields[p.value] == c && p.value in k.written
  {
    var p := Position(k.fields, c);
    if p.Some? && p.value in k.written then p else None
  }

  function WriteBack(k: Schema, f: Cached, t: Tuple): (u: Tuple)
    requires |f| == |k.fields| && |t| == k.width
    ensures |u| == k.width
  {
    seq(k.width, c requires 0 <= c < k.width => if Source(k, c).Some? then f[Source(k, c).value] else t[c])
  }

  /** The cached columns that are never written back agree with the tuple. */
  predicate Frozen(k: Schema, f: Cached, t: Tuple) {
    && |f| == |k.fields| && |t| == k.width && WfSchema(k)
    && forall j :: 0 <= j < |f| && j !in k.written ==> f[j] == t[k.fields[j]]
  }

  /** Columns that a client may change: all but the cached ones that are not
      written back. */
  predicate Writable(k: Schema, c: nat) {
    Position(k.fields, c).Some? ==> Position(k.fields, c).value in k.written
  }

  // The schema laws.

  /** Caching a tuple and writing it back changes nothing. */
  lemma WriteBackToCached(k: Schema, t: Tuple)
    requires WfSchema(k) && |t| == k.width
    ensures WriteBack(k, ToCached(k, t), t) == t
    ensures Frozen(k, ToCached(k, t), t)
  {}

  /** Writing an item back and caching again gives the item exactly when its
      unwritten columns already agree with the tuple. */
  lemma ToCachedWriteBack(k: Schema, f: Cached, t: Tuple)
    requires WfSchema(k) && |f| == |k.fields| && |t| == k.width
    ensures ToCached(k, WriteBack(k, f, t)) == f <==> Frozen(k, f, t)
  {
    var g := ToCached(k, WriteBack(k, f, t));
    forall j | 0 <= j < |f|
      ensures g[j] == if j in k.written then f[j] else t[k.fields[j]]
    {
      PositionOf(k, j);
    }
    if g == f {
      forall j | 0 <= j < |f| && j !in k.written
        ensures f[j] == t[k.fields[j]]
      {
        assert g[j] == f[j];
      }
    }
  }

  // Access through a query result, which holds a cached item, a tuple or both.

  predicate Matches(k: Schema, query: set<nat>) {
    forall c | c in query :: Position(k.fields, c).Some?
  }

  /** `get_value`: the cached column if there is one, else the column of the
      tuple; None is the failing `expect`. */
  function GetValue(k: Schema, field: Option<Cached>, tuple: Option<Tuple>, c: nat): Option<int>
    requires field.Some? ==> |field.value| == |k.fields|
    requires tuple.Some? ==> |tuple.value| == k.width
    requires c < k.width
  {
    var p := Position(k.fields, c);
    if p.Some? && field.Some? then Some(field.value[p.value])
    else if tuple.Some? then Some(tuple.value[c])
    else None
  }

  /** For every column of a query, a query result gives the column of the
      logical tuple, whether it holds the item, the tuple or both. */
  lemma GetValueIsLogical(k: Schema, f: Cached, t: Tuple, query: set<nat>, c: nat)
    requires Frozen(k, f, t) && c in query && c < k.width
    ensures Matches(k, query) ==> GetValue(k, Some(f), None, c) == Some(WriteBack(k, f, t)[c])
    ensures GetValue(k, Some(f), Some(t), c) == Some(WriteBack(k, f, t)[c])
    ensures GetValue(k, None, Some(t), c) == Some(t[c])
  {}

  /** A write into the cached item is a write to the logical tuple exactly when
      the column is written back or the write does not change that column. */
  lemma SetCachedIsLogical(k: Schema, f: Cached, t: Tuple, j: nat, v: int)
    requires Frozen(k, f, t) && j < |f|
    ensures WriteBack(k, f[j := v], t) == WriteBack(k, f, t)[k.fields[j] := v]
            <==> j in k.written || v == t[k.fields[j]]
    ensures j in k.written ==> Frozen(k, f[j := v], t)
  {
    PositionOf(k, j);
    var a, b := WriteBack(k, f[j := v], t), WriteBack(k, f, t)[k.fields[j] := v];
    forall c | 0 <= c < k.width && c != k.fields[j]
      ensures a[c] == b[c]
    {}
    if a == b {
      assert a[k.fields[j]] == v;
    }
  }

  /** A write to an uncached column of the tuple is a write to the logical
      tuple, whatever the cached item holds. */
  lemma SetTupleIsLogical(k: Schema, f: Cached, t: Tuple, c: nat, v: int)
    requires Frozen(k, f, t) && c < k.width && Position(k.fields, c).None?
    ensures WriteBack(k, f, t[c := v]) == WriteBack(k, f, t)[c := v]
    ensures Frozen(k, f, t[c := v])
  {
    var a, b := WriteBack(k, f, t[c := v]), WriteBack(k, f, t)[c := v];
    forall d | 0 <= d < k.width
      ensures a[d] == b[d]
    {}
  }
}
