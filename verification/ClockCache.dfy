/** The cache as one thread runs it while no other thread acts: the clock probe
    with its second chance, promotion and insertion. */
module ClockCache {
  import opened Common
  import opened LockWord
  import opened Columns
  import opened Protocol

  // The clock hand.

  /** The slot visited by probe number `p` when the hand stands at `start`. */
  function Hand(start: nat, p: nat, n: nat): (i: nat)
    requires start < n
    ensures i < n
  {
    var before := if p == 0 then start else Hand(start, p - 1, n);
    if before + 1 == n then 0 else before + 1
  }

  lemma HandStep(start: nat, p: nat, n: nat)
    requires start < n
    ensures Hand(start, p, n) == Hand(if p == 0 then start else Hand(start, p - 1, n), 0, n)
  {}

  lemma {:induction false} HandShift(start: nat, p: nat, d: nat, n: nat)
    requires start < n && d <= n
    ensures var a := Hand(start, p, n); Hand(start, p + d, n) == if a + d < n then a + d else a + d - n
  {
    if d == 0 {
    } else {
      HandShift(start, p, d - 1, n);
    }
  }

  /** Probe `q` and the later probe `p` visit the same slot only a full lap apart. */
  lemma SameSlotLapsApart(start: nat, q: nat, p: nat, n: nat)
    requires start < n && q < p && Hand(start, q, n) == Hand(start, p, n)
    ensures p >= n
  {
    if p < q + n { HandShift(start, q, p - q, n); }
  }

  /** The hand reaches every slot within one lap. */
  lemma HandReaches(start: nat, i: nat, n: nat) returns (p: nat)
    requires start < n && i < n
    ensures p < n && Hand(start, p, n) == i
  {
    p := if i > start then i - start - 1 else i + n - start - 1;
    HandShift(start, 0, p, n);
  }

  predicate Seen(start: nat, p: nat, n: nat, i: nat)
    requires start < n
  {
    exists q :: 0 <= q < p && Hand(start, q, n) == i
  }

  /** Probe number `p` takes its slot: the slot is empty, or its record is
      unlocked and its reference bit is clear or was cleared a lap earlier. */
  predicate Takes(es: seq<Entry>, words: map<nat, Word>, start: nat, p: nat)
    requires start < |es|
  {
    var e := es[Hand(start, p, |es|)];
    e.rid == EMPTY || (e.rid in words && Free(words[e.rid]) && (!e.refd || p >= |es|))
  }

  /** The slots after `p` probes that took nothing: every visited one has lost
      its reference bit. */
  function Swept(es: seq<Entry>, start: nat, p: nat): (after: seq<Entry>)
    requires start < |es|
    ensures |after| == |es|
  {
    seq(|es|, i requires 0 <= i < |es| => if Seen(start, p, |es|, i) then es[i].(refd := false) else es[i])
  }

  // The bounds of the second chance.

  /** If every cached record is unlocked, `capacity + 1` probes always find a
      slot. */
  lemma AllUnlockedFindsSlot(es: seq<Entry>, words: map<nat, Word>, start: nat, probes: nat)
    requires start < |es| && probes >= |es| + 1
    requires forall i :: 0 <= i < |es| && es[i].rid != EMPTY ==> es[i].rid in words && Free(words[es[i].rid])
    ensures exists p :: 0 <= p < probes && Takes(es, words, start, p)
  {
    assert Takes(es, words, start, |es|);
  }

  /** If one slot is empty or its record is unlocked, `2 * capacity` probes always
      find a slot. */
  lemma OneUnlockedFindsSlot(es: seq<Entry>, words: map<nat, Word>, start: nat, probes: nat, i: nat)
    requires start < |es| && probes >= 2 * |es| && i < |es|
    requires es[i].rid == EMPTY || (es[i].rid in words && Free(words[es[i].rid]))
    ensures exists p :: 0 <= p < probes && Takes(es, words, start, p)
  {
    var p := HandReaches(start, i, |es|);
    HandShift(start, p, |es|, |es|);
    assert Takes(es, words, start, p + |es|);
  }

  /** The first bound is exact: in a full cache with every bit set and every
      record unlocked, a probe finds a slot if and only if it is longer than the
      capacity. */
  lemma AllSetNeedsALap(es: seq<Entry>, words: map<nat, Word>, start: nat, probes: nat)
    requires start < |es|
    requires forall i :: 0 <= i < |es| ==>
               es[i].rid != EMPTY && es[i].rid in words && Free(words[es[i].rid]) && es[i].refd
    ensures (exists p :: 0 <= p < probes && Takes(es, words, start, p)) <==> probes > |es|
  {
    if probes > |es| {
      AllUnlockedFindsSlot(es, words, start, probes);
    }
  }

  /** The second bound is exact: if the only usable slot is the one the hand
      stands on, with its bit set, a probe finds it if and only if it makes at
      least twice as many probes as there are slots. */
  lemma LastSlotNeedsTwoLaps(es: seq<Entry>, words: map<nat, Word>, start: nat, probes: nat)
    requires start < |es| && es[start].refd
    requires forall i :: 0 <= i < |es| ==> es[i].rid != EMPTY && es[i].rid in words && (Free(words[es[i].rid]) <==>
               i == start)
    ensures (exists p :: 0 <= p < probes && Takes(es, words, start, p)) <==> probes >= 2 * |es|
  {
    var n := |es|;
    if probes >= 2 * n {
      OneUnlockedFindsSlot(es, words, start, probes, start);
    } else {
      forall p | 0 <= p < probes
        ensures !Takes(es, words, start, p)
      {
        if p >= n {
          HandShift(start, 0, p - n, n);
          HandShift(start, p - n, n, n);
        }
      }
    }
  }

  // Words, slots and storage together.

  /** Words and slots agree, and unwritten cached columns agree with storage; the
      last may fail for the records in `except`, which are being inserted. */
  predicate Coherent(k: Schema, ws: map<nat, Word>, es: seq<Entry>, st: map<nat, Tuple>, except: set<nat>) {
    && WfSchema(k)
    && (forall i :: 0 <= i < |es| ==> |es[i].val| == |k.fields|)
    && (forall r | r in ws :: r in st && r < EMPTY)
    && (forall r | r in st :: |st[r]| == k.width)
    && (forall r | r in ws :: match ws[r].loc
          case AtSlot(i) => i < |es| && es[i].rid == r
          case AtRid(x) => x == r)
    && (forall i :: 0 <= i < |es| && es[i].rid != EMPTY ==> es[i].rid in ws && ws[es[i].rid].loc == AtSlot(i))
    && (forall r | r in ws && r !in except && ws[r].loc.AtSlot? :: Frozen(k, es[ws[r].loc.slot].val, st[r]))
  }

  lemma SchemaOk(k: Schema, ws: map<nat, Word>, es: seq<Entry>, st: map<nat, Tuple>, except: set<nat>)
    requires Coherent(k, ws, es, st, except)
    ensures WfSchema(k)
  {}

  /** The logical tuple of a record. */
  function TruthOf(k: Schema, ws: map<nat, Word>, es: seq<Entry>, st: map<nat, Tuple>, r: nat): Tuple
    requires r in ws && r in st && |st[r]| == k.width
    requires ws[r].loc.AtSlot? ==> ws[r].loc.slot < |es| && |es[ws[r].loc.slot].val| == |k.fields|
  {
    match ws[r].loc
    case AtSlot(i) => WriteBack(k, es[i].val, st[r])
    case AtRid(_) => st[r]
  }

  /** The logical contents. */
  function Contents(k: Schema, ws: map<nat, Word>, es: seq<Entry>, st: map<nat, Tuple>): map<nat, Tuple>
    requires Coherent(k, ws, es, st, {})
  {
    map r | r in ws :: TruthOf(k, ws, es, st, r)
  }

  /** The slots name the same records with the same columns. */
  predicate SameItems(es: seq<Entry>, es': seq<Entry>) {
    |es'| == |es| && forall i :: 0 <= i < |es| ==> es'[i].rid == es[i].rid && es'[i].val == es[i].val
  }

  lemma SweptSameItems(es: seq<Entry>, start: nat, p: nat)
    requires start < |es|
    ensures SameItems(es, Swept(es, start, p))
  {}

  lemma SameItemsCoherent(k: Schema, ws: map<nat, Word>, es: seq<Entry>, es': seq<Entry>, st: map<nat, Tuple>,
      x: set<nat>)
    requires Coherent(k, ws, es, st, x) && SameItems(es, es')
    ensures Coherent(k, ws, es', st, x)
  {}

  lemma SameItemsContents(k: Schema, ws: map<nat, Word>, es: seq<Entry>, es': seq<Entry>, st: map<nat, Tuple>)
    requires Coherent(k, ws, es, st, {}) && SameItems(es, es')
    ensures Coherent(k, ws, es', st, {}) && Contents(k, ws, es', st) == Contents(k, ws, es, st)
  {
    hide Frozen, WriteBack;
    SameItemsCoherent(k, ws, es, es', st, {});
  }

  /** The words and the storage after a node for `r` took slot `i`, the evicted
      entry was written back and its record unlocked. */
  function EndWords(ws: map<nat, Word>, r: nat, i: nat, evicted: Option<Entry>): map<nat, Word>
    requires r in ws
  {
    var out := Moved(ws, r, i, evicted);
    if evicted.Some? && evicted.value.rid in ws then out[evicted.value.rid := out[evicted.value.rid].(writer := false)]
    else out
  }

  function EndStorage(k: Schema, st: map<nat, Tuple>, evicted: Option<Entry>): map<nat, Tuple>
    requires evicted.Some? && evicted.value.rid in st ==>
               |evicted.value.val| == |k.fields| && |st[evicted.value.rid]| == k.width
  {
    if evicted.Some? && evicted.value.rid in st
    then st[evicted.value.rid := WriteBack(k, evicted.value.val, st[evicted.value.rid])] else st
  }

  /** Placing a node over slot `i` keeps words, slots and storage coherent. */
  lemma PlacedCoherent(k: Schema, ws: map<nat, Word>, es: seq<Entry>, st: map<nat, Tuple>, r: nat, node: Entry, i: nat,
                       evicted: Option<Entry>)
    requires Coherent(k, ws, es, st, {r}) && i < |es|
    requires r in ws && ws[r].loc == AtRid(r) && node.rid == r && |node.val| == |k.fields|
    requires evicted == if es[i].rid == EMPTY then None else Some(es[i])
    requires evicted.Some? ==> evicted.value.rid != r
    ensures Coherent(k, EndWords(ws, r, i, evicted), es[i := node], EndStorage(k, st, evicted), {r})
  {
    hide WriteBack, Frozen;
    var ws', es' := EndWords(ws, r, i, evicted), es[i := node];
    forall j | 0 <= j < |es'| && es'[j].rid != EMPTY
      ensures es'[j].rid in ws' && ws'[es'[j].rid].loc == AtSlot(j)
    {}
  }

  /** Every other record keeps its logical tuple: the victim's columns went from
      its slot to storage. */
  lemma PlacedTruth(k: Schema, ws: map<nat, Word>, es: seq<Entry>, st: map<nat, Tuple>, r: nat, node: Entry, i: nat,
                    evicted: Option<Entry>, q: nat)
    requires Coherent(k, ws, es, st, {r}) && i < |es|
    requires r in ws && ws[r].loc == AtRid(r) && node.rid == r && |node.val| == |k.fields|
    requires evicted == if es[i].rid == EMPTY then None else Some(es[i])
    requires evicted.Some? ==> evicted.value.rid != r
    requires q in ws && q != r
    ensures Coherent(k, EndWords(ws, r, i, evicted), es[i := node], EndStorage(k, st, evicted), {r})
    ensures TruthOf(k, EndWords(ws, r, i, evicted), es[i := node], EndStorage(k, st, evicted), q) ==
              TruthOf(k, ws, es, st, q)
  {
    hide WriteBack, Frozen;
    PlacedCoherent(k, ws, es, st, r, node, i, evicted);
  }

  /** The entry that probe `p` finds, its bit clear by then. */
  function Found(es: seq<Entry>, start: nat, p: nat): Option<Entry>
    requires start < |es|
  {
    var e := es[Hand(start, p, |es|)];
    if e.rid == EMPTY then None else Some(e.(refd := false))
  }

  /** A found entry belongs to another record than the one being placed, which was
      unlocked. */
  lemma FoundOther(k: Schema, ws: map<nat, Word>, es: seq<Entry>, st: map<nat, Tuple>, x: set<nat>, start: nat,
      p: nat, r: nat)
    requires Coherent(k, ws, es, st, x) && start < |es| && Takes(es, ws, start, p)
    requires r in ws && ws[r].loc == AtRid(r)
    ensures Found(es, start, p).Some? ==>
              var v := Found(es, start, p).value.rid; v in ws && v != r && Free(ws[v]) && v in st
    ensures var i := Hand(start, p, |es|);
            Found(es, start, p) == if Swept(es, start, p)[i].rid == EMPTY then None else Some(Swept(es, start, p)[i])
  {
    hide Hand, Seen, Frozen;
    SweptAt(es, start, p);
  }

  /** All locks, and the tuples of all records but `r`, are as before. */
  predicate Kept(k: Schema, ws: map<nat, Word>, es: seq<Entry>, st: map<nat, Tuple>,
                 ws': map<nat, Word>, es': seq<Entry>, st': map<nat, Tuple>, r: nat)
    requires Coherent(k, ws, es, st, {r}) && Coherent(k, ws', es', st', {r})
  {
    && ws'.Keys == ws.Keys
    && (forall q | q in ws :: ws'[q].writer == ws[q].writer && ws'[q].readers == ws[q].readers)
    && (forall q | q in ws && q != r :: TruthOf(k, ws', es', st', q) == TruthOf(k, ws, es, st, q))
  }

  predicate Evictable(k: Schema, ws: map<nat, Word>, st: map<nat, Tuple>, e: Entry, r: nat) {
    && e.rid in ws && e.rid in st && e.rid != r
    && |e.val| == |k.fields| && |st[e.rid]| == k.width
  }

  lemma EndLocks(ws: map<nat, Word>, r: nat, i: nat, v: Option<Entry>)
    requires r in ws && (v.Some? ==> v.value.rid in ws && v.value.rid != r && Free(ws[v.value.rid]))
    ensures var ws' := EndWords(ws, r, i, v);
            && ws'.Keys == ws.Keys && ws'[r].loc == AtSlot(i)
            && forall q | q in ws :: ws'[q].writer == ws[q].writer && ws'[q].readers == ws[q].readers
  {}

  /** A node for `r` taking the slot of probe `p`, up to the end of the write-back
      and whatever happens to reference bits, keeps the tuple of every other
      record and all locks. */
  lemma PlacementKeeps(k: Schema, ws: map<nat, Word>, es: seq<Entry>, st: map<nat, Tuple>, start: nat, p: nat,
                       node: Entry, es': seq<Entry>)
    requires var r := node.rid;
             Coherent(k, ws, es, st, {r}) && r in ws && ws[r].loc == AtRid(r) && |node.val| == |k.fields|
    requires start < |es| && Takes(es, ws, start, p)
    requires SameItems(Swept(es, start, p)[Hand(start, p, |es|) := node], es')
    ensures var r, i, v := node.rid, Hand(start, p, |es|), Found(es, start, p);
            && (v.Some? ==> Evictable(k, ws, st, v.value, r))
            && var ws', st' := EndWords(ws, r, i, v), EndStorage(k, st, v);
               && Coherent(k, ws', es', st', {r}) && Kept(k, ws, es, st, ws', es', st', r)
               && ws'[r].loc == AtSlot(i)
  {
    hide Hand, Seen, Swept, Frozen, WriteBack, Takes, EndWords, EndStorage, WfSchema;
    var r, i, v := node.rid, Hand(start, p, |es|), Found(es, start, p);
    FoundOther(k, ws, es, st, {r}, start, p, r);
    var m := Swept(es, start, p);
    SweptSameItems(es, start, p);
    SameItemsCoherent(k, ws, es, m, st, {r});
    PlacedCoherent(k, ws, m, st, r, node, i, v);
    var ws', st' := EndWords(ws, r, i, v), EndStorage(k, st, v);
    SameItemsCoherent(k, ws', m[i := node], es', st', {r});
    EndLocks(ws, r, i, v);
    forall q | q in ws && q != r
      ensures TruthOf(k, ws', es', st', q) == TruthOf(k, ws, es, st, q)
    {
      PlacedTruth(k, ws, m, st, r, node, i, v, q);
      SameItemsTruth(k, ws, es, m, st, q);
      SameItemsTruth(k, ws', m[i := node], es', st', q);
    }
  }

  lemma SameItemsTruth(k: Schema, ws: map<nat, Word>, es: seq<Entry>, es': seq<Entry>, st: map<nat, Tuple>, q: nat)
    requires q in ws && q in st && |st[q]| == k.width && SameItems(es, es')
    requires ws[q].loc.AtSlot? ==> ws[q].loc.slot < |es| && |es[ws[q].loc.slot].val| == |k.fields|
    ensures TruthOf(k, ws, es', st, q) == TruthOf(k, ws, es, st, q)
  {}

  /** Completing a placement with the tuple `t` that the node was made from: the
      record `r` logically holds `t`. */
  lemma PlacementHolds(k: Schema, ws: map<nat, Word>, es: seq<Entry>, st: map<nat, Tuple>, r: nat, t: Tuple)
    requires Coherent(k, ws, es, st, {r}) && r in ws && |t| == k.width
    requires ws[r].loc.AtSlot? ==> es[ws[r].loc.slot].val == ToCached(k, t)
    ensures Coherent(k, ws, es, st[r := t], {})
    ensures TruthOf(k, ws, es, st[r := t], r) == t
    ensures forall q | q in ws && q != r :: TruthOf(k, ws, es, st[r := t], q) == TruthOf(k, ws, es, st, q)
  {
    hide Frozen, WriteBack, ToCached, WfSchema;
    WriteBackToCached(k, t);
  }

  /** A promotion from storage keeps the logical contents and all locks. */
  lemma PromotionKeeps(k: Schema, ws: map<nat, Word>, es: seq<Entry>, st: map<nat, Tuple>, start: nat, p: nat,
                       node: Entry, es': seq<Entry>)
    requires var r := node.rid;
             Coherent(k, ws, es, st, {}) && r in ws && ws[r].loc == AtRid(r) && node.val == ToCached(k, st[r])
    requires start < |es| && Takes(es, ws, start, p)
    requires SameItems(Swept(es, start, p)[Hand(start, p, |es|) := node], es')
    ensures var r, i, v := node.rid, Hand(start, p, |es|), Found(es, start, p);
            && (v.Some? ==> Evictable(k, ws, st, v.value, r))
            && var ws', st' := EndWords(ws, r, i, v), EndStorage(k, st, v);
               && Coherent(k, ws', es', st', {}) && ws'.Keys == ws.Keys && ws'[r].loc == AtSlot(i)
               && Contents(k, ws', es', st') == Contents(k, ws, es, st)
               && forall q | q in ws :: ws'[q].writer == ws[q].writer && ws'[q].readers == ws[q].readers
  {
    hide Hand, Swept, Frozen, WriteBack, Takes, WfSchema, ToCached, EndWords;
    var r, i, v := node.rid, Hand(start, p, |es|), Found(es, start, p);
    PlaceOf(k, ws, es, st, r);
    PlacementKeeps(k, ws, es, st, start, p, node, es');
    var ws', st' := EndWords(ws, r, i, v), EndStorage(k, st, v);
    assert st'[r := st[r]] == st';
    hide EndStorage, Found;
    PlacementHolds(k, ws', es', st', r, st[r]);
    SameContents(k, ws, es, st, ws', es', st');
  }

  lemma SameContents(k: Schema, ws: map<nat, Word>, es: seq<Entry>, st: map<nat, Tuple>,
                     ws': map<nat, Word>, es': seq<Entry>, st': map<nat, Tuple>)
    requires Coherent(k, ws, es, st, {}) && Coherent(k, ws', es', st', {}) && ws'.Keys == ws.Keys
    requires forall q | q in ws :: TruthOf(k, ws', es', st', q) == TruthOf(k, ws, es, st, q)
    ensures Contents(k, ws', es', st') == Contents(k, ws, es, st)
  {
    hide Coherent, TruthOf;
  }

  // The cache.

  class Cache {
    const schema: Schema
    const probeLen: nat
    const entries: array<Entry>
    var hand: nat
    var words: map<nat, Word>
    var storage: map<nat, Tuple>

    ghost predicate ValidExcept(except: set<nat>)
      reads this, entries
    {
      hand < entries.Length && Coherent(schema, words, entries[..], storage, except)
    }

    constructor (k: Schema, capacity: nat, probes: nat, space: map<nat, Tuple>)
      requires WfSchema(k) && capacity > 0 && forall r | r in space :: |space[r]| == k.width
      ensures ValidExcept({}) && fresh(entries) && words == map[] && storage == space
      ensures schema == k && probeLen == probes && entries.Length == capacity
      ensures forall i :: 0 <= i < capacity ==> entries[i].rid == EMPTY
    {
      schema, probeLen, hand, words, storage := k, probes, 0, map[], space;
      entries := new Entry[capacity](_ => Entry(EMPTY, false, seq(|k.fields|, _ => 0)));
    }

    method AdvanceHand() returns (i: nat)
      requires hand < entries.Length
      modifies this`hand
      ensures i == hand == Hand(old(hand), 0, entries.Length)
    {
      i := (hand + 1) % entries.Length;
      hand := i;
    }

    /** Probe for a slot for `node`, whose record the caller has write locked.
        `lucky` is the outcome of the coin. Probe `p`, the first that can take a
        slot, gives it to the node, and the record's word points at it; an evicted
        entry has a clear reference bit, and its record is left write locked and
        uncached. Every slot visited before loses its reference bit; nothing else
        changes. */
    method ProbeAndReplace(node: Entry, lucky: bool)
      returns (placed: Option<nat>, evicted: Option<Entry>, ghost p: nat)
      requires ValidExcept({node.rid})
      requires node.rid in words && words[node.rid].writer && words[node.rid].loc == AtRid(node.rid)
      requires |node.val| == |schema.fields|
      modifies this`hand, this`words, entries
      ensures hand < entries.Length
      ensures placed.Some? <==>
              lucky && exists q :: 0 <= q < probeLen && Takes(old(entries[..]), old(words), old(hand), q)
      ensures placed.None? ==> evicted == None && words == old(words)
      ensures placed.None? ==>
                entries[..] == if lucky then Swept(old(entries[..]), old(hand), probeLen) else old(entries[..])
      ensures placed.Some? ==>
                && p < probeLen && FirstTake(old(entries[..]), old(words), old(hand), p)
                && placed.value == hand == Hand(old(hand), p, entries.Length)
                && entries[..] == Swept(old(entries[..]), old(hand), p)[hand := node]
                && words == Moved(old(words), node.rid, hand, evicted)
                && (var e := old(entries[..])[hand];
                    evicted == if e.rid == EMPTY then None else Some(e.(refd := false)))
    {
      hide Hand, Seen, Swept, Moved, Frozen, WfSchema, WriteBack;
      p := 0;
      if !lucky { return None, None, p; }
      ghost var es, ws, start := entries[..], words, hand;
      var k := 0;
      SweptZero(es, start);
      while k < probeLen
        invariant k == p <= probeLen && words == ws && |es| == entries.Length && start < |es|
        invariant hand == if k == 0 then start else Hand(start, k - 1, |es|)
        invariant entries[..] == Swept(es, start, k)
        invariant forall q :: 0 <= q < k ==> !Takes(es, ws, start, q)
      {
        var i := AdvanceHand();
        var e := entries[i];
        SweptAt(es, start, k);
        HandStep(start, k, |es|);
        assert i == Hand(start, k, |es|);
        assert e == if k >= |es| then es[i].(refd := false) else es[i];
        if e.rid == EMPTY {
          assert Takes(es, ws, start, k);
          words := Moved(words, node.rid, i, None);
          entries[i] := node;
          return Some(i), None, p;
        }
        if e.refd {
          entries[i] := e.(refd := false);
        } else if Free(words[e.rid]) {
          assert Takes(es, ws, start, k);
          words := Moved(words, node.rid, i, Some(e));
          entries[i] := node;
          return Some(i), Some(e), p;
        }
        SweptNext(es, start, k);
        k, p := k + 1, p + 1;
      }
      return None, None, p;
    }

    /** Write an evicted entry back to storage and drop its write guard. Caching the
        victim again gives exactly the evicted item, as long as its unwritten columns
        agree with storage. */
    method WriteBackEvicted(evicted: Option<Entry>)
      requires WfSchema(schema)
      requires evicted.Some? ==>
                 var v := evicted.value.rid;
                 v in words && v in storage && |evicted.value.val| == |schema.fields| && |storage[v]| == schema.width
      modifies this`words, this`storage
      ensures storage == EndStorage(schema, old(storage), evicted)
      ensures evicted.Some? ==>
                var v := evicted.value.rid;
                && v in storage && |storage[v]| == schema.width
                && (ToCached(schema, storage[v]) == evicted.value.val <==>
                    Frozen(schema, evicted.value.val, old(storage[v])))
      ensures words ==
              if evicted.Some? then
                var v := evicted.value.rid;
                old(words)[v := old(words)[v].(writer := false)]
              else old(words)
    {
      if evicted.Some? {
        var v := evicted.value.rid;
        ToCachedWriteBack(schema, evicted.value.val, storage[v]);
        storage := storage[v := WriteBack(schema, evicted.value.val, storage[v])];
        words := words[v := words[v].(writer := false)];
      }
    }

    /** `read_and_promote` on a record the caller has write locked: the logical
        contents and all locks stay as they are, and the result says where the
        record is now. A record that was cached stays where it is, its reference bit
        set if it is touched; a promoted one starts with the bit that touching gives. */
    method ReadAndPromote(r: nat, lucky: bool, touch: bool) returns (slot: Option<nat>)
      requires ValidExcept({}) && r in words && words[r].writer
      modifies this`hand, this`words, this`storage, entries
      ensures ValidExcept({}) && words.Keys == old(words.Keys)
      ensures Contents(schema, words, entries[..], storage)
              == Contents(schema, old(words), old(entries[..]), old(storage))
      ensures forall q | q in words :: words[q].writer == old(words)[q].writer &&
                words[q].readers == old(words)[q].readers
      ensures words[r].loc == if slot.Some? then AtSlot(slot.value) else AtRid(r)
      ensures old(words)[r].loc.AtSlot? ==> words == old(words) && storage == old(storage)
      ensures old(words)[r].loc.AtRid? ==>
                (slot.Some? <==>
                 lucky && exists q :: 0 <= q < probeLen && Takes(old(entries[..]), old(words), old(hand), q))
      ensures old(words)[r].loc.AtSlot? ==>
                var i := old(words)[r].loc.slot;
                && i < entries.Length && slot == Some(i)
                && entries[..] == old(entries[..])[i := old(entries[i]).(refd := old(entries[i]).refd || touch)]
      ensures old(words)[r].loc.AtRid? && slot.Some? ==>
                && slot.value < entries.Length && r in old(storage)
                && entries[slot.value].rid == r && entries[slot.value].refd == touch
    {
      hide Coherent, TruthOf, Takes, Swept, Hand, ToCached, WriteBack, Moved;
      ghost var ws, es, st, h := words, entries[..], storage, hand;
      PlaceOf(schema, ws, es, st, r);
      SchemaOk(schema, ws, es, st, {});
      if words[r].loc.AtSlot? {
        var i := words[r].loc.slot;
        if touch { entries[i] := entries[i].(refd := true); }
        SameItemsContents(schema, ws, es, entries[..], st);
        return Some(i);
      }
      if probeLen == 0 { return None; }
      var node := Entry(r, false, ToCached(schema, storage[r]));
      var placed, evicted, p := ProbeAndReplace(node, lucky);
      if placed.None? {
        if lucky { SweptSameItems(es, h, probeLen); }
        SameItemsContents(schema, ws, es, entries[..], st);
        return None;
      }
      var i := placed.value;
      if touch { entries[i] := node.(refd := true); }
      PromotionKeeps(schema, ws, es, st, h, p, node, entries[..]);
      MovedKeys(ws, r, i, evicted);
      WriteBackEvicted(evicted);
      return Some(i);
    }

    /** `insert`: the new record `r` logically holds `tuple`, cached exactly when the
        probe finds a slot, under the caller's write lock; every other record keeps its tuple and its locks. */
    method Insert(r: nat, tuple: Tuple)
      requires ValidExcept({}) && r !in words && r in storage && r < EMPTY && |tuple| == schema.width
      modifies this`hand, this`words, this`storage, entries
      ensures ValidExcept({}) && words.Keys == old(words.Keys) + {r}
      ensures words[r].writer && words[r].readers == 0
      ensures Contents(schema, words, entries[..], storage)
              == Contents(schema, old(words), old(entries[..]), old(storage))[r := tuple]
      ensures forall q | q in old(words) :: words[q].writer == old(words)[q].writer &&
                words[q].readers == old(words)[q].readers
      ensures words[r].loc.AtSlot? <==>
              exists q :: 0 <= q < probeLen && Takes(old(entries[..]), old(words), old(hand), q)
      ensures words[r].loc.AtSlot? ==>
                && words[r].loc.slot < entries.Length && WfSchema(schema)
                && entries[words[r].loc.slot] == Entry(r, false, ToCached(schema, tuple))
    {
      hide Coherent, TruthOf, Takes, Swept, Hand, ToCached, WriteBack, Moved;
      ghost var ws, es, st, h := words, entries[..], storage, hand;
      words := words[r := Word(true, 0, AtRid(r))];
      ghost var ws1 := words;
      AllocatedCoherent(schema, ws, es, st, r);
      SchemaOk(schema, ws, es, st, {});
      TakesSame(schema, ws, ws1, es, st, r, h, probeLen);
      var node := Entry(r, false, ToCached(schema, tuple));
      var placed, evicted, p := ProbeAndReplace(node, true);
      if placed.Some? {
        PlacementKeeps(schema, ws1, es, st, h, p, node, entries[..]);
        MovedKeys(ws1, r, placed.value, evicted);
        WriteBackEvicted(evicted);
      } else {
        SweptSameItems(es, h, probeLen);
        SweepKeeps(schema, ws1, es, entries[..], st, r);
      }
      ghost var st1 := storage;
      storage := storage[r := tuple];
      PlacementHolds(schema, words, entries[..], st1, r, tuple);
      InsertedContents(schema, ws, es, st, words, entries[..], storage, r, tuple);
    }
  }

  /** A new record is in no slot, so the probe finds what it would have found. */
  lemma TakesSame(k: Schema, ws: map<nat, Word>, ws': map<nat, Word>, es: seq<Entry>, st: map<nat, Tuple>, r: nat,
                  start: nat, probes: nat)
    requires Coherent(k, ws, es, st, {}) && r !in ws && start < |es| && ws' == ws[r := Word(true, 0, AtRid(r))]
    ensures (exists q :: 0 <= q < probes && Takes(es, ws', start, q)) <==>
            (exists q :: 0 <= q < probes && Takes(es, ws, start, q))
  {
    hide Frozen, Hand;
    forall q: nat
      ensures Takes(es, ws', start, q) <==> Takes(es, ws, start, q)
    {}
  }

  /** A freshly allocated record breaks nothing. */
  lemma AllocatedCoherent(k: Schema, ws: map<nat, Word>, es: seq<Entry>, st: map<nat, Tuple>, r: nat)
    requires Coherent(k, ws, es, st, {}) && r !in ws && r in st && r < EMPTY
    ensures var ws' := ws[r := Word(true, 0, AtRid(r))];
            && WfSchema(k) && Coherent(k, ws', es, st, {r})
            && forall q | q in ws :: TruthOf(k, ws', es, st, q) == TruthOf(k, ws, es, st, q)
  {
    hide Frozen, WriteBack;
  }

  lemma SweepKeeps(k: Schema, ws: map<nat, Word>, es: seq<Entry>, es': seq<Entry>, st: map<nat, Tuple>, r: nat)
    requires Coherent(k, ws, es, st, {r}) && SameItems(es, es')
    ensures Coherent(k, ws, es', st, {r}) && Kept(k, ws, es, st, ws, es', st, r)
  {
    hide Frozen, WriteBack;
    SameItemsCoherent(k, ws, es, es', st, {r});
  }

  lemma InsertedContents(k: Schema, ws: map<nat, Word>, es: seq<Entry>, st: map<nat, Tuple>,
                         ws': map<nat, Word>, es': seq<Entry>, st': map<nat, Tuple>, r: nat, t: Tuple)
    requires Coherent(k, ws, es, st, {}) && Coherent(k, ws', es', st', {})
    requires ws'.Keys == ws.Keys + {r} && TruthOf(k, ws', es', st', r) == t
    requires forall q | q in ws && q != r :: TruthOf(k, ws', es', st', q) == TruthOf(k, ws, es, st, q)
    ensures Contents(k, ws', es', st') == Contents(k, ws, es, st)[r := t]
  {
    hide TruthOf;
  }

  lemma PlaceOf(k: Schema, ws: map<nat, Word>, es: seq<Entry>, st: map<nat, Tuple>, r: nat)
    requires Coherent(k, ws, es, st, {}) && r in ws
    ensures WfSchema(k) && r in st && |st[r]| == k.width && Coherent(k, ws, es, st, {r})
    ensures ws[r].loc.AtSlot? ==> ws[r].loc.slot < |es|
    ensures ws[r].loc.AtRid? ==> ws[r].loc == AtRid(r)
  {}

  predicate FirstTake(es: seq<Entry>, ws: map<nat, Word>, start: nat, p: nat) {
    && start < |es| && Takes(es, ws, start, p)
    && forall q :: 0 <= q < p ==> !Takes(es, ws, start, q)
  }

  /** The words after `r` is placed in slot `i` and the victim is locked and sent
      back to its record id. */
  function Moved(ws: map<nat, Word>, r: nat, i: nat, evicted: Option<Entry>): map<nat, Word>
    requires r in ws
  {
    var out := if evicted.Some? && evicted.value.rid in ws
               then ws[evicted.value.rid := Word(true, 0, AtRid(evicted.value.rid))] else ws;
    out[r := out[r].(loc := AtSlot(i))]
  }

  lemma MovedKeys(ws: map<nat, Word>, r: nat, i: nat, evicted: Option<Entry>)
    requires r in ws
    ensures Moved(ws, r, i, evicted).Keys == ws.Keys
  {}

  lemma SweptZero(es: seq<Entry>, start: nat)
    requires start < |es|
    ensures Swept(es, start, 0) == es
  {}

  lemma SeenBefore(start: nat, p: nat, n: nat)
    requires start < n
    ensures Seen(start, p, n, Hand(start, p, n)) <==> p >= n
  {
    var i := Hand(start, p, n);
    if Seen(start, p, n, i) {
      var q :| 0 <= q < p && Hand(start, q, n) == i;
      SameSlotLapsApart(start, q, p, n);
    }
    if p >= n {
      HandShift(start, p - n, n, n);
      assert 0 <= p - n < p && Hand(start, p - n, n) == i;
    }
  }

  /** What probe `p` finds in its slot. */
  lemma SweptAt(es: seq<Entry>, start: nat, p: nat)
    requires start < |es|
    ensures var i := Hand(start, p, |es|);
            Swept(es, start, p)[i] == if p >= |es| then es[i].(refd := false) else es[i]
  {
    hide Hand, Seen;
    SeenBefore(start, p, |es|);
  }

  /** One more probe clears the bit of the slot it visits. */
  lemma SweptNext(es: seq<Entry>, start: nat, p: nat)
    requires start < |es|
    ensures var i := Hand(start, p, |es|);
            Swept(es, start, p + 1) == Swept(es, start, p)[i := es[i].(refd := false)]
  {
    var n := |es|;
    forall j | 0 <= j < n
      ensures Seen(start, p + 1, n, j) <==> Seen(start, p, n, j) || j == Hand(start, p, n)
    {
      if Seen(start, p, n, j) {
        var q :| 0 <= q < p && Hand(start, q, n) == j;
        assert 0 <= q < p + 1 && Hand(start, q, n) == j;
      }
      if j == Hand(start, p, n) { assert Seen(start, p + 1, n, j); }
    }
  }
}
