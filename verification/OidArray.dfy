/** How many arenas the array of lock words needs so that partly used arenas of
    other threads never make an allocation fail. */
module OidArray {
  import opened Common
  import opened Arithmetic
  import opened AlignUp
  import opened HeapArray

  /** Lock words in an arena, bytes in a lock word, and arenas kept in reserve. */
  const PER_ARENA: nat := 64
  const WORD_SIZE: nat := 8
  const RESERVE: nat := 128
  const ARENA_SIZE: nat := PER_ARENA * WORD_SIZE

  lemma ArenaSizeIsPower()
    ensures Pow2(9) == ARENA_SIZE
  {
    assert Pow2(3) == 8;
    assert Pow2(6) == 8 * Pow2(3);
    assert Pow2(9) == 8 * Pow2(6);
  }

  /** The number of arenas of a new array, on a machine with words of `w` bits. */
  function Arenas(w: nat, cap: nat): nat
    requires ARENA_SIZE <= Pow2(w)
  {
    Align(w, cap * WORD_SIZE + ARENA_SIZE * RESERVE, ARENA_SIZE) / ARENA_SIZE
  }

  /** Room for `cap` words beside the reserve, and not one arena more. */
  lemma ArenasSuffice(w: nat, cap: nat)
    requires 9 <= w && ARENA_SIZE <= Pow2(w)
    requires cap * WORD_SIZE + ARENA_SIZE * RESERVE + ARENA_SIZE - 1 < Pow2(w)
    ensures cap <= (Arenas(w, cap) - RESERVE) * PER_ARENA < cap + PER_ARENA
  {
    hide Pow2, Align;
    ArenaSizeIsPower();
    var size := cap * WORD_SIZE + ARENA_SIZE * RESERVE;
    AlignIsRound(w, size, 9);
    RoundUp(size, ARENA_SIZE);
  }

  /** The numbers from `lo` up to `lo + n`. */
  function Interval(lo: nat, n: nat): (s: set<nat>)
    ensures |s| == n
    ensures forall x: nat :: x in s <==> lo <= x < lo + n
  {
    if n == 0 then {} else Interval(lo, n - 1) + {lo + n - 1}
  }

  lemma SubsetSize<T>(a: set<T>, b: set<T>)
    requires a <= b
    ensures |a| <= |b|
  {
    assert |b| == |a| + |b - a| by { assert b == a + (b - a); }
  }

  /** The slot lies in the current arena of one of the threads. */
  ghost predicate Held(h: Heap, threads: set<nat>, s: nat)
    requires threads <= h.tls.Keys
  {
    exists t :: t in threads && Within(h.n, h.tls[t].arena, s)
  }

  function InOne(n: nat, arena: nat, slots: set<nat>): (r: set<nat>)
    ensures |r| <= n
  {
    var r := set s | s in slots && Within(n, arena, s);
    SubsetSize(r, Interval(arena * n, n));
    r
  }

  /** Slots that lie in the current arenas of some threads are at most as many as
      those arenas hold. */
  lemma {:induction false} ArenasHold(h: Heap, slots: set<nat>, threads: set<nat>)
    requires threads <= h.tls.Keys
    requires forall s | s in slots :: Held(h, threads, s)
    ensures |slots| <= |threads| * h.n
  {
    hide Within;
    if threads == {} {
      assert slots == {};
    } else {
      var t :| t in threads;
      var own := InOne(h.n, h.tls[t].arena, slots);
      forall s | s in slots - own
        ensures Held(h, threads - {t}, s)
      {
        assert Held(h, threads, s);
      }
      hide Held, InOne;
      ArenasHold(h, slots - own, threads - {t});
      Add(|threads - {t}|, h.n);
      assert |slots| <= |own| + |slots - own| by { assert slots <= own + (slots - own); SubsetSize(slots,
          own + (slots - own)); }
    }
  }

  lemma Add(k: nat, n: nat)
    ensures (k + 1) * n == k * n + n
  {}

  /** Nothing has been deleted. */
  ghost predicate NoneDeleted(h: Heap) {
    forall s | s in h.place :: !h.place[s].OnList?
  }

  /** When an allocation fails, all slots are live but for those left in the current
      arenas of the other threads. */
  lemma FailsOnlyWhenFull(h: Heap, t: nat)
    requires Inv(h) && NoneDeleted(h) && Appended(h, t).1 == None
    ensures h.arenas * h.n <= |LiveSet(h)| + |h.tls.Keys - {t}| * h.n
  {
    hide OwnLists, Listed, FreeArenas, NoneDeleted, Appended, Held, InRange, LiveSet;
    IdleHeld(h, t);
    ArenasHold(h, Idle(h), h.tls.Keys - {t});
    SlotCount(h);
  }

  function Idle(h: Heap): set<nat> {
    set s | s in h.place && h.place[s] != Live
  }

  lemma SlotCount(h: Heap)
    requires InRange(h)
    ensures h.arenas * h.n == |LiveSet(h)| + |Idle(h)|
  {
    var total := h.arenas * h.n;
    assert forall s: nat :: s in h.place <==> s < total;
    assert Interval(0, total) == LiveSet(h) + Idle(h);
    assert LiveSet(h) !! Idle(h);
  }

  lemma IdleHeld(h: Heap, t: nat)
    requires Inv(h) && NoneDeleted(h) && Appended(h, t).1 == None
    ensures forall s | s in h.place && h.place[s] != Live :: Held(h, h.tls.Keys - {t}, s)
  {
    AppendInv(h, t);
    hide Appended, FreeArenas, InRange;
    forall s | s in h.place && h.place[s] != Live
      ensures Held(h, h.tls.Keys - {t}, s)
    {
      assert PlaceOk(h, s, h.place[s]);
      var u := h.place[s].tid;
      var i :| 0 <= i < |h.tls[u].rest| && h.tls[u].rest[i] == s;
      assert u in h.tls.Keys - {t};
    }
  }

  function Threads(ops: seq<Op>): set<nat> {
    set i | 0 <= i < |ops| :: ops[i].tid
  }

  lemma AppendKeeps(h: Heap, t: nat)
    requires Inv(h) && NoneDeleted(h)
    ensures NoneDeleted(Appended(h, t).0)
    ensures Appended(h, t).0.tls.Keys <= h.tls.Keys + {t}
  {}

  lemma {:induction false} AppendOnly(run: seq<Heap>, ops: seq<Op>, rs: seq<Option<nat>>, k: nat)
    requires IsRun(run, ops, rs) && k < |run|
    requires forall i :: 0 <= i < |ops| ==> ops[i].Appending?
    ensures Inv(run[k]) && NoneDeleted(run[k])
    ensures |LiveSet(run[k])| <= k && run[k].tls.Keys <= Threads(ops)
  {
    hide Inv, NoneDeleted, New, LiveSet;
    RunInv(run, ops, rs, k);
    if k == 0 {
      NewIsEmpty(run[0].n, run[0].arenas);
    } else {
      AppendOnly(run, ops, rs, k - 1);
      assert Next(run[k - 1], run[k], ops[k - 1], rs[k - 1]);
      assert ops[k - 1].tid in Threads(ops);
      AppendKeeps(run[k - 1], ops[k - 1].tid);
      AppendInv(run[k - 1], ops[k - 1].tid);
    }
  }

  lemma NewIsEmpty(n: nat, arenas: nat)
    requires n > 0
    ensures NoneDeleted(New(n, arenas)) && LiveSet(New(n, arenas)) == {} && New(n, arenas).tls.Keys == {}
  {}

  /** An array made for `cap` words serves `cap` allocations, however they are
      split among up to 128 threads. */
  lemma ServesCapacity(w: nat, cap: nat, run: seq<Heap>, ops: seq<Op>, rs: seq<Option<nat>>, i: nat)
    requires 9 <= w && ARENA_SIZE <= Pow2(w)
    requires cap * WORD_SIZE + ARENA_SIZE * RESERVE + ARENA_SIZE - 1 < Pow2(w)
    requires IsRun(run, ops, rs) && run[0] == New(PER_ARENA, Arenas(w, cap))
    requires forall j :: 0 <= j < |ops| ==> ops[j].Appending?
    requires |Threads(ops)| <= RESERVE
    requires i < |ops| <= cap
    ensures rs[i].Some?
  {
    hide Inv, NoneDeleted, LiveSet, Threads, Pow2, Arenas;
    ArenasSuffice(w, cap);
    AppendOnly(run, ops, rs, i);
    RunInv(run, ops, rs, i);
    var t := ops[i].tid;
    var h := run[i];
    assert Next(h, run[i + 1], ops[i], rs[i]);
    if rs[i] == None {
      FailsOnlyWhenFull(h, t);
      ThreadIn(ops, i);
      SubsetSize(h.tls.Keys - {t}, Threads(ops) - {t});
    }
  }

  lemma ThreadIn(ops: seq<Op>, i: nat)
    requires i < |ops|
    ensures ops[i].tid in Threads(ops)
  {}
}
