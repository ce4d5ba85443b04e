/** Slots grouped into arenas. A thread claims whole arenas and gives out their
    slots; deleted slots go to the free list of the deleting thread. */
module HeapArray {
  import opened Common
  import opened Arithmetic
  import opened ArrayAllocator

  /** What one thread owns: the arena it works on, the slots of it that are left,
      and the slots it has been given back. */
  datatype Tls = Tls(arena: nat, rest: seq<nat>, free: seq<nat>)

  /** Where a slot is. */
  datatype Place = Live | InArena(tid: nat) | OnList(tid: nat) | Unclaimed(arena: nat)

  /** `place` records where every slot is; the program itself keeps only the lists. */
  datatype Heap = Heap(n: nat, arenas: nat, unclaimed: seq<nat>, tls: map<nat, Tls>, place: map<nat, Place>)

  /** The slots of an arena, in the order in which it gives them out. */
  function Slots(n: nat, arena: nat): (s: seq<nat>)
    ensures |s| == n
    ensures forall i :: 0 <= i < n ==> s[i] == arena * n + (n - 1 - i)
  {
    seq(n, i requires 0 <= i < n => arena * n + (n - 1 - i))
  }

  /** That is the order of the block allocator that the arena is. */
  lemma SlotsAreBlocks(n: nat, arena: nat, i: nat)
    requires i < n
    ensures Slots(n, arena)[i] == arena * n + Downward(n)[i]
  {}

  predicate Within(n: nat, arena: nat, slot: nat) {
    arena * n <= slot < arena * n + n
  }

  lemma InSlots(n: nat, arena: nat)
    ensures forall s: nat :: s in Slots(n, arena) <==> Within(n, arena, s)
  {
    forall s: nat | Within(n, arena, s)
      ensures s in Slots(n, arena)
    {
      assert Slots(n, arena)[arena * n + n - 1 - s] == s;
    }
  }

  function New(n: nat, arenas: nat): Heap
    requires n > 0
  {
    Heap(n, arenas, Downward(arenas), map[], map s: nat | 0 <= s < arenas * n :: Unclaimed(s / n))
  }

  /** The thread takes the next arena and drops the one it had. */
  function Claim(h: Heap, t: nat): Heap
    requires h.unclaimed != []
  {
    var a := h.unclaimed[0];
    var free := if t in h.tls then h.tls[t].free else [];
    h.(unclaimed := h.unclaimed[1..],
       tls := h.tls[t := Tls(a, Slots(h.n, a), free)],
       place := map s | s in h.place :: if Within(h.n, a, s) then InArena(t) else h.place[s])
  }

  predicate Has(h: Heap, t: nat) {
    t in h.tls && (h.tls[t].free != [] || h.tls[t].rest != [])
  }

  /** Pop the free list, or else the arena. */
  function Take(h: Heap, t: nat): (Heap, nat)
    requires Has(h, t)
  {
    var own := h.tls[t];
    if own.free != [] then
      (h.(tls := h.tls[t := own.(free := own.free[1..])], place := h.place[own.free[0] := Live]), own.free[0])
    else
      (h.(tls := h.tls[t := own.(rest := own.rest[1..])], place := h.place[own.rest[0] := Live]), own.rest[0])
  }

  /** The thread's record, made with a first arena when it has none. */
  function Enter(h: Heap, t: nat): Option<Heap> {
    if t in h.tls then Some(h)
    else if h.unclaimed == [] then None
    else Some(Claim(h, t))
  }

  function Appended(h: Heap, t: nat): (Heap, Option<nat>)
    requires h.n > 0
  {
    match Enter(h, t)
    case None => (h, None)
    case Some(e) =>
      if Has(e, t) then (Take(e, t).0, Some(Take(e, t).1))
      else if e.unclaimed == [] then (e, None)
      else (Take(Claim(e, t), t).0, Some(Take(Claim(e, t), t).1))
  }

  /** None is the panic of a thread that needs a first arena and gets none. */
  function Deleted(h: Heap, t: nat, slot: nat): Option<Heap> {
    match Enter(h, t)
    case None => None
    case Some(e) =>
      var own := e.tls[t];
      Some(e.(tls := e.tls[t := own.(free := [slot] + own.free)], place := e.place[slot := OnList(t)]))
  }

  /** Each list holds distinct slots, and exactly those whose place it is. */
  ghost predicate OwnLists(h: Heap) {
    && (forall t, i | t in h.tls && 0 <= i < |h.tls[t].rest| ::
          && h.tls[t].rest[i] in h.place && h.place[h.tls[t].rest[i]] == InArena(t)
          && Within(h.n, h.tls[t].arena, h.tls[t].rest[i]))
    && (forall t, i | t in h.tls && 0 <= i < |h.tls[t].free| ::
          h.tls[t].free[i] in h.place && h.place[h.tls[t].free[i]] == OnList(t))
    && (forall t, i, j | t in h.tls && 0 <= i < j < |h.tls[t].rest| :: h.tls[t].rest[i] != h.tls[t].rest[j])
    && (forall t, i, j | t in h.tls && 0 <= i < j < |h.tls[t].free| :: h.tls[t].free[i] != h.tls[t].free[j])
  }

  predicate PlaceOk(h: Heap, s: nat, p: Place) {
    match p
    case Live => true
    case InArena(t) => t in h.tls && s in h.tls[t].rest
    case OnList(t) => t in h.tls && s in h.tls[t].free
    case Unclaimed(a) => a in h.unclaimed && Within(h.n, a, s)
  }

  ghost predicate Listed(h: Heap) {
    forall s | s in h.place :: PlaceOk(h, s, h.place[s])
  }

  ghost predicate FreeArenas(h: Heap) {
    && (forall a, s: nat | a in h.unclaimed && Within(h.n, a, s) :: s in h.place && h.place[s] == Unclaimed(a))
    && (forall i, j | 0 <= i < j < |h.unclaimed| :: h.unclaimed[i] != h.unclaimed[j])
  }

  ghost predicate InRange(h: Heap) {
    h.n > 0 && forall s: nat :: s in h.place <==> s < h.arenas * h.n
  }

  /** The slots are partitioned: each has one place, and the lists agree with it. */
  ghost predicate Inv(h: Heap) {
    InRange(h) && OwnLists(h) && Listed(h) && FreeArenas(h)
  }

  lemma NewInv(n: nat, arenas: nat)
    requires n > 0
    ensures Inv(New(n, arenas))
  {
    var h := New(n, arenas);
    forall s | s in h.place
      ensures h.place[s].arena in h.unclaimed && Within(n, h.place[s].arena, s)
    {
      var a := s / n;
      assert s == n * a + s % n;
      ArenaInRange(n, arenas, a, s);
      assert h.unclaimed[arenas - 1 - a] == a;
    }
    forall a, s: nat | a in h.unclaimed && Within(n, a, s)
      ensures s in h.place && h.place[s] == Unclaimed(a)
    {
      SlotInRange(n, arenas, a, s);
      DivUnique(s, n, a, s - a * n);
    }
  }

  lemma ArenaInRange(n: nat, arenas: nat, a: nat, s: nat)
    requires a * n <= s < arenas * n
    ensures a < arenas
  {
    if a >= arenas { MulMonotone(arenas, a, n); }
  }

  lemma SlotInRange(n: nat, arenas: nat, a: nat, s: nat)
    requires a < arenas && s < a * n + n
    ensures s < arenas * n
  {
    MulMonotone(a + 1, arenas, n);
    assert (a + 1) * n == a * n + n;
  }

  lemma ClaimInv(h: Heap, t: nat)
    requires Inv(h) && h.unclaimed != []
    requires t in h.tls ==> h.tls[t].rest == []
    ensures Inv(Claim(h, t)) && Has(Claim(h, t), t)
  {
    var g := Claim(h, t);
    var a := h.unclaimed[0];
    assert a in h.unclaimed;
    ClaimOwn(h, t);
    ClaimListed(h, t);
    forall b, s: nat | b in g.unclaimed && Within(h.n, b, s)
      ensures s in g.place && g.place[s] == Unclaimed(b)
    {
      assert b in h.unclaimed && b != a;
      assert h.place[s] == Unclaimed(b);
    }
  }

  lemma ClaimOwn(h: Heap, t: nat)
    requires Inv(h) && h.unclaimed != []
    requires t in h.tls ==> h.tls[t].rest == []
    ensures OwnLists(Claim(h, t))
  {
    hide Listed, InRange;
    var a := h.unclaimed[0];
    assert a in h.unclaimed;
    forall s: nat | s in h.place && !h.place[s].Unclaimed?
      ensures !Within(h.n, a, s)
    {}
  }

  lemma ClaimListed(h: Heap, t: nat)
    requires Inv(h) && h.unclaimed != []
    requires t in h.tls ==> h.tls[t].rest == []
    ensures Listed(Claim(h, t))
  {
    var g := Claim(h, t);
    var a := h.unclaimed[0];
    assert a in h.unclaimed;
    forall s | s in g.place
      ensures PlaceOk(g, s, g.place[s])
    {
      if Within(h.n, a, s) {
        assert Slots(h.n, a)[a * h.n + h.n - 1 - s] == s;
      } else if h.place[s].Unclaimed? {
        assert h.place[s].arena in h.unclaimed && h.place[s].arena != a;
      }
    }
  }

  lemma TakeInv(h: Heap, t: nat)
    requires Inv(h) && Has(h, t)
    ensures Inv(Take(h, t).0)
    ensures Take(h, t).1 in h.place && h.place[Take(h, t).1] in {OnList(t), InArena(t)}
  {
    var x := Take(h, t).1;
    if h.tls[t].free != [] {
      assert h.tls[t].free[0] == x;
    } else {
      assert h.tls[t].rest[0] == x;
    }
    TakeOwn(h, t);
    TakeListed(h, t);
    TakeFree(h, t);
  }

  lemma TakeOwn(h: Heap, t: nat)
    requires Inv(h) && Has(h, t)
    ensures OwnLists(Take(h, t).0)
  {
    hide Listed, FreeArenas;
    var (g, x) := Take(h, t);
    forall u, i | u in g.tls && 0 <= i < |g.tls[u].rest|
      ensures g.tls[u].rest[i] in h.tls[u].rest && g.tls[u].rest[i] != x
    {}
    forall u, i | u in g.tls && 0 <= i < |g.tls[u].free|
      ensures g.tls[u].free[i] in h.tls[u].free && g.tls[u].free[i] != x
    {}
  }

  lemma TakeListed(h: Heap, t: nat)
    requires Inv(h) && Has(h, t)
    ensures Listed(Take(h, t).0)
  {
    hide FreeArenas, InRange;
    var own := h.tls[t];
    if own.free != [] {
      assert own.free == [own.free[0]] + own.free[1..];
    } else {
      assert own.rest == [own.rest[0]] + own.rest[1..];
    }
  }

  lemma TakeFree(h: Heap, t: nat)
    requires Inv(h) && Has(h, t)
    ensures FreeArenas(Take(h, t).0)
  {
    hide Listed, InRange;
    var x := Take(h, t).1;
    assert h.place[x] in {OnList(t), InArena(t)} by {
      assert x == if h.tls[t].free != [] then h.tls[t].free[0] else h.tls[t].rest[0];
    }
  }

  function LiveSet(h: Heap): set<nat> {
    set s | s in h.place && h.place[s] == Live
  }

  /** The slot given out was not live and is the only one that becomes live. The
      call fails exactly when the thread has nothing left and no arena is free. */
  lemma AppendInv(h: Heap, t: nat)
    requires Inv(h)
    ensures Inv(Appended(h, t).0) && Appended(h, t).0.n == h.n && Appended(h, t).0.arenas == h.arenas
    ensures Appended(h, t).1 == None <==> !Has(h, t) && h.unclaimed == []
    ensures Appended(h, t).1 == None ==> Appended(h, t).0 == h
    ensures Appended(h, t).1.Some? ==>
              && Appended(h, t).1.value !in LiveSet(h) && Appended(h, t).1.value < h.arenas * h.n
              && LiveSet(Appended(h, t).0) == LiveSet(h) + {Appended(h, t).1.value}
  {
    hide OwnLists, Listed;
    var e := if t in h.tls || h.unclaimed == [] then h else Claim(h, t);
    if t !in h.tls && h.unclaimed != [] { ClaimInv(h, t); ClaimLive(h, t); }
    if Has(e, t) {
      TakeInv(e, t);
    } else if t in e.tls && e.unclaimed != [] {
      ClaimInv(e, t);
      ClaimLive(e, t);
      TakeInv(Claim(e, t), t);
    }
  }

  lemma ClaimLive(h: Heap, t: nat)
    requires Inv(h) && h.unclaimed != []
    ensures LiveSet(Claim(h, t)) == LiveSet(h)
  {
    var a := h.unclaimed[0];
    assert a in h.unclaimed;
  }

  /** Deleting a live slot makes exactly this slot dead and loses no other. */
  lemma DeleteInv(h: Heap, t: nat, slot: nat)
    requires Inv(h) && slot in LiveSet(h)
    ensures Deleted(h, t, slot) == None <==> t !in h.tls && h.unclaimed == []
    ensures Deleted(h, t, slot).Some? ==>
              && Inv(Deleted(h, t, slot).value)
              && Deleted(h, t, slot).value.n == h.n && Deleted(h, t, slot).value.arenas == h.arenas
              && LiveSet(Deleted(h, t, slot).value) == LiveSet(h) - {slot}
  {
    if t !in h.tls && h.unclaimed != [] { ClaimInv(h, t); ClaimLive(h, t); }
    if Enter(h, t).Some? {
      PushInv(Enter(h, t).value, t, slot);
    }
  }

  lemma PushInv(e: Heap, t: nat, slot: nat)
    requires Inv(e) && t in e.tls && slot in LiveSet(e)
    ensures Deleted(e, t, slot).Some? && Inv(Deleted(e, t, slot).value)
  {
    var g := Deleted(e, t, slot).value;
    assert slot in g.tls[t].free;
    assert g.tls[t].free[0] == slot && g.tls[t].free[1..] == e.tls[t].free;
  }

  /** Appending right after deleting, by the same thread, gives the slot back. */
  lemma DeleteThenAppend(h: Heap, t: nat, slot: nat)
    requires Inv(h) && slot in LiveSet(h) && t in h.tls
    ensures Appended(Deleted(h, t, slot).value, t) == (h, Some(slot))
  {
    var g := Deleted(h, t, slot).value;
    var own := g.tls[t];
    assert own.free[1..] == h.tls[t].free;
    assert g.place[slot := Live] == h.place;
    assert own.(free := own.free[1..]) == h.tls[t];
    assert g.tls[t := h.tls[t]] == h.tls;
  }

  datatype Op = Appending(tid: nat) | Deleting(tid: nat, slot: nat)

  /** One call. A deletion names a live slot; it may panic and then changes nothing. */
  predicate Next(h: Heap, h': Heap, op: Op, r: Option<nat>) {
    match op
    case Appending(t) => h.n > 0 && (h', r) == Appended(h, t)
    case Deleting(t, slot) =>
      && slot in LiveSet(h) && r == None
      && h' == match Deleted(h, t, slot) case None => h case Some(g) => g
  }

  predicate IsRun(run: seq<Heap>, ops: seq<Op>, rs: seq<Option<nat>>) {
    && |run| == |ops| + 1 && |rs| == |ops|
    && run[0].n > 0 && run[0] == New(run[0].n, run[0].arenas)
    && forall i :: 0 <= i < |ops| ==> Next(run[i], run[i + 1], ops[i], rs[i])
  }

  lemma NextInv(h: Heap, h': Heap, op: Op, r: Option<nat>)
    requires Inv(h) && Next(h, h', op, r)
    ensures Inv(h') && h'.n == h.n && h'.arenas == h.arenas
    ensures r.Some? ==> r.value !in LiveSet(h) && LiveSet(h') == LiveSet(h) + {r.value}
    ensures forall x :: x in LiveSet(h) && (op.Deleting? ==> x != op.slot) ==> x in LiveSet(h')
  {
    hide Inv;
    match op
    case Appending(t) => AppendInv(h, t);
    case Deleting(t, slot) => DeleteInv(h, t, slot);
  }

  /** After any calls the slots are still partitioned. */
  lemma {:induction false} RunInv(run: seq<Heap>, ops: seq<Op>, rs: seq<Option<nat>>, k: nat)
    requires IsRun(run, ops, rs) && k < |run|
    ensures Inv(run[k]) && run[k].n == run[0].n && run[k].arenas == run[0].arenas
  {
    hide Inv, Next, New;
    if k == 0 {
      NewInv(run[0].n, run[0].arenas);
    } else {
      RunInv(run, ops, rs, k - 1);
      NextInv(run[k - 1], run[k], ops[k - 1], rs[k - 1]);
    }
  }

  lemma {:induction false} StaysLive(run: seq<Heap>, ops: seq<Op>, rs: seq<Option<nat>>, i: nat, j: nat, x: nat)
    requires IsRun(run, ops, rs) && i < j < |run| && rs[i] == Some(x)
    requires forall k :: i < k < j ==> !(ops[k].Deleting? && ops[k].slot == x)
    ensures x in LiveSet(run[j])
  {
    hide Inv, Next, New, LiveSet;
    RunInv(run, ops, rs, j - 1);
    NextInv(run[j - 1], run[j], ops[j - 1], rs[j - 1]);
    if i == j - 1 {
    } else {
      StaysLive(run, ops, rs, i, j - 1, x);
    }
  }

  /** Two calls return the same slot only if it was deleted in between. */
  lemma GivenOutOnce(run: seq<Heap>, ops: seq<Op>, rs: seq<Option<nat>>, i: nat, j: nat)
    requires IsRun(run, ops, rs) && i < j < |ops|
    requires rs[i].Some? && rs[j] == rs[i]
    ensures exists k :: i < k < j && ops[k].Deleting? && ops[k].slot == rs[i].value
  {
    hide Inv, Next, New, LiveSet;
    RunInv(run, ops, rs, j);
    NextInv(run[j], run[j + 1], ops[j], rs[j]);
    if forall k :: i < k < j ==> !(ops[k].Deleting? && ops[k].slot == rs[i].value) {
      StaysLive(run, ops, rs, i, j, rs[i].value);
    }
  }

  /** `append` and `delete` as the program runs them, on its two lists per thread. */
  class Array {
    const n: nat
    const arenas: nat
    var unclaimed: seq<nat>
    var tls: map<nat, Tls>
    ghost var place: map<nat, Place>

    ghost function View(): Heap
      reads this
    {
      Heap(n, arenas, unclaimed, tls, place)
    }

    constructor (n: nat, arenas: nat)
      requires n > 0
      ensures View() == New(n, arenas) && Inv(View())
    {
      this.n := n;
      this.arenas := arenas;
      unclaimed := Downward(arenas);
      tls := map[];
      place := New(n, arenas).place;
      NewInv(n, arenas);
    }

    /** The next arena as a fresh block allocator: its slots, and no others, go from
        unclaimed to the thread, and no slot becomes live or dead. */
    method NewArena(t: nat) returns (r: Option<(nat, seq<nat>)>)
      requires Inv(View())
      modifies this`unclaimed, this`place
      ensures r == None <==> old(unclaimed) == []
      ensures r == None ==> View() == old(View())
      ensures r.Some? ==>
                && r.value == (old(unclaimed)[0], Slots(n, old(unclaimed)[0]))
                && unclaimed == old(unclaimed)[1..]
                && place == Claim(old(View()), t).place
      ensures r.Some? ==>
                && (forall s: nat :: s in r.value.1 <==> Within(n, r.value.0, s))
                && (forall s: nat | s in r.value.1 ::
                      s in place && old(place)[s] == Unclaimed(r.value.0) && place[s] == InArena(t))
                && (forall s | s in place && s !in r.value.1 :: place[s] == old(place)[s])
      ensures LiveSet(View()) == LiveSet(old(View()))
    {
      if unclaimed == [] { return None; }
      ClaimLive(View(), t);
      InSlots(n, unclaimed[0]);
      assert unclaimed[0] in unclaimed;
      r := Some((unclaimed[0], Slots(n, unclaimed[0])));
      place := Claim(View(), t).place;
      unclaimed := unclaimed[1..];
    }

    method GetTlsAllocator(t: nat) returns (ok: bool)
      requires Inv(View())
      modifies this
      ensures ok <==> Enter(old(View()), t).Some?
      ensures View() == if ok then Enter(old(View()), t).value else old(View())
      ensures Inv(View()) && (ok ==> t in tls)
    {
      if t in tls { return true; }
      if unclaimed != [] { ClaimInv(View(), t); }
      var arena := NewArena(t);
      if arena == None { return false; }
      tls := tls[t := Tls(arena.value.0, arena.value.1, [])];
      return true;
    }

    method Append(t: nat) returns (r: Option<nat>)
      requires Inv(View())
      modifies this
      ensures Inv(View()) && (View(), r) == Appended(old(View()), t)
    {
      hide OwnLists, Listed, FreeArenas, LiveSet;
      AppendInv(View(), t);
      var ok := GetTlsAllocator(t);
      if !ok { return None; }
      while true
        invariant Inv(View()) && t in tls
        invariant Appended(View(), t) == Appended(old(View()), t)
        decreases |unclaimed|
      {
        var own := tls[t];
        if own.free != [] {
          place := place[own.free[0] := Live];
          tls := tls[t := own.(free := own.free[1..])];
          return Some(own.free[0]);
        }
        if own.rest != [] {
          place := place[own.rest[0] := Live];
          tls := tls[t := own.(rest := own.rest[1..])];
          return Some(own.rest[0]);
        }
        if unclaimed != [] { ClaimInv(View(), t); }
        var arena := NewArena(t);
        if arena == None { return None; }
        tls := tls[t := own.(arena := arena.value.0, rest := arena.value.1)];
      }
    }

    /** False stands for the panic of a thread that gets no arena. */
    method Delete(t: nat, slot: nat) returns (ok: bool)
      requires Inv(View()) && slot in LiveSet(View())
      modifies this
      ensures Inv(View())
      ensures ok <==> Deleted(old(View()), t, slot).Some?
      ensures View() == if ok then Deleted(old(View()), t, slot).value else old(View())
    {
      hide OwnLists, Listed, FreeArenas, InRange, LiveSet;
      DeleteInv(View(), t, slot);
      ok := GetTlsAllocator(t);
      if !ok { return; }
      tls := tls[t := tls[t].(free := [slot] + tls[t].free)];
      place := place[slot := OnList(t)];
    }
  }

  /** `ptr_to_index` keeps 32 bits of the distance. */
  function PtrToIndex(start: nat, size: nat, ptr: nat): nat
    requires size > 0 && start <= ptr
  {
    ((ptr - start) / size) % 0x1_0000_0000
  }

  function IndexToPtr(start: nat, size: nat, index: nat): nat {
    start + index * size
  }

  /** The two are inverse exactly on the indices that fit in 32 bits. */
  lemma IndexRoundTrip(start: nat, size: nat, index: nat)
    requires size > 0
    ensures IndexToPtr(start, size, index) >= start
    ensures PtrToIndex(start, size, IndexToPtr(start, size, index)) == index <==> index < 0x1_0000_0000
  {
    MulMonotone(0, index, size);
    Multiple(index, size);
  }

  /** The other way round: a slot's address comes back from its index. */
  lemma PtrRoundTrip(start: nat, size: nat, p: nat)
    requires size > 0 && start <= p && (p - start) % size == 0 && (p - start) / size < 0x1_0000_0000
    ensures IndexToPtr(start, size, PtrToIndex(start, size, p)) == p
  {
    assert p - start == size * ((p - start) / size);
  }

  /** The bytes of a slot are whole, within the memory, and its own: slots start at
      multiples of their size, end before the end, and do not overlap. */
  lemma SlotBytes(start: nat, size: nat, cap: nat, i: nat, j: nat)
    requires size > 0 && i < cap && j < cap
    ensures IndexToPtr(start, size, 0) == start
    ensures start <= IndexToPtr(start, size, i) && IndexToPtr(start, size, i) + size <= start + cap * size
    ensures (IndexToPtr(start, size, i) - start) % size == 0
    ensures i < j ==> IndexToPtr(start, size, i) + size <= IndexToPtr(start, size, j)
  {
    MulMonotone(0, i, size);
    Multiple(i, size);
    NextSlot(size, i, cap);
    if i < j { NextSlot(size, i, j); }
  }

  lemma NextSlot(size: nat, i: nat, j: nat)
    requires i < j
    ensures i * size + size <= j * size
  {
    MulMonotone(i + 1, j, size);
    assert (i + 1) * size == i * size + size;
  }
}
