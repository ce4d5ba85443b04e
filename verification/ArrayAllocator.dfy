/** The block allocator used by one thread at a time: a free list threaded through
    the first word of every free block. */
module ArrayAllocator {
  import opened Common

  /** The null pointer. */
  const NULL: int := -1

  function HeadOf(free: seq<nat>): int {
    if free == [] then NULL else free[0]
  }

  /** The order in which a new allocator gives out its blocks: the last one first. */
  function Downward(n: nat): (s: seq<nat>)
    ensures |s| == n
    ensures forall i :: 0 <= i < n ==> s[i] == n - 1 - i
  {
    if n == 0 then [] else [n - 1] + Downward(n - 1)
  }

  ghost predicate Chain(next: seq<int>, head: int, free: seq<nat>) {
    && head == HeadOf(free)
    && (forall i :: 0 <= i < |free| ==> free[i] < |next|)
    && (forall i :: 0 <= i < |free| ==> next[free[i]] == HeadOf(free[i + 1..]))
    && (forall i, j :: 0 <= i < j < |free| ==> free[i] != free[j])
  }

  lemma ChainPop(next: seq<int>, head: int, free: seq<nat>)
    requires Chain(next, head, free) && free != []
    ensures Chain(next, next[free[0]], free[1..])
  {
    var rest := free[1..];
    forall i | 0 <= i < |rest|
      ensures next[rest[i]] == HeadOf(rest[i + 1..])
    {
      assert rest[i + 1..] == free[i + 2..];
      assert rest[i] == free[i + 1];
    }
  }

  lemma ChainPush(next: seq<int>, head: int, free: seq<nat>, b: nat)
    requires Chain(next, head, free) && b < |next| && b !in free
    ensures Chain(next[b := head], b, [b] + free)
  {
    var all := [b] + free;
    assert all[1..] == free;
    forall i | 0 <= i < |all|
      ensures next[b := head][all[i]] == HeadOf(all[i + 1..])
    {
      if i > 0 {
        assert all[i] == free[i - 1] && all[i + 1..] == free[i..];
      }
    }
  }

  class Allocator {
    /** The first word of every block. */
    const next: array<int>
    var head: int
    /** The free blocks in the order in which they will be given out. */
    ghost var free: seq<nat>

    ghost predicate Valid()
      reads this, next
    {
      Chain(next[..], head, free)
    }

    /** Whatever the memory holds, all blocks end up on the list. */
    constructor (memory: array<int>)
      modifies memory
      ensures Valid() && next == memory && free == Downward(memory.Length)
    {
      next := memory;
      head := NULL;
      free := [];
      new;
      var i := 0;
      while i < next.Length
        invariant 0 <= i <= next.Length
        invariant Valid() && free == Downward(i)
      {
        ChainPush(next[..], head, free, i);
        next[i] := head;
        head := i;
        free := [i] + free;
        i := i + 1;
      }
    }

    /** Out of memory exactly when nothing is free; otherwise the block on top. */
    method Alloc() returns (r: Option<nat>)
      requires Valid()
      modifies this
      ensures Valid()
      ensures r == None <==> old(free) == []
      ensures r == None ==> free == []
      ensures r.Some? ==> old(free) == [r.value] + free && r.value < next.Length && r.value !in free
    {
      if head < 0 { return None; }
      ChainPop(next[..], head, free);
      r := Some(head);
      head := next[head];
      free := free[1..];
    }

    /** A block that is out comes back on top, so the next `Alloc` returns it. */
    method Dealloc(block: nat)
      requires Valid() && block < next.Length && block !in free
      modifies this, next
      ensures Valid() && free == [block] + old(free)
      ensures forall i :: 0 <= i < next.Length && i != block ==> next[i] == old(next[i])
    {
      ChainPush(next[..], head, free, block);
      next[block] := head;
      head := block;
      free := [block] + free;
    }

    /** A client that fills a block it holds leaves the list as it was. */
    method Write(block: nat, value: int)
      requires Valid() && block < next.Length && block !in free
      modifies next
      ensures Valid() && free == old(free) && head == old(head)
    {
      next[block] := value;
    }
  }
}
