/** Two log buffers used as a ring, with appends running between the steps of the
    one flushing thread. */
module LogRing {
  import opened Arithmetic

  type Byte = x: int | 0 <= x < 256

  const MAX_LOG_LEN: nat := 512

  /** The place of a log position in the two buffers laid side by side. */
  function Slot(size: nat, p: nat): (s: nat)
    requires size > 0
    ensures s < 2 * size
  {
    if p < 2 * size then p else Slot(size, p - 2 * size)
  }

  /** The same place as the program computes it: which buffer, and where in it. */
  function BufferId(size: nat, p: nat): nat
    requires size > 0
  {
    (p / size) % 2
  }

  lemma TwoOn(size: nat, q: nat)
    requires size > 0
    ensures (q + 2 * size) / size == q / size + 2 && (q + 2 * size) % size == q % size
  {
    assert q == size * (q / size) + q % size;
    DivUnique(q + 2 * size, size, q / size + 2, q % size);
  }

  lemma {:induction false} Address(size: nat, p: nat)
    requires size > 0
    ensures Slot(size, p) == (if BufferId(size, p) == 0 then 0 else size) + p % size
  {
    if p < size {
      DivUnique(p, size, 0, p);
    } else if p < 2 * size {
      DivUnique(p, size, 1, p - size);
    } else {
      var q := p - 2 * size;
      Address(size, q);
      TwoOn(size, q);
    }
  }

  lemma {:induction false} SlotShift(size: nat, p: nat, i: nat)
    requires size > 0 && Slot(size, p) + i < 2 * size
    ensures Slot(size, p + i) == Slot(size, p) + i
  {
    if p >= 2 * size { SlotShift(size, p - 2 * size, i); }
  }

  lemma {:induction false} SlotDistinct(size: nat, p: nat, q: nat)
    requires size > 0 && p < q < p + 2 * size
    ensures Slot(size, p) != Slot(size, q)
  {
    if p >= 2 * size { SlotDistinct(size, p - 2 * size, q - 2 * size); }
  }

  /** The last position before `cur` that shares the place of `p`. */
  function Latest(size: nat, cur: nat, p: nat): (q: nat)
    requires size > 0 && p < cur
    ensures p <= q < cur <= q + 2 * size && Slot(size, q) == Slot(size, p)
    decreases cur - p
  {
    if p + 2 * size < cur then Latest(size, cur, p + 2 * size) else p
  }

  /** The ring holds the last two buffers' worth of the log. */
  ghost predicate Window(size: nat, ring: seq<Byte>, log: seq<Byte>) {
    && size > 0 && |ring| == 2 * size
    && forall p: nat :: p < |log| <= p + 2 * size ==> ring[Slot(size, p)] == log[p]
  }

  /** The caller's part: a short entry that ends in the buffer where it starts. */
  predicate Whole(size: nat, cur: nat, entry: seq<Byte>)
    requires size > 0
  {
    |entry| <= MAX_LOG_LEN && cur % size + |entry| <= size
  }

  /** Overwrite part of the ring. */
  function Splice(ring: seq<Byte>, at: nat, entry: seq<Byte>): (r: seq<Byte>)
    requires at + |entry| <= |ring|
    ensures |r| == |ring|
    ensures forall i :: 0 <= i < |ring| ==> r[i] == if at <= i < at + |entry| then entry[i - at] else ring[i]
  {
    ring[..at] + entry + ring[at + |entry|..]
  }

  lemma WholeFits(size: nat, cur: nat, entry: seq<Byte>)
    requires size > 0 && Whole(size, cur, entry)
    ensures Slot(size, cur) + |entry| <= 2 * size
  {
    Address(size, cur);
  }

  /** An append of a whole entry keeps the window. */
  lemma AppendKeeps(size: nat, ring: seq<Byte>, log: seq<Byte>, entry: seq<Byte>)
    requires Window(size, ring, log) && Whole(size, |log|, entry)
    ensures Slot(size, |log|) + |entry| <= |ring|
    ensures Window(size, Splice(ring, Slot(size, |log|), entry), log + entry)
  {
    WholeFits(size, |log|, entry);
    var at := Slot(size, |log|);
    var all := log + entry;
    forall p: nat | p < |all| <= p + 2 * size
      ensures Splice(ring, at, entry)[Slot(size, p)] == all[p]
    {
      if p >= |log| {
        SlotShift(size, |log|, p - |log|);
      } else {
        var s := Slot(size, p);
        if at <= s < at + |entry| {
          SlotShift(size, |log|, s - at);
          SlotDistinct(size, p, |log| + (s - at));
        }
      }
    }
  }

  /** The bytes of the buffer that holds position `from`. */
  function Chunk(size: nat, ring: seq<Byte>, from: nat): seq<Byte>
    requires size > 0 && |ring| == 2 * size
  {
    if BufferId(size, from) == 0 then ring[..size] else ring[size..]
  }

  /** What a flush writes, whatever was appended before: at each place the last
      byte of the log that went there. */
  lemma ChunkIsLatest(size: nat, ring: seq<Byte>, log: seq<Byte>, from: nat, o: nat)
    requires Window(size, ring, log) && from % size == 0 && from + size <= |log| && o < size
    ensures Chunk(size, ring, from)[o] == log[Latest(size, |log|, from + o)]
  {
    Address(size, from);
    SlotShift(size, from, o);
  }

  /** Without a lap that is the log itself. */
  lemma ChunkIsLog(size: nat, ring: seq<Byte>, log: seq<Byte>, from: nat)
    requires Window(size, ring, log) && from % size == 0 && from + size <= |log| <= from + 2 * size
    ensures Chunk(size, ring, from) == log[from..from + size]
  {
    forall o | 0 <= o < size
      ensures Chunk(size, ring, from)[o] == log[from + o]
    {
      ChunkIsLatest(size, ring, log, from, o);
    }
  }

  /** Every byte of the buffer's worth from `from` is still the last one at its place,
      or happens to equal it. */
  ghost predicate Survives(size: nat, log: seq<Byte>, from: nat)
    requires size > 0 && from + size <= |log|
  {
    forall p :: from <= p < from + size ==> log[Latest(size, |log|, p)] == log[p]
  }

  /** A flush writes the right bytes if and only if they survive. */
  lemma ChunkRightIff(size: nat, ring: seq<Byte>, log: seq<Byte>, from: nat)
    requires Window(size, ring, log) && from % size == 0 && from + size <= |log|
    ensures Chunk(size, ring, from) == log[from..from + size] <==> Survives(size, log, from)
  {
    var chunk, right := Chunk(size, ring, from), log[from..from + size];
    assert |chunk| == |right| == size;
    forall p | from <= p < from + size
      ensures chunk[p - from] == log[Latest(size, |log|, p)] && right[p - from] == log[p]
    {
      ChunkIsLatest(size, ring, log, from, p - from);
    }
    hide Window, Chunk, Slot, Latest;
    PointwiseIff(size, chunk, log, from);
  }

  lemma PointwiseIff(size: nat, chunk: seq<Byte>, log: seq<Byte>, from: nat)
    requires size > 0 && from + size <= |log| && |chunk| == size
    requires forall p :: from <= p < from + size ==> chunk[p - from] == log[Latest(size, |log|, p)]
    ensures chunk == log[from..from + size] <==> Survives(size, log, from)
  {
    hide Slot, Latest;
    var right := log[from..from + size];
    if Survives(size, log, from) {
      forall o | 0 <= o < size
        ensures chunk[o] == right[o]
      {
        var p := from + o;
        assert chunk[p - from] == log[Latest(size, |log|, p)];
      }
    } else {
      var p :| from <= p < from + size && log[Latest(size, |log|, p)] != log[p];
      assert chunk[p - from] != right[p - from];
    }
  }
}
