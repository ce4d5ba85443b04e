/** The logger itself: two byte buffers and two counters, changed in place. */
module Logger {
  import opened Arithmetic
  import opened LogRing

  /** What `try_flush_logs` comes to: not enough data, too much, or a flush that
      started at the given offset. */
  datatype Outcome = NotFull(cur: nat) | TooFast | Flushed(offset: nat)

  class Log {
    const size: nat
    const buffers: array2<Byte>
    var cur: nat
    var flushed: nat
    var file: seq<Byte>
    /** Everything appended so far. */
    ghost var log: seq<Byte>

    /** The two buffers side by side. */
    ghost function Ring(): (r: seq<Byte>)
      requires buffers.Length0 == 2 && buffers.Length1 == size
      reads buffers
      ensures |r| == 2 * size
    {
      seq(2 * size, i requires 0 <= i < 2 * size && buffers.Length0 == 2 && buffers.Length1 == size reads buffers =>
        if i < size then buffers[0, i] else buffers[1, i - size])
    }

    /** The file is the flushed prefix of the log, and the ring holds the rest. */
    ghost predicate Valid()
      reads this, buffers
    {
      && buffers.Length0 == 2 && buffers.Length1 == size
      && Window(size, Ring(), log)
      && cur == |log| && flushed % size == 0 && flushed <= cur
      && file == log[..flushed]
    }

    constructor (size: nat)
      requires size > 0
      ensures Valid() && log == [] && flushed == 0 && fresh(buffers) && this.size == size
    {
      this.size := size;
      buffers := new Byte[2, size];
      cur := 0;
      flushed := 0;
      file := [];
      log := [];
      DivUnique(0, size, 0, 0);
    }

    method AppendLog(val: seq<Byte>)
      requires Valid() && Whole(size, cur, val)
      modifies this`cur, this`log, buffers
      ensures Valid() && log == old(log) + val
      ensures flushed == old(flushed) && file == old(file)
    {
      hide Window, Slot, Splice;
      AppendKeeps(size, Ring(), log, val);
      Address(size, cur);
      ghost var was := Ring();
      var loc := cur;
      cur := cur + |val|;
      Copy((loc / size) % 2, loc % size, val);
      assert Ring() == Splice(was, Slot(size, loc), val);
      log := log + val;
      assert log[..flushed] == old(log)[..flushed];
    }

    /** Copy an entry into one buffer. */
    method Copy(id: nat, offset: nat, val: seq<Byte>)
      requires buffers.Length0 == 2 && buffers.Length1 == size && id < 2 && offset + |val| <= size
      modifies buffers
      ensures Ring() == Splice(old(Ring()), (if id == 0 then 0 else size) + offset, val)
    {
      var i := 0;
      while i < |val|
        invariant 0 <= i <= |val|
        invariant forall j :: 0 <= j < i ==> buffers[id, offset + j] == val[j]
        invariant forall k, j :: 0 <= k < 2 && 0 <= j < size && !(k == id && offset <= j < offset + i) ==>
                    buffers[k, j] == old(buffers[k, j])
      {
        buffers[id, offset + i] := val[i];
        i := i + 1;
      }
      forall j | offset <= j < offset + |val|
        ensures buffers[id, j] == val[j - offset]
      {
        assert buffers[id, offset + (j - offset)] == val[j - offset];
      }
    }

    method TryFlushLogs() returns (r: Outcome)
      requires Valid()
      modifies this`flushed, this`file
      ensures Valid() && log == old(log)
      ensures r.NotFull? <==> cur < old(flushed) + size
      ensures r.Flushed? <==> old(flushed) + size <= cur < old(flushed) + 2 * size
      ensures r.NotFull? ==> r.cur == cur
      ensures r.Flushed? ==> r.offset == old(flushed) && flushed == old(flushed) + size
      ensures !r.Flushed? ==> flushed == old(flushed)
    {
      var distance := cur - flushed;
      if distance < size { return NotFull(cur); }
      if distance >= 2 * size { return TooFast; }
      ChunkIsLog(size, Ring(), log, flushed);
      NextMultiple(flushed, size);
      hide Window;
      var id := (flushed / size) % 2;
      var chunk := FlushBuffer(id);
      assert chunk == Chunk(size, Ring(), flushed);
      file := file + chunk;
      assert log[..flushed] + log[flushed..flushed + size] == log[..flushed + size];
      r := Flushed(flushed);
      flushed := flushed + size;
    }

    /** The bytes handed to the file. */
    method FlushBuffer(id: nat) returns (chunk: seq<Byte>)
      requires Valid() && id < 2
      ensures chunk == if id == 0 then Ring()[..size] else Ring()[size..]
    {
      chunk := [];
      var i := 0;
      while i < size
        invariant 0 <= i <= size
        invariant chunk == Ring()[id * size..id * size + i]
      {
        chunk := chunk + [buffers[id, i]];
        i := i + 1;
      }
    }
  }

  lemma NextMultiple(flushed: nat, size: nat)
    requires size > 0 && flushed % size == 0
    ensures (flushed + size) % size == 0
  {
    assert flushed == size * (flushed / size);
    DivUnique(flushed + size, size, flushed / size + 1, 0);
  }
}
