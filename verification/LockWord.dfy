/** The 64-bit lock word of one record: a writer bit, a 7-bit reader count, an
    "is cached" tag and a 32-bit id that is a record id or a cache slot.

    The bit operations are written as the program writes them, on bv64. `Decode`
    gives the meaning of a word; the lemmas say what each bit operation does to
    that meaning. */
module LockWord {
  import opened Common

  const LOCK_MASK: bv64 := 0xff00_0000_0000_0000
  const LOCK_WRITER: bv64 := 0x8000_0000_0000_0000
  const LOCK_READER: bv64 := 0x0100_0000_0000_0000
  const IS_CACHED: bv64 := 0x00ff_0000_0000_0000
  const ID_MASK: bv64 := 0x0000_0000_ffff_ffff
  const MAX_READER: nat := 127

  /** What the id part of a word names. */
  datatype Loc = AtRid(rid: nat) | AtSlot(slot: nat)

  /** The meaning of a word. */
  datatype Word = Word(writer: bool, readers: nat, loc: Loc)

  // The tests and accessors, as in oid.rs.

  predicate WriteLocked(w: bv64) { w & LOCK_WRITER != 0 }

  predicate HasLock(w: bv64) { w & LOCK_MASK != 0 }

  function ReadLockCnt(w: bv64): bv64 { (w & LOCK_MASK) / LOCK_READER }

  predicate IsCached(w: bv64) { w & IS_CACHED != 0 }

  function ToCacheIndex(w: bv64): bv64 { (w & !LOCK_MASK) & !IS_CACHED }

  function ToRid(w: bv64): bv64 { (w & !LOCK_MASK) & ID_MASK }

  // The new words the program computes.

  function AddReader(w: bv64): bv64 { w + LOCK_READER }

  function SubReader(w: bv64): bv64 { w - LOCK_READER }

  function SetWriter(w: bv64): bv64 { w | LOCK_WRITER }

  function SubWriter(w: bv64): bv64 { w - LOCK_WRITER }

  function UpgradeWord(w: bv64): bv64 { (w & !LOCK_MASK) | LOCK_WRITER }

  function StoreRid(w: bv64, rid: bv64): bv64 { ((w & !ID_MASK) & !IS_CACHED) | rid }

  function StoreIndex(w: bv64, index: bv64): bv64 { ((w & !ID_MASK) | IS_CACHED) | index }

  /** Bits 32 to 47 are zero and the tag byte is all zeros or all ones:
      `to_cache_index` masks neither, so every word must keep this. */
  predicate Wf(w: bv64) {
    && w & 0x0000_ffff_0000_0000 == 0
    && (w & IS_CACHED == 0 || w & IS_CACHED == IS_CACHED)
  }

  /** The four fields of a word, still as bits. */
  datatype Fields = Fields(writer: bool, readers: bv64, cached: bool, id: bv64)

  function Parse(w: bv64): Fields {
    Fields(WriteLocked(w), (w >> 56) & 0x7f, IsCached(w), w & ID_MASK)
  }

  // What each bit operation does to the fields.

  lemma ParseInjective(a: bv64, b: bv64)
    requires Wf(a) && Wf(b) && Parse(a) == Parse(b)
    ensures a == b
  {}

  lemma ParseTests(w: bv64)
    ensures Parse(w).readers < 128 && Parse(w).id <= ID_MASK
    ensures HasLock(w) <==> Parse(w).writer || Parse(w).readers != 0
    ensures ToRid(w) == Parse(w).id
  {}

  lemma ParseReadLockCnt(w: bv64)
    requires !WriteLocked(w)
    ensures ReadLockCnt(w) == Parse(w).readers
  {}

  lemma ParseCacheIndex(w: bv64)
    requires Wf(w)
    ensures ToCacheIndex(w) == Parse(w).id
  {}

  lemma ParseAddReader(w: bv64)
    requires Parse(w).readers < 127
    ensures Parse(AddReader(w)) == Parse(w).(readers := Parse(w).readers + 1)
  {}

  /** The 128th reader carries into the writer bit: the word then says "write
      locked, no readers". */
  lemma ParseReaderCarry(w: bv64)
    requires Parse(w).readers == 127 && !Parse(w).writer
    ensures Parse(AddReader(w)) == Parse(w).(writer := true, readers := 0)
  {}

  lemma ParseSubReader(w: bv64)
    requires Parse(w).readers != 0
    ensures Parse(SubReader(w)) == Parse(w).(readers := Parse(w).readers - 1)
  {}

  lemma ParseSetWriter(w: bv64)
    ensures Parse(SetWriter(w)) == Parse(w).(writer := true)
  {}

  lemma ParseSubWriter(w: bv64)
    requires Parse(w).writer
    ensures Parse(SubWriter(w)) == Parse(w).(writer := false)
  {}

  lemma ParseUpgrade(w: bv64)
    ensures Parse(UpgradeWord(w)) == Parse(w).(writer := true, readers := 0)
  {}

  lemma ParseStoreRid(w: bv64, id: bv64)
    requires id <= ID_MASK
    ensures Parse(StoreRid(w, id)) == Parse(w).(cached := false, id := id)
  {}

  lemma ParseStoreIndex(w: bv64, id: bv64)
    requires id <= ID_MASK
    ensures Parse(StoreIndex(w, id)) == Parse(w).(cached := true, id := id)
  {}

  // No operation sets the bits that `to_cache_index` does not mask.

  lemma WfReader(w: bv64)
    requires Wf(w)
    ensures Wf(AddReader(w)) && Wf(SubReader(w))
  {}

  lemma WfWriter(w: bv64)
    requires Wf(w)
    ensures Wf(SetWriter(w)) && Wf(SubWriter(w))
  {}

  lemma WfUpgrade(w: bv64)
    requires Wf(w)
    ensures Wf(UpgradeWord(w))
  {}

  lemma WfStore(w: bv64, id: bv64)
    requires Wf(w) && id <= ID_MASK
    ensures Wf(StoreRid(w, id)) && Wf(StoreIndex(w, id))
  {}

  // From fields to numbers.

  function Num(b: bv64): nat { b as nat }

  function Meaning(f: Fields): Word {
    Word(f.writer, Num(f.readers), if f.cached then AtSlot(Num(f.id)) else AtRid(Num(f.id)))
  }

  function Decode(w: bv64): Word { Meaning(Parse(w)) }

  lemma RoundTrip(a: bv64)
    ensures Num(a) as bv64 == a
  {}

  lemma NumInjective(a: bv64, b: bv64)
    requires Num(a) == Num(b)
    ensures a == b
  {
    RoundTrip(a);
    RoundTrip(b);
  }

  lemma Counts(n: bv64)
    requires n < 128
    ensures Num(n) < 128
    ensures Num(n) < 127 <==> n < 127
    ensures Num(n) > 0 <==> n != 0
    ensures Num(n) > 1 <==> n > 1
    ensures n < 127 ==> Num(n + 1) == Num(n) + 1
    ensures n != 0 ==> Num(n - 1) == Num(n) - 1
  {}

  lemma Zero()
    ensures Num(0) == 0
  {}

  lemma MeaningInjective(f: Fields, g: Fields)
    requires Meaning(f) == Meaning(g)
    ensures f == g
  {
    hide Num;
    NumInjective(f.readers, g.readers);
    NumInjective(f.id, g.id);
  }

  // What each operation means.

  /** Equal meanings are equal words, so a compare-and-swap on words is a
      compare-and-swap on meanings. */
  lemma DecodeInjective(a: bv64, b: bv64)
    requires Wf(a) && Wf(b) && Decode(a) == Decode(b)
    ensures a == b
  {
    hide Num, Parse, Wf, Meaning;
    MeaningInjective(Parse(a), Parse(b));
    ParseInjective(a, b);
  }

  /** The tests and accessors of oid.rs read the meaning. */
  lemma DecodeTests(w: bv64)
    requires Wf(w)
    ensures WriteLocked(w) <==> Decode(w).writer
    ensures HasLock(w) <==> Decode(w).writer || Decode(w).readers > 0
    ensures !Decode(w).writer ==> Num(ReadLockCnt(w)) == Decode(w).readers
    ensures IsCached(w) ==> Decode(w).loc == AtSlot(Num(ToCacheIndex(w)))
    ensures !IsCached(w) ==> Decode(w).loc == AtRid(Num(ToRid(w)))
    ensures Decode(w).readers < 128
  {
    hide Num, Wf, ReadLockCnt, HasLock, ToCacheIndex, ToRid;
    ParseTests(w);
    ParseCacheIndex(w);
    if !WriteLocked(w) { ParseReadLockCnt(w); }
    Counts(Parse(w).readers);
  }

  lemma ReaderCountTest(w: bv64)
    requires Wf(w) && !Decode(w).writer
    ensures ReadLockCnt(w) > 1 <==> Decode(w).readers > 1
  {
    hide Parse, Wf, ReadLockCnt, Num, WriteLocked;
    DecodeTests(w);
    ParseTests(w);
    ParseReadLockCnt(w);
    Counts(Parse(w).readers);
  }

  /** Taking a read lock adds one reader and changes nothing else exactly when
      fewer than 127 readers are counted. */
  lemma DecodeAddReader(w: bv64)
    requires Wf(w) && !Decode(w).writer
    ensures Decode(AddReader(w)) == Decode(w).(readers := Decode(w).readers + 1)
            <==> Decode(w).readers < MAX_READER
  {
    hide Num, Parse, Wf, AddReader;
    ParseTests(w);
    Counts(Parse(w).readers);
    if Parse(w).readers < 127 {
      ParseAddReader(w);
    } else {
      ParseReaderCarry(w);
    }
  }

  /** At 127 readers the addition carries into the writer bit. */
  lemma DecodeReaderCarry(w: bv64)
    requires Wf(w) && !Decode(w).writer && Decode(w).readers >= MAX_READER
    ensures Decode(AddReader(w)) == Decode(w).(writer := true, readers := 0)
  {
    hide Num, Parse, Wf, AddReader;
    ParseTests(w);
    Counts(Parse(w).readers);
    ParseReaderCarry(w);
    Zero();
  }

  lemma DecodeSubReader(w: bv64)
    requires Decode(w).readers > 0
    ensures Decode(SubReader(w)) == Decode(w).(readers := Decode(w).readers - 1)
  {
    hide Num, Parse, SubReader;
    ParseTests(w);
    Counts(Parse(w).readers);
    ParseSubReader(w);
  }

  lemma DecodeWriter(w: bv64)
    ensures Decode(SetWriter(w)) == Decode(w).(writer := true)
    ensures Decode(w).writer ==> Decode(SubWriter(w)) == Decode(w).(writer := false)
    ensures Decode(UpgradeWord(w)) == Decode(w).(writer := true, readers := 0)
  {
    hide Num, Parse, SetWriter, SubWriter, UpgradeWord;
    ParseSetWriter(w);
    ParseUpgrade(w);
    Zero();
    if Decode(w).writer { ParseSubWriter(w); }
  }

  /** The two payload stores replace the payload and keep the lock part. */
  lemma DecodeStore(w: bv64, id: bv64)
    requires id <= ID_MASK
    ensures Decode(StoreRid(w, id)) == Decode(w).(loc := AtRid(Num(id)))
    ensures Decode(StoreIndex(w, id)) == Decode(w).(loc := AtSlot(Num(id)))
  {
    hide Num, Parse, StoreRid, StoreIndex;
    ParseStoreRid(w, id);
    ParseStoreIndex(w, id);
  }
}
