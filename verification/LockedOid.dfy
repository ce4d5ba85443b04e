/** The lock word of one record as an object: each method against what it does to
    the meaning of the word. `lucky` is false when the compare-and-swap fails. */
module LockedOid {
  import opened Common
  import opened LockWord

  class Oid {
    var data: bv64

    ghost predicate Valid()
      reads this
    {
      Wf(data) && (Decode(data).writer ==> Decode(data).readers == 0)
    }

    ghost function Value(): Word
      reads this
    {
      Decode(data)
    }

    /** The count has seven bits: the 128th reader carries into the writer bit. */
    method TryRead(lucky: bool) returns (e: Option<TransactionError>)
      requires Valid()
      modifies this
      ensures Valid()
      ensures e == if old(Value()).writer then Some(ReadLockBusy) else if !lucky then Some(LockBusy) else None
      ensures Value() == if e.Some? then old(Value())
                         else if old(Value()).readers < MAX_READER then
                           old(Value()).(readers := old(Value()).readers + 1)
                         else old(Value()).(writer := true, readers := 0)
    {
      hide Decode, Wf, WriteLocked, AddReader;
      DecodeTests(data);
      if WriteLocked(data) { return Some(ReadLockBusy); }
      if !lucky { return Some(LockBusy); }
      DecodeAddReader(data);
      if Value().readers >= MAX_READER { DecodeReaderCarry(data); }
      WfReader(data);
      data := AddReader(data);
      return None;
    }

    method ReadUnlock()
      requires Valid() && Value().readers > 0
      modifies this
      ensures Valid() && Value() == old(Value()).(readers := old(Value()).readers - 1)
    {
      hide Decode, Wf, SubReader;
      DecodeSubReader(data);
      WfReader(data);
      data := SubReader(data);
    }

    method TryWrite(lucky: bool) returns (e: Option<TransactionError>)
      requires Valid()
      modifies this
      ensures Valid()
      ensures e == if old(Value()).writer || old(Value()).readers > 0 then Some(WriteLockBusy)
                   else if !lucky then Some(LockBusy) else None
      ensures Value() == if e == None then old(Value()).(writer := true) else old(Value())
    {
      hide Decode, Wf, HasLock, SetWriter;
      DecodeTests(data);
      if HasLock(data) { return Some(WriteLockBusy); }
      if !lucky { return Some(LockBusy); }
      DecodeWriter(data);
      WfWriter(data);
      data := SetWriter(data);
      return None;
    }

    method WriteUnlock()
      requires Valid() && Value().writer
      modifies this
      ensures Valid() && Value() == old(Value()).(writer := false)
    {
      hide Decode, Wf, SubWriter;
      DecodeWriter(data);
      WfWriter(data);
      data := SubWriter(data);
    }

    /** The only reader becomes the writer; with other readers nothing happens. */
    method Upgrade(lucky: bool) returns (ok: bool)
      requires Valid() && Value().readers > 0
      modifies this
      ensures Valid()
      ensures ok <==> old(Value()).readers == 1 && lucky
      ensures Value() == if ok then old(Value()).(writer := true, readers := 0) else old(Value())
    {
      hide Decode, Wf, ReadLockCnt, UpgradeWord, Num;
      ReaderCountTest(data);
      if ReadLockCnt(data) > 1 || !lucky { return false; }
      DecodeWriter(data);
      WfUpgrade(data);
      data := UpgradeWord(data);
      return true;
    }

    method StoreRid(rid: bv64)
      requires Valid() && Value().writer && rid <= ID_MASK
      modifies this
      ensures Valid() && Value() == old(Value()).(loc := AtRid(Num(rid)))
    {
      hide Decode, Wf, LockWord.StoreRid, LockWord.StoreIndex, Num;
      DecodeStore(data, rid);
      WfStore(data, rid);
      data := LockWord.StoreRid(data, rid);
    }

    method StoreIndex(index: bv64)
      requires Valid() && Value().writer && index <= ID_MASK
      modifies this
      ensures Valid() && Value() == old(Value()).(loc := AtSlot(Num(index)))
    {
      hide Decode, Wf, LockWord.StoreRid, LockWord.StoreIndex, Num;
      DecodeStore(data, index);
      WfStore(data, index);
      data := LockWord.StoreIndex(data, index);
    }
  }
}
