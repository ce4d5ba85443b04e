/** The words of the protocol are the meanings of 64-bit words: whatever a step does to
    the word of a record, one bit operation of the program does to its bits. */
module WordBits {
  import opened Common
  import opened LockWord
  import opened Columns
  import opened Protocol
  import opened CacheInvariant
  import opened CacheSteps
  import opened CacheRefinement

  datatype BitOp = OneMore | OneLess | Lock | Unlock | Sole | PutRid | PutIndex

  /** The bit operations; `id` is the machine number of a rid or a slot. */
  function Apply(op: BitOp, w: bv64, id: bv64): bv64 {
    match op
    case OneMore => AddReader(w)
    case OneLess => SubReader(w)
    case Lock => SetWriter(w)
    case Unlock => SubWriter(w)
    case Sole => UpgradeWord(w)
    case PutRid => StoreRid(w, id)
    case PutIndex => StoreIndex(w, id)
  }

  /** What the operation is meant to do, where it is meant to be used. */
  predicate Does(op: BitOp, x: Word, y: Word) {
    match op
    case OneMore => !x.writer && x.readers < MAX_READER && y == x.(readers := x.readers + 1)
    case OneLess => x.readers > 0 && y == x.(readers := x.readers - 1)
    case Lock => y == x.(writer := true)
    case Unlock => x.writer && y == x.(writer := false)
    case Sole => y == x.(writer := true, readers := 0)
    case PutRid => y.loc.AtRid? && y == x.(loc := y.loc)
    case PutIndex => y.loc.AtSlot? && y == x.(loc := y.loc)
  }

  function Payload(x: Word): nat {
    match x.loc
    case AtSlot(i) => i
    case AtRid(r) => r
  }

  /** On bits the operation does what it is meant to do. */
  lemma BitsDo(op: BitOp, w: bv64, id: bv64, y: Word)
    requires Wf(w) && id <= ID_MASK && Does(op, Decode(w), y)
    requires op.PutRid? || op.PutIndex? ==> Num(id) == Payload(y)
    ensures Wf(Apply(op, w, id)) && Decode(Apply(op, w, id)) == y
  {
    hide Decode, Wf, AddReader, SubReader, SetWriter, SubWriter, UpgradeWord, StoreRid, StoreIndex, Num;
    match op
    case OneMore => DecodeAddReader(w); WfReader(w);
    case OneLess => DecodeSubReader(w); WfReader(w);
    case Lock => DecodeWriter(w); WfWriter(w);
    case Unlock => DecodeWriter(w); WfWriter(w);
    case Sole => DecodeWriter(w); WfUpgrade(w);
    case PutRid => DecodeStore(w, id); WfStore(w, id);
    case PutIndex => DecodeStore(w, id); WfStore(w, id);
  }

  lemma ClientOp(s: State, s': State, t: nat, a: Action, l: Label, r: nat) returns (op: BitOp)
    requires t in s.pc && ClientNext(s, s', t, a, l) && LocksOk(s)
    requires r in s.recs && r in s'.recs && s'.recs[r].word != s.recs[r].word
    ensures Does(op, s.recs[r].word, s'.recs[r].word)
  {
    assert LockOk(s.recs[r], r);
    op := if a.DropRead? then OneLess else Unlock;
  }

  lemma GrantOp(s: State, s': State, t: nat, a: Action, r: nat) returns (op: BitOp)
    requires t in s.pc && LockGranted(s, s', t, a) && PcOk(s, t, s.pc[t])
    requires r in s.recs && r in s'.recs && s'.recs[r].word != s.recs[r].word
    ensures Does(op, s.recs[r].word, s'.recs[r].word)
  {
    op := if s.pc[t].ReadCas? then OneMore else if s.pc[t].UpgradeCas? then Sole else Lock;
  }

  lemma StoreOp(s: State, s': State, t: nat, a: Action, r: nat) returns (op: BitOp)
    requires t in s.pc && WordNext(s, s', t, a) && Inv(s)
    requires r in s.recs && r in s'.recs && s'.recs[r].word != s.recs[r].word
    ensures Does(op, s.recs[r].word, s'.recs[r].word)
  {
    InvTask(s, t);
    hide SlotsOk, WordsOk, ViewsOk, ValuesOk, JobOk;
    assert LockOk(s.recs[r], r);
    op := if s.pc[t].RidStore? then PutRid else if s.pc[t].IndexStore? then PutIndex else Unlock;
  }

  /** Every change of a record's word by any step is one bit operation on its bits. */
  lemma WordChangesAreBits(s: State, s': State, t: nat, a: Action, l: Label, r: nat, w: bv64, id: bv64)
    returns (op: BitOp)
    requires Inv(s) && Next(s, s', t, a, l) && r in s.recs && r in s'.recs
    requires s'.recs[r].word != s.recs[r].word
    requires Wf(w) && Decode(w) == s.recs[r].word && id <= ID_MASK
    requires s'.recs[r].word.loc != s.recs[r].word.loc ==> Num(id) == Payload(s'.recs[r].word)
    ensures Wf(Apply(op, w, id)) && Decode(Apply(op, w, id)) == s'.recs[r].word
  {
    InvParts(s, t);
    hide Inv, ClientNext, LockGranted, WordNext, ProbeNext, MoveNext, Decode, Wf, Num, Apply, PcOk, LocksOk;
    if ClientNext(s, s', t, a, l) {
      op := ClientOp(s, s', t, a, l, r);
    } else if LockGranted(s, s', t, a) {
      op := GrantOp(s, s', t, a, r);
    } else {
      SameRecs(s, s', t, a, l);
      op := StoreOp(s, s', t, a, r);
    }
    BitsDo(op, w, id, s'.recs[r].word);
  }

  lemma InvParts(s: State, t: nat)
    requires Inv(s) && t in s.pc
    ensures LocksOk(s) && PcOk(s, t, s.pc[t])
  {
    InvTask(s, t);
  }

  /** All other steps leave the words alone. */
  lemma SameRecs(s: State, s': State, t: nat, a: Action, l: Label)
    requires Next(s, s', t, a, l) && !ClientNext(s, s', t, a, l) && !LockGranted(s, s', t, a)
    ensures WordNext(s, s', t, a) || s'.recs == s.recs
  {
    hide ClientNext, LockGranted, WordNext, WriteBack, MakeView;
  }

  /** What a word has to hold always fits into its 32 bits. */
  lemma PayloadFits(s: State, r: nat)
    requires Inv(s) && r in s.recs
    ensures Payload(s.recs[r].word) < EMPTY
  {
    assert WordOk(s, r);
  }
}
