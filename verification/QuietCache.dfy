/** Between operations the protocol and the one-thread cache are about the same thing. */
module QuietCache {
  import opened Common
  import opened LockWord
  import opened Columns
  import opened Protocol
  import opened CacheInvariant
  import opened CacheSteps
  import opened ClockCache

  function Words(s: State): map<nat, Word> {
    map r | r in s.recs :: s.recs[r].word
  }

  predicate AllIdle(s: State) {
    forall t | t in s.pc :: s.pc[t] == Idle
  }

  lemma QuietCoherent(s: State)
    requires Inv(s) && AllIdle(s)
    ensures Coherent(s.schema, Words(s), s.entries, s.storage, {})
  {
    hide TasksOk, ViewsOk, Frozen, WfSchema;
    var ws, es := Words(s), s.entries;
    forall r | r in ws
      ensures match ws[r].loc case AtSlot(i) => i < |es| && es[i].rid == r case AtRid(x) => x == r
    {
      assert WordOk(s, r);
    }
    forall i | 0 <= i < |es| && es[i].rid != EMPTY
      ensures es[i].rid in ws && ws[es[i].rid].loc == AtSlot(i)
    {
      assert SlotOk(s, i);
    }
    forall r | r in ws && ws[r].loc.AtSlot?
      ensures Frozen(s.schema, es[ws[r].loc.slot].val, s.storage[r])
    {
      assert WordOk(s, r);
      assert !Pending(s, r);
    }
  }

  /** When no operation is in progress, words, slots and storage of a protocol state
      are coherent, and the contents of the one-thread cache are the logical contents
      of the protocol. */
  lemma QuietIsSequential(s: State)
    requires Inv(s) && AllIdle(s)
    ensures Coherent(s.schema, Words(s), s.entries, s.storage, {})
    ensures Contents(s.schema, Words(s), s.entries, s.storage) == Logical(s)
  {
    QuietCoherent(s);
    hide Coherent, TasksOk, ViewsOk, ValuesOk, SlotsOk, LocksOk, WriteBack, WfSchema;
    forall r | r in s.recs
      ensures !Pending(s, r) && TruthOf(s.schema, Words(s), s.entries, s.storage, r) == Truth(s, r)
    {
      assert WordOk(s, r);
    }
  }
}
