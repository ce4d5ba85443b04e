/** The actions of a client: locking, opening query results, reading and writing
    through them, promoting and inserting. */
module CacheClients {
  import opened Common
  import opened LockWord
  import opened Columns
  import opened Protocol
  import opened CacheInvariant
  import opened CacheSteps

  lemma LockStep(s: State, s': State, t: nat, a: Action, l: Label)
    requires Inv(s) && t in s.pc && ClientNext(s, s', t, a, l) && (a.LockRead? || a.LockWrite?)
    ensures Inv(s') && Respects(s, s', t) && Logical(s') == Logical(s)
  {
    hide SlotsOk, LocksOk, WordsOk, ValuesOk, ViewsOk, Respects, Logical, ViewsShrink;
    QuietViews(s, s', t, s'.pc[t]);
    QuietStep(s, s', t, s'.pc[t]);
  }

  lemma UpgradeLoadStep(s: State, s': State, t: nat, a: Action, l: Label)
    requires Inv(s) && t in s.pc && ClientNext(s, s', t, a, l) && a.Upgrade?
    ensures Inv(s') && Respects(s, s', t) && Logical(s') == Logical(s)
  {
    hide SlotsOk, LocksOk, WordsOk, ValuesOk, Respects, Logical, Matches;
    forall w | w in s'.views && w.task == t
      ensures ViewOk(s', w)
    {
      assert ViewOk(s, w);
    }
    QuietStep(s, s', t, s'.pc[t]);
  }

  lemma DropReadStep(s: State, s': State, t: nat, a: Action, l: Label)
    requires Inv(s) && t in s.pc && ClientNext(s, s', t, a, l) && a.DropRead?
    ensures Inv(s') && Respects(s, s', t) && Logical(s') == Logical(s)
  {
    hide SlotsOk, WordsOk, ValuesOk, Respects, Logical, Matches;
    var r := a.guard.rid;
    assert LockOk(s.recs[r], r);
    assert |s.recs[r].shared| == |s.recs[r].shared - {a.guard}| + 1;
    assert s'.pc[t] == Idle && s'.pc == s.pc[t := Idle];
    forall w | w in s'.views && w.task == t
      ensures ViewOk(s', w)
    {
      assert ViewOk(s, w);
    }
    LockChangeStep(s, s', t, r, s'.recs[r], Idle);
  }

  lemma DropWriteStep(s: State, s': State, t: nat, a: Action, l: Label)
    requires Inv(s) && t in s.pc && ClientNext(s, s', t, a, l) && a.DropWrite?
    ensures Inv(s') && Respects(s, s', t) && Logical(s') == Logical(s)
  {
    hide SlotsOk, WordsOk, ValuesOk, Respects, Logical, Matches;
    var r := a.rid;
    assert LockOk(s.recs[r], r);
    assert s'.pc == s.pc[t := Idle];
    forall w | w in s'.views && w.task == t
      ensures ViewOk(s', w)
    {
      assert ViewOk(s, w);
    }
    LockChangeStep(s, s', t, r, s'.recs[r], Idle);
  }

  lemma OpenStep(s: State, s': State, t: nat, a: Action, l: Label)
    requires Inv(s) && t in s.pc && ClientNext(s, s', t, a, l) && a.Open?
    ensures Inv(s') && Respects(s, s', t) && Logical(s') == Logical(s)
  {
    hide SlotsOk, LocksOk, ValuesOk, Matches, Logical;
    assert WordOk(s, a.rid);
    var w := match LocOf(s, a.rid)
      case AtSlot(i) => MakeView(s, t, a.rid, a.under, a.query, Some(i))
      case AtRid(x) => MakeView(s, t, x, a.under, a.query, None);
    AddView(s, w);
  }

  lemma TouchStep(s: State, s': State, t: nat, a: Action, l: Label)
    requires Inv(s) && t in s.pc && ClientNext(s, s', t, a, l) && a.Touch?
    ensures Inv(s') && Respects(s, s', t) && Logical(s') == Logical(s)
  {
    hide SlotsOk, LocksOk, WordsOk, ValuesOk, ViewsOk, Respects, Logical, Shape;
    assert s.pc == s.pc[t := Idle];
    RefStep(s, s', t, Idle, a.view.slot.value, true);
  }

  lemma PromoteStep(s: State, s': State, t: nat, a: Action, l: Label)
    requires Inv(s) && t in s.pc && ClientNext(s, s', t, a, l) && a.Promote?
    ensures Inv(s') && Respects(s, s', t) && Logical(s') == Logical(s)
  {
    hide SlotsOk, LocksOk, ValuesOk, Respects, Logical, Matches, ToCached;
    assert WordOk(s, a.rid);
    forall w | w in s'.views && w.task == t
      ensures ViewOk(s', w)
    {
      assert ViewOk(s, w);
    }
    QuietStep(s, s', t, s'.pc[t]);
  }

  // Insertion starts.

  lemma InsertFrame(s: State, s': State, t: nat, a: Action, l: Label)
    requires Shape(s) && LocksOk(s) && WordsOk(s) && ViewsOk(s) && t in s.pc
    requires ClientNext(s, s', t, a, l) && a.Insert?
    ensures Shape(s') && LocksOk(s') && WordsOk(s')
  {
    hide ToCached, Matches;
    assert forall r | r in s.recs :: WordOk(s, r) && WordOk(s', r);
  }

  lemma InsertGuards(s: State, s': State, t: nat, a: Action, l: Label)
    requires Shape(s) && LocksOk(s) && WordsOk(s) && ViewsOk(s) && t in s.pc
    requires ClientNext(s, s', t, a, l) && a.Insert?
    ensures Respects(s, s', t) && TaskOk(s', t) && ViewsShrink(s, s', t)
  {
    hide ToCached, Matches;
    forall w | w in s'.views && w.task == t
      ensures ViewOk(s', w)
    {
      assert ViewOk(s, w);
    }
  }

  lemma InsertSlots(s: State, s': State, t: nat, a: Action, l: Label)
    requires SlotsOk(s) && t in s.pc && ClientNext(s, s', t, a, l) && a.Insert?
    ensures SlotsOk(s')
  {
    hide ToCached;
    forall j | 0 <= j < |s.entries|
      ensures SlotOk(s', j)
    {
      assert SlotOk(s, j);
    }
  }

  lemma InsertCopies(s: State, s': State, t: nat, a: Action, l: Label, r: nat)
    requires t in s.pc && ClientNext(s, s', t, a, l) && a.Insert? && r in s'.recs
    ensures r == a.rid ==> Pending(s', r)
    ensures r in s.recs ==> Pending(s', r) == Pending(s, r) && CachedCopy(s', r) == CachedCopy(s, r)
  {
    hide ToCached;
  }

  lemma InsertStep(s: State, s': State, t: nat, a: Action, l: Label)
    requires Inv(s) && t in s.pc && ClientNext(s, s', t, a, l) && a.Insert?
    ensures Inv(s') && Respects(s, s', t) && Logical(s') == Logical(s)
  {
    hide SlotsOk, LocksOk, WordsOk, ViewsOk, TaskOk, ViewOk, Respects, ToCached, CachedCopy, Pending, WriteBack;
    InsertFrame(s, s', t, a, l);
    InsertGuards(s, s', t, a, l);
    InsertSlots(s, s', t, a, l);
    forall r | r in s'.recs
      ensures r == a.rid ==> Pending(s', r)
      ensures r in s.recs ==> Sized(s, r) && Pending(s', r) == Pending(s, r) && CachedCopy(s', r) == CachedCopy(s, r)
    {
      InsertCopies(s, s', t, a, l, r);
      if r in s.recs { CopySized(s, r); }
    }
    assert ValuesOk(s');
    Assemble(s, s', t);
  }

  // Reading and writing through a query result.

  /** The record of a live query result is complete, and what the result points
      at is exactly the current copy of it. */
  lemma ViewSees(s: State, w: View)
    requires Inv(s) && w in s.views && s.pc[w.task] == Idle
    ensures w.rid in s.recs && !Pending(s, w.rid) && Sized(s, w.rid)
    ensures w.slot.Some? ==> w.slot.value < |s.entries| && CachedCopy(s, w.rid) == Some(s.entries[w.slot.value].val)
    ensures w.slot.None? ==> CachedCopy(s, w.rid) == None && w.tuple == Some(w.rid)
    ensures w.tuple.Some? ==> w.tuple.value == w.rid
    ensures w.tuple.None? ==> Matches(s.schema, w.query)
    ensures forall c | c in w.query :: c < s.schema.width
    ensures w.rid in Logical(s)
  {
    hide SlotsOk, ValuesOk, TasksOk, Matches, WriteBack;
    assert ViewOk(s, w);
    assert LockOk(s.recs[w.rid], w.rid) && WordOk(s, w.rid);
    CopySized(s, w.rid);
  }

  /** A read through a live query result gives the column of the logical tuple
      and never reaches the failing `expect`. */
  lemma GetIsLogical(s: State, w: View, c: nat)
    requires Inv(s) && w in s.views && s.pc[w.task] == Idle && c in w.query
    ensures c < s.schema.width && w.rid in Logical(s)
    ensures w.slot.Some? ==> w.slot.value < |s.entries| && |s.entries[w.slot.value].val| == |s.schema.fields|
    ensures w.tuple.Some? ==> w.tuple.value in s.storage && |s.storage[w.tuple.value]| == s.schema.width
    ensures ViewValue(s, w, c) == Some(Logical(s)[w.rid][c])
  {
    hide SlotsOk, LocksOk, WordsOk, TasksOk, ViewsOk, Pending, CachedCopy, WriteBack, Frozen, GetValue, Matches;
    ViewSees(s, w);
    var t := s.storage[w.rid];
    if w.slot.Some? {
      var f := s.entries[w.slot.value].val;
      GetValueIsLogical(s.schema, f, t, w.query, c);
    } else {
      NoItem(s.schema, t, c);
    }
  }

  lemma NoItem(k: Schema, t: Tuple, c: nat)
    requires |t| == k.width && c < k.width
    ensures GetValue(k, None, Some(t), c) == Some(t[c])
  {}

  /** A write changes the slot or the stored tuple of one record, on which the
      task holds the write guard. */
  predicate ItemChange(s: State, s': State, t: nat, r: nat) {
    && t in s.pc && s.pc[t] == Idle && Holds(s, t, r)
    && s' == s.(entries := s'.entries, storage := s'.storage) && |s'.entries| == |s.entries|
    && s'.storage.Keys == s.storage.Keys
    && (forall i :: 0 <= i < |s.entries| ==>
          && s'.entries[i].rid == s.entries[i].rid && |s'.entries[i].val| == |s.entries[i].val|
          && (s.entries[i].rid != r ==> s'.entries[i] == s.entries[i]))
    && (forall q | q in s.storage :: |s'.storage[q]| == |s.storage[q]| && (q != r ==> s'.storage[q] == s.storage[q]))
  }

  lemma ItemFrame(s: State, s': State, t: nat, r: nat)
    requires Shape(s) && LocksOk(s) && WordsOk(s) && SlotsOk(s) && ViewsOk(s) && ItemChange(s, s', t, r)
    ensures Shape(s') && LocksOk(s') && WordsOk(s') && SlotsOk(s') && Respects(s, s', t) && TaskOk(s', t)
    ensures ViewsShrink(s, s', t)
  {
    hide Matches, LockOk, MidFlight;
    NotOther(s, t, r);
    assert forall q | q in s.recs :: WordOk(s, q) && WordOk(s', q);
    forall j | 0 <= j < |s.entries|
      ensures SlotOk(s', j)
    {
      assert SlotOk(s, j);
    }
    assert forall w | w in s.views :: ViewOk(s, w) && ViewOk(s', w);
  }

  lemma ItemCopies(s: State, s': State, t: nat, r: nat, q: nat)
    requires Inv(s) && ItemChange(s, s', t, r) && q in s.recs
    ensures q in s'.recs && Pending(s', q) == Pending(s, q)
    ensures q != r ==> CachedCopy(s', q) == CachedCopy(s, q)
  {
    hide LocksOk, SlotsOk, ValuesOk, ViewsOk, TaskOk;
    assert WordOk(s, q);
    var x := s.recs[q].excl;
    if q != r && x.Some? && x.value in s.pc {
      InvTask(s, x.value);
      OwnVictim(s, x.value, q);
    }
  }

  /** The slot a task is taking a victim out of names the victim. */
  lemma OwnVictim(s: State, u: nat, q: nat)
    requires Shape(s) && u in s.pc && TaskOk(s, u)
    ensures s.pc[u].ReadOld? && s.pc[u].victim == q ==> s.pc[u].slot < |s.entries| && s.entries[s.pc[u].slot].rid == q
  {}

  /** Putting the pieces together for a write that the client sees as column `c`
      of `r` becoming `v`. */
  lemma ItemStep(s: State, s': State, t: nat, r: nat, c: nat, v: int)
    requires Inv(s) && ItemChange(s, s', t, r) && !Pending(s, r) && Sized(s, r) && Sized(s', r) && c < s.schema.width
    requires CachedCopy(s', r).Some? ==> Frozen(s.schema, CachedCopy(s', r).value, s'.storage[r])
    requires Truth(s', r) == Truth(s, r)[c := v]
    ensures Inv(s') && Respects(s, s', t)
    ensures r in Logical(s) && Logical(s') == Logical(s)[r := Logical(s)[r][c := v]]
  {
    hide LocksOk, SlotsOk, WordsOk, ViewsOk, TaskOk, Respects, Pending, CachedCopy, WriteBack, Frozen;
    ItemFrame(s, s', t, r);
    forall q | q in s.recs
      ensures Pending(s', q) == Pending(s, q)
      ensures q != r ==>
                Sized(s, q) && Sized(s', q) && CachedCopy(s', q) == CachedCopy(s, q) && Truth(s', q) == Truth(s, q)
    {
      ItemCopies(s, s', t, r, q);
      CopySized(s, q);
    }
    assert ValuesOk(s');
    Assemble(s, s', t);
  }

  lemma SetInSlot(s: State, s': State, t: nat, w: View, c: nat, v: int)
    requires Inv(s) && t in s.pc && s.pc[t] == Idle && w in s.views && w.task == t && w.guard == None
    requires c in w.query && c < s.schema.width && Writable(s.schema, c) && SetThrough(s, s', w, c, v)
    requires Position(s.schema.fields, c).Some? && w.slot.Some?
    ensures ItemChange(s, s', t, w.rid) && Sized(s, w.rid) && Sized(s', w.rid)
    ensures CachedCopy(s', w.rid).Some? && Frozen(s.schema, CachedCopy(s', w.rid).value, s'.storage[w.rid])
    ensures Truth(s', w.rid) == Truth(s, w.rid)[c := v]
  {
    hide SlotsOk, LocksOk, TasksOk, WriteBack, Matches, Frozen;
    ViewSees(s, w);
    assert ViewOk(s, w);
    assert WordOk(s, w.rid);
    var p := Position(s.schema.fields, c).value;
    SetCachedIsLogical(s.schema, s.entries[w.slot.value].val, s.storage[w.rid], p, v);
  }

  lemma SetInTuple(s: State, s': State, t: nat, w: View, c: nat, v: int)
    requires Inv(s) && t in s.pc && s.pc[t] == Idle && w in s.views && w.task == t && w.guard == None
    requires c in w.query && c < s.schema.width && SetThrough(s, s', w, c, v)
    requires Position(s.schema.fields, c).None? || w.slot.None?
    ensures ItemChange(s, s', t, w.rid) && Sized(s, w.rid) && Sized(s', w.rid)
    ensures CachedCopy(s', w.rid).Some? ==> Frozen(s.schema, CachedCopy(s', w.rid).value, s'.storage[w.rid])
    ensures Truth(s', w.rid) == Truth(s, w.rid)[c := v]
  {
    hide SlotsOk, LocksOk, TasksOk, WriteBack, Matches, Frozen;
    ViewSees(s, w);
    assert ViewOk(s, w);
    if w.slot.Some? {
      SetTupleIsLogical(s.schema, s.entries[w.slot.value].val, s.storage[w.rid], c, v);
    }
  }

  lemma SetStep(s: State, s': State, t: nat, a: Action, l: Label)
    requires Inv(s) && t in s.pc && ClientNext(s, s', t, a, l) && a.Set?
    ensures Inv(s') && Respects(s, s', t) && a.view.rid in Logical(s) && a.col < |Logical(s)[a.view.rid]|
    ensures Logical(s') == Logical(s)[a.view.rid := Logical(s)[a.view.rid][a.col := a.value]]
  {
    hide Inv, ItemChange, Truth, CachedCopy, Pending, Frozen, WriteBack, Sized, Respects;
    var w := a.view;
    SeesRecord(s, w);
    if Position(s.schema.fields, a.col).Some? && w.slot.Some? {
      SetInSlot(s, s', t, w, a.col, a.value);
    } else {
      SetInTuple(s, s', t, w, a.col, a.value);
    }
    ItemStep(s, s', t, w.rid, a.col, a.value);
  }

  lemma SeesRecord(s: State, w: View)
    requires Inv(s) && w in s.views && w.task in s.pc && s.pc[w.task] == Idle
    ensures w.rid in s.recs && !Pending(s, w.rid) && w.rid in Logical(s) && |Logical(s)[w.rid]| == s.schema.width
  {
    ViewSees(s, w);
  }
}
