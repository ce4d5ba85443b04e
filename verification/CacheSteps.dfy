/** Every action keeps the invariant and does to the logical contents exactly
    what its label says. */
module CacheSteps {
  import opened Common
  import opened LockWord
  import opened Columns
  import opened Protocol
  import opened CacheInvariant

  /** The logical contents: every record whose insertion is complete. */
  function Logical(s: State): map<nat, Tuple>
    requires Inv(s)
  {
    map r | r in s.recs && !Pending(s, r) :: Truth(s, r)
  }

  // What an action of task t leaves alone.

  /** Another task than `t` holds a guard on `r`. */
  predicate HeldByOther(s: State, t: nat, r: nat) {
    && r in s.recs
    && (|| (s.recs[r].excl.Some? && s.recs[r].excl.value != t)
        || exists g :: g in s.recs[r].shared && g.task != t)
  }

  /** Pinning: an action of task `t` does not move, rename or rewrite a record
      on which another task holds a guard, and takes no guard away from it. */
  predicate Respects(s: State, s': State, t: nat) {
    && s'.schema == s.schema && |s'.entries| == |s.entries| && s'.pc.Keys == s.pc.Keys
    && s.recs.Keys <= s'.recs.Keys && s'.storage.Keys == s.storage.Keys
    && (forall u | u in s.pc && u != t :: s'.pc[u] == s.pc[u])
    && (forall r | r in s.recs ::
          && (s.recs[r].excl.Some? && s.recs[r].excl.value != t ==> s'.recs[r] == s.recs[r])
          && (forall g | g in s.recs[r].shared && g.task != t :: g in s'.recs[r].shared))
    && (forall r | r in s.recs && HeldByOther(s, t, r) ::
          && s'.recs[r].word.loc == s.recs[r].word.loc
          && (r in s.storage ==> s'.storage[r] == s.storage[r]))
    && (forall i :: 0 <= i < |s.entries| && HeldByOther(s, t, s.entries[i].rid) ==>
          s'.entries[i].rid == s.entries[i].rid && s'.entries[i].val == s.entries[i].val)
  }

  /** A task whose records are left alone keeps its part of the invariant. */
  lemma OtherTaskOk(s: State, s': State, t: nat, u: nat)
    requires Shape(s) && WordsOk(s) && Shape(s') && Respects(s, s', t)
    requires u in s.pc && u != t && TaskOk(s, u)
    ensures TaskOk(s', u)
  {
    hide ToCached;
    var pc := s.pc[u];
    if JobOf(pc).Some? {
      var r := JobOf(pc).value.rid;
      assert HeldByOther(s, t, r) && WordOk(s, r);
    }
    if VictimOf(pc).Some? {
      var v := VictimOf(pc).value;
      assert HeldByOther(s, t, v) && WordOk(s, v);
    }
  }

  lemma OtherViewOk(s: State, s': State, t: nat, w: View)
    requires Respects(s, s', t) && w.task != t && ViewOk(s, w)
    ensures ViewOk(s', w)
  {
    assert HeldByOther(s, t, w.rid);
  }

  /** The parts of the invariant that an action must establish itself; the rest
      follows from pinning. */
  predicate OwnPart(s: State, s': State, t: nat) {
    && Shape(s') && LocksOk(s') && WordsOk(s') && SlotsOk(s') && ValuesOk(s')
    && t in s'.pc && TaskOk(s', t)
    && (forall w | w in s'.views :: if w.task == t then ViewOk(s', w) else w in s.views)
  }

  lemma Assemble(s: State, s': State, t: nat)
    requires Inv(s) && t in s.pc && Respects(s, s', t) && OwnPart(s, s', t)
    ensures Inv(s')
  {
    hide TaskOk, ViewOk, ValuesOk, LocksOk, SlotsOk;
    forall u | u in s'.pc
      ensures TaskOk(s', u)
    {
      if u != t { OtherTaskOk(s, s', t, u); }
    }
    forall w | w in s'.views
      ensures ViewOk(s', w)
    {
      if w.task != t { OtherViewOk(s, s', t, w); }
    }
  }

  /** Every record keeps its value in the same sense. */
  predicate Steady(s: State, s': State) {
    && s'.schema == s.schema && s'.recs.Keys == s.recs.Keys && s'.storage == s.storage
    && forall r | r in s.recs :: Pending(s', r) == Pending(s, r) && CachedCopy(s', r) == CachedCopy(s, r)
  }

  lemma SteadyValues(s: State, s': State)
    requires Shape(s) && Shape(s') && ValuesOk(s) && Steady(s, s')
    ensures ValuesOk(s')
  {
    hide Pending, CachedCopy;
  }

  lemma SteadyLogical(s: State, s': State)
    requires Inv(s) && Inv(s') && Steady(s, s')
    ensures Logical(s') == Logical(s)
  {
    hide Pending, CachedCopy, WriteBack, LocksOk, WordsOk, SlotsOk, ValuesOk, TasksOk, ViewsOk;
    forall r | r in s.recs
      ensures Sized(s, r) && Sized(s', r) && Truth(s', r) == Truth(s, r)
    {
      CopySized(s, r);
    }
  }

  lemma CopySized(s: State, r: nat)
    requires Inv(s) && r in s.recs
    ensures Sized(s, r)
  {
    hide LocksOk, WordsOk, SlotsOk, ValuesOk, ViewsOk, ToCached;
    var e := s.recs[r].excl;
    if e.Some? && e.value in s.pc { assert TaskOk(s, e.value); }
  }

  // Loads, comparisons and decisions.

  /** The two program counters speak alike about slots and copies. */
  ghost predicate SameTrack(s: State, pc: Pc, pc': Pc) {
    && (forall r :: Away(s, pc', r) == Away(s, pc, r))
    && (forall r, i :: MidFlight(pc', r, i) == MidFlight(pc, r, i))
    && (forall r :: Creating(pc', r) == Creating(pc, r))
  }

  /** The task works on no record that it did not work on before. */
  predicate NoNewWork(pc: Pc, pc': Pc) {
    && (JobOf(pc').Some? ==> JobOf(pc).Some? && JobOf(pc').value.rid == JobOf(pc).value.rid)
    && (VictimOf(pc').Some? ==> VictimOf(pc') == VictimOf(pc))
    && !pc'.UpgradeCas?
  }

  lemma ProbeStanding(s: State, t: nat, a: Action)
    requires t in s.pc && ProbeNext(s, t, a).Some?
    ensures SameTrack(s, s.pc[t], ProbeNext(s, t, a).value) && NoNewWork(s.pc[t], ProbeNext(s, t, a).value)
  {}

  lemma MoveStanding(s: State, t: nat, a: Action)
    requires Shape(s) && t in s.pc && TaskOk(s, t) && MoveNext(s, t, a).Some?
    ensures SameTrack(s, s.pc[t], MoveNext(s, t, a).value) && NoNewWork(s.pc[t], MoveNext(s, t, a).value)
  {
    hide ToCached, JobOk;
  }

  lemma ProbeTask(s: State, t: nat, a: Action)
    requires Shape(s) && SlotsOk(s) && t in s.pc && TaskOk(s, t) && ProbeNext(s, t, a).Some?
    ensures TaskOk(Goto(s, t, ProbeNext(s, t, a).value), t)
  {
    hide ToCached;
    if a.ProbeSlot? { assert SlotOk(s, a.slot); }
  }

  lemma MoveTask(s: State, t: nat, a: Action)
    requires Shape(s) && WordsOk(s) && SlotsOk(s) && t in s.pc && TaskOk(s, t) && MoveNext(s, t, a).Some?
    ensures TaskOk(Goto(s, t, MoveNext(s, t, a).value), t)
  {
    hide ToCached;
    var pc := s.pc[t];
    if pc.Validate? && a.Go? { assert SlotOk(s, pc.slot); }
    if pc.ReloadRid? && a.Go? { assert WordOk(s, pc.victim); }
  }

  lemma QuietSlots(s: State, s': State, t: nat, pc': Pc)
    requires SlotsOk(s) && t in s.pc && SameTrack(s, s.pc[t], pc')
    requires s' == Goto(s, t, pc').(views := s'.views)
    ensures SlotsOk(s')
  {
    hide MidFlight;
    forall i | 0 <= i < |s.entries|
      ensures SlotOk(s', i)
    {
      assert SlotOk(s, i);
    }
  }

  lemma QuietSteady(s: State, s': State, t: nat, pc': Pc)
    requires t in s.pc && SameTrack(s, s.pc[t], pc')
    requires s' == Goto(s, t, pc').(views := s'.views)
    ensures Steady(s, s') && Respects(s, s', t)
  {
    hide Away, Creating;
    SameAway(s, s');
  }

  lemma SameWords(s: State, s': State)
    requires WordsOk(s) && s'.recs == s.recs && s'.entries == s.entries
    ensures WordsOk(s')
  {
    assert forall r | r in s.recs :: WordOk(s, r) && WordOk(s', r);
  }

  lemma SameAway(s: State, s': State)
    requires s'.entries == s.entries
    ensures forall pc: Pc, r: nat :: Away(s', pc, r) == Away(s, pc, r)
  {}

  /** No query result is opened by the action, and those of its task stay right. */
  predicate ViewsShrink(s: State, s': State, t: nat) {
    forall w | w in s'.views :: w in s.views && (w.task == t ==> ViewOk(s', w))
  }

  /** An action that moves only the program counter, on the same track, and
      perhaps ends query results of its task. */
  lemma QuietStep(s: State, s': State, t: nat, pc': Pc)
    requires Inv(s) && t in s.pc && SameTrack(s, s.pc[t], pc')
    requires s' == Goto(s, t, pc').(views := s'.views)
    requires TaskOk(s', t) && ViewsShrink(s, s', t)
    ensures Inv(s') && Respects(s, s', t) && Logical(s') == Logical(s)
  {
    hide TaskOk, ViewOk, SlotOk, SameTrack, Respects, Steady, LockOk, WordOk;
    QuietSteady(s, s', t, pc');
    SteadyValues(s, s');
    QuietSlots(s, s', t, pc');
    assert LocksOk(s');
    SameWords(s, s');
    Assemble(s, s', t);
    SteadyLogical(s, s');
  }

  lemma QuietViews(s: State, s': State, t: nat, pc': Pc)
    requires ViewsOk(s) && t in s.pc && NoNewWork(s.pc[t], pc')
    requires s'.schema == s.schema && s'.recs == s.recs && s'.views == s.views && s'.pc == s.pc[t := pc']
    ensures ViewsShrink(s, s', t)
  {
    hide JobOf, VictimOf, Matches;
    forall w | w in s'.views
      ensures ViewOk(s', w)
    {
      assert ViewOk(s, w);
    }
  }

  lemma ProbeStep(s: State, s': State, t: nat, a: Action)
    requires Inv(s) && t in s.pc && ProbeNext(s, t, a).Some? && s' == Goto(s, t, ProbeNext(s, t, a).value)
    ensures Inv(s') && Respects(s, s', t) && Logical(s') == Logical(s)
  {
    hide TaskOk, SlotsOk, LocksOk, WordsOk, ViewsOk, ValuesOk, Shape, Respects, SameTrack, NoNewWork, ViewsShrink,
         ProbeNext;
    ProbeStanding(s, t, a);
    ProbeTask(s, t, a);
    QuietViews(s, s', t, s'.pc[t]);
    QuietStep(s, s', t, s'.pc[t]);
  }

  lemma MoveStep(s: State, s': State, t: nat, a: Action)
    requires Inv(s) && t in s.pc && MoveNext(s, t, a).Some? && s' == Goto(s, t, MoveNext(s, t, a).value)
    ensures Inv(s') && Respects(s, s', t) && Logical(s') == Logical(s)
  {
    hide TaskOk, SlotsOk, LocksOk, WordsOk, ViewsOk, ValuesOk, Shape, Respects, SameTrack, NoNewWork, ViewsShrink,
         MoveNext;
    MoveStanding(s, t, a);
    MoveTask(s, t, a);
    QuietViews(s, s', t, s'.pc[t]);
    QuietStep(s, s', t, s'.pc[t]);
  }

  // Taking and dropping locks.

  /** The task is not moving record `r`. */
  ghost predicate Inert(s: State, pc: Pc, r: nat) {
    && Away(s, pc, r) == None && !Creating(pc, r)
    && forall i :: !MidFlight(pc, r, i)
  }

  /** The lock part of the word of `r` changes, with its guards. */
  ghost predicate LockChange(s: State, s': State, t: nat, r: nat, rec': Rec, pc': Pc)
    requires t in s.pc
  {
    && r in s.recs
    && s' == SetRec(Goto(s, t, pc'), r, rec').(views := s'.views)
    && rec'.word.loc == s.recs[r].word.loc && LockOk(rec', r)
    && (s.recs[r].excl == None || s.recs[r].excl == Some(t))
    && (rec'.excl == None || rec'.excl == Some(t))
    && (forall g | g in s.recs[r].shared && g.task != t :: g in rec'.shared)
    && SameTrack(s, s.pc[t], pc')
    && (rec'.excl != s.recs[r].excl ==> Inert(s, s.pc[t], r))
  }

  lemma LockChangeSlots(s: State, s': State, t: nat, r: nat, rec': Rec, pc': Pc)
    requires SlotsOk(s) && t in s.pc && LockChange(s, s', t, r, rec', pc')
    ensures SlotsOk(s')
  {
    hide MidFlight, Away, Creating, LockOk;
    forall i | 0 <= i < |s.entries|
      ensures SlotOk(s', i)
    {
      assert SlotOk(s, i);
    }
  }

  lemma LockChangeSteady(s: State, s': State, t: nat, r: nat, rec': Rec, pc': Pc)
    requires t in s.pc && LockChange(s, s', t, r, rec', pc')
    ensures Steady(s, s') && Respects(s, s', t)
  {
    hide MidFlight, Away, Creating, LockOk;
    SameAway(s, s');
  }

  lemma LockChangeStep(s: State, s': State, t: nat, r: nat, rec': Rec, pc': Pc)
    requires Inv(s) && t in s.pc && LockChange(s, s', t, r, rec', pc')
    requires TaskOk(s', t) && ViewsShrink(s, s', t)
    ensures Inv(s') && Respects(s, s', t) && Logical(s') == Logical(s)
  {
    hide TaskOk, ViewOk, SlotOk, SameTrack, Inert, Respects, Steady, LockOk;
    LockChangeSteady(s, s', t, r, rec', pc');
    SteadyValues(s, s');
    LockChangeSlots(s, s', t, r, rec', pc');
    assert forall q | q in s'.recs :: WordOk(s, q) && WordOk(s', q);
    Assemble(s, s', t);
    SteadyLogical(s, s');
  }

  /** Query results of the task stay right when a record that none of them is
      about changes, or when only guards are added to it. */
  lemma GrantViews(s: State, s': State, t: nat, r: nat, pc': Pc)
    requires ViewsOk(s) && t in s.pc && r in s.recs && r in s'.recs
    requires s' == SetRec(Goto(s, t, pc'), r, s'.recs[r])
    requires s'.recs[r].word.loc == s.recs[r].word.loc && !pc'.UpgradeCas?
    requires s.recs[r].shared <= s'.recs[r].shared && (s'.recs[r].excl == s.recs[r].excl || s.recs[r].excl == None)
    requires JobOf(pc').Some? ==> JobOf(pc') == JobOf(s.pc[t])
    requires VictimOf(pc').Some? ==>
               VictimOf(pc') == VictimOf(s.pc[t]) || (VictimOf(pc').value == r && s.recs[r].excl == None &&
                   s.recs[r].shared == {})
    ensures ViewsShrink(s, s', t)
  {
    hide JobOf, VictimOf, Matches;
    forall w | w in s'.views && w.task == t
      ensures ViewOk(s', w)
    {
      assert ViewOk(s, w);
    }
  }

  lemma ReadChange(s: State, s': State, t: nat, a: Action)
    requires Shape(s) && LocksOk(s) && t in s.pc && TaskOk(s, t)
    requires s.pc[t].ReadCas? && LockGranted(s, s', t, a)
    ensures var r := s.pc[t].rid; r in s'.recs && LockChange(s, s', t, r, s'.recs[r], Idle) && TaskOk(s', t)
  {
    var r := s.pc[t].rid;
    assert LockOk(s.recs[r], r);
  }

  lemma WriteChange(s: State, s': State, t: nat, a: Action)
    requires Shape(s) && LocksOk(s) && t in s.pc && TaskOk(s, t)
    requires s.pc[t].WriteCas? && LockGranted(s, s', t, a)
    ensures var r := s.pc[t].rid;
            && r in s'.recs && s.recs[r].excl == None && s.recs[r].shared == {}
            && LockChange(s, s', t, r, s'.recs[r], Idle) && TaskOk(s', t)
  {
    var r := s.pc[t].rid;
    assert LockOk(s.recs[r], r);
  }

  lemma VictimChange(s: State, s': State, t: nat, a: Action)
    requires Shape(s) && LocksOk(s) && t in s.pc && TaskOk(s, t)
    requires s.pc[t].LockCas? && LockGranted(s, s', t, a)
    ensures var v := s.pc[t].victim;
            && v in s'.recs && s.recs[v].excl == None && s.recs[v].shared == {}
            && LockChange(s, s', t, v, s'.recs[v], s'.pc[t]) && TaskOk(s', t)
  {
    hide ToCached;
    var v := s.pc[t].victim;
    assert LockOk(s.recs[v], v);
  }

  lemma GrantStep(s: State, s': State, t: nat, a: Action)
    requires Inv(s) && t in s.pc && !s.pc[t].UpgradeCas? && LockGranted(s, s', t, a)
    ensures Inv(s') && Respects(s, s', t) && Logical(s') == Logical(s)
  {
    hide TaskOk, SlotsOk, LocksOk, WordsOk, ViewsOk, ValuesOk, Shape, Respects, ViewsShrink, LockChange;
    if s.pc[t].ReadCas? {
      ReadChange(s, s', t, a);
      GrantViews(s, s', t, s.pc[t].rid, Idle);
      LockChangeStep(s, s', t, s.pc[t].rid, s'.recs[s.pc[t].rid], Idle);
    } else if s.pc[t].WriteCas? {
      WriteChange(s, s', t, a);
      GrantViews(s, s', t, s.pc[t].rid, Idle);
      LockChangeStep(s, s', t, s.pc[t].rid, s'.recs[s.pc[t].rid], Idle);
    } else {
      var v := s.pc[t].victim;
      VictimChange(s, s', t, a);
      GrantViews(s, s', t, v, s'.pc[t]);
      LockChangeStep(s, s', t, v, s'.recs[v], s'.pc[t]);
    }
  }

  lemma UpgradeChange(s: State, s': State, t: nat, a: Action)
    requires Shape(s) && LocksOk(s) && t in s.pc && TaskOk(s, t)
    requires s.pc[t].UpgradeCas? && LockGranted(s, s', t, a)
    ensures var g := s.pc[t].guard; var r := g.rid;
            && r in s'.recs && s.recs[r].excl == None && s.recs[r].shared == {g}
            && LockChange(s, s', t, r, s'.recs[r], Idle) && TaskOk(s', t)
  {
    var g := s.pc[t].guard;
    var a := s.recs[g.rid].shared;
    assert LockOk(s.recs[g.rid], g.rid);
    assert |a - {g}| == 0;
    assert a == (a - {g}) + {g};
  }

  lemma UpgradeStep(s: State, s': State, t: nat, a: Action)
    requires Inv(s) && t in s.pc && s.pc[t].UpgradeCas? && LockGranted(s, s', t, a)
    ensures Inv(s') && Respects(s, s', t) && Logical(s') == Logical(s)
  {
    hide SlotsOk, LocksOk, WordsOk, TasksOk, TaskOk, ValuesOk, Shape, Respects, LockChange, Matches;
    assert TaskOk(s, t) by { InvTask(s, t); }
    UpgradeChange(s, s', t, a);
    var r := s.pc[t].guard.rid;
    forall w | w in s'.views && w.task == t
      ensures ViewOk(s', w)
    {
      assert ViewOk(s, w);
    }
    LockChangeStep(s, s', t, r, s'.recs[r], Idle);
  }

  lemma InvTask(s: State, t: nat)
    requires Inv(s) && t in s.pc
    ensures TaskOk(s, t)
  {
    hide TaskOk, SlotsOk, LocksOk, WordsOk, ViewsOk, ValuesOk;
  }

  /** A task lets go of a record it had locked for eviction. */
  lemma LetGoChange(s: State, s': State, t: nat, a: Action)
    requires Shape(s) && LocksOk(s) && t in s.pc && TaskOk(s, t)
    requires (s.pc[t].DropStale? || s.pc[t].DropVictim?) && WordNext(s, s', t, a)
    ensures var v := s.pc[t].victim;
            v in s'.recs && LockChange(s, s', t, v, s'.recs[v], s'.pc[t]) && TaskOk(s', t)
  {
    hide ToCached;
    var v := s.pc[t].victim;
    assert LockOk(s.recs[v], v);
  }

  lemma LetGoStep(s: State, s': State, t: nat, a: Action)
    requires Inv(s) && t in s.pc && (s.pc[t].DropStale? || s.pc[t].DropVictim?) && WordNext(s, s', t, a)
    ensures Inv(s') && Respects(s, s', t) && Logical(s') == Logical(s)
  {
    hide SlotsOk, WordsOk, TasksOk, TaskOk, ValuesOk, Shape, Respects, LockChange, Matches;
    InvTask(s, t);
    LetGoChange(s, s', t, a);
    var v := s.pc[t].victim;
    assert LockOk(s.recs[v], v);
    forall w | w in s'.views && w.task == t
      ensures ViewOk(s', w)
    {
      assert ViewOk(s, w);
    }
    LockChangeStep(s, s', t, v, s'.recs[v], s'.pc[t]);
  }

  // Re-addressing a record.

  /** The task stores a new payload into the word of a record it has write
      locked. */
  predicate Readdressed(s: State, s': State, t: nat, r: nat, loc: Loc, pc': Pc) {
    && t in s.pc && Holds(s, t, r)
    && s' == SetRec(Goto(s, t, pc'), r, s.recs[r].(word := s.recs[r].word.(loc := loc)))
  }

  lemma ReaddressedLocks(s: State, s': State, t: nat, r: nat, loc: Loc, pc': Pc)
    requires Shape(s) && LocksOk(s) && Readdressed(s, s', t, r, loc, pc')
    ensures Shape(s') && LocksOk(s') && Respects(s, s', t)
  {
    assert LockOk(s.recs[r], r);
  }

  lemma ReaddressedViews(s: State, s': State, t: nat, r: nat, loc: Loc, pc': Pc)
    requires LocksOk(s) && ViewsOk(s) && Readdressed(s, s', t, r, loc, pc')
    requires JobOf(s.pc[t]).Some? && JobOf(pc') == JobOf(s.pc[t]) && VictimOf(pc') == VictimOf(s.pc[t])
    requires JobOf(pc').value.rid == r || VictimOf(pc') == Some(r)
    ensures ViewsShrink(s, s', t)
  {
    hide VictimOf, Matches;
    assert LockOk(s.recs[r], r);
    forall w | w in s'.views && w.task == t
      ensures ViewOk(s', w)
    {
      assert ViewOk(s, w);
    }
  }

  /** `store_rid` on the victim: the loaded word is still current, the slot still
      names the victim and its task is now moving it out. */
  lemma RidStored(s: State, s': State, t: nat, a: Action)
    requires Shape(s) && LocksOk(s) && WordsOk(s) && t in s.pc && TaskOk(s, t)
    requires s.pc[t].RidStore? && WordNext(s, s', t, a)
    ensures var pc := s.pc[t];
            && Readdressed(s, s', t, pc.victim, AtRid(pc.victim), ReadOld(pc.job, pc.slot, pc.victim))
            && WordsOk(s') && TaskOk(s', t)
  {
    hide ToCached;
    var v := s.pc[t].victim;
    assert WordOk(s, v);
    assert forall r | r in s.recs :: WordOk(s, r) && WordOk(s', r);
  }

  lemma RidStoredSlots(s: State, s': State, t: nat)
    requires SlotsOk(s) && t in s.pc && s.pc[t].RidStore?
    requires var pc := s.pc[t]; Readdressed(s, s', t, pc.victim, AtRid(pc.victim), ReadOld(pc.job, pc.slot, pc.victim))
    requires LocOf(s, s.pc[t].victim) == AtSlot(s.pc[t].slot) && s.pc[t].slot < |s.entries|
    ensures SlotsOk(s') && Steady(s, s')
  {
    forall j | 0 <= j < |s.entries|
      ensures SlotOk(s', j)
    {
      assert SlotOk(s, j);
    }
  }

  lemma RidStoreStep(s: State, s': State, t: nat, a: Action)
    requires Inv(s) && t in s.pc && s.pc[t].RidStore? && WordNext(s, s', t, a)
    ensures Inv(s') && Respects(s, s', t) && Logical(s') == Logical(s)
  {
    hide SlotsOk, LocksOk, WordOk, ViewsOk, ValuesOk, Shape, Respects, Matches, ToCached, ViewsShrink, Steady;
    InvTask(s, t);
    var pc := s.pc[t];
    var pc' := ReadOld(pc.job, pc.slot, pc.victim);
    RidStored(s, s', t, a);
    assert WordOk(s, pc.victim);
    SlotBound(s, pc.victim);
    ReaddressedLocks(s, s', t, pc.victim, AtRid(pc.victim), pc');
    ReaddressedViews(s, s', t, pc.victim, AtRid(pc.victim), pc');
    RidStoredSlots(s, s', t);
    SteadyStep(s, s', t);
  }

  lemma SlotBound(s: State, r: nat)
    requires r in s.recs && WordOk(s, r)
    ensures LocOf(s, r).AtSlot? ==> LocOf(s, r).slot < |s.entries|
  {}

  /** Putting the pieces together for an action that keeps every value. */
  lemma SteadyStep(s: State, s': State, t: nat)
    requires Inv(s) && t in s.pc && Respects(s, s', t) && Steady(s, s')
    requires Shape(s') && LocksOk(s') && WordsOk(s') && SlotsOk(s') && TaskOk(s', t) && ViewsShrink(s, s', t)
    ensures Inv(s') && Logical(s') == Logical(s)
  {
    hide SlotsOk, LocksOk, WordsOk, TaskOk, ValuesOk, ViewOk, Shape, Steady;
    SteadyValues(s, s');
    assert t in s'.pc;
    Assemble(s, s', t);
    SteadyLogical(s, s');
  }

  /** `store_index` on the placed record: the loaded word is still current and
      the slot already names the record and holds its columns. */
  lemma IndexStored(s: State, s': State, t: nat, a: Action)
    requires Shape(s) && LocksOk(s) && WordsOk(s) && t in s.pc && TaskOk(s, t)
    requires s.pc[t].IndexStore? && WordNext(s, s', t, a)
    ensures var pc := s.pc[t];
            && Readdressed(s, s', t, pc.job.rid, AtSlot(pc.slot), s'.pc[t])
            && WordsOk(s') && TaskOk(s', t)
            && JobOf(s'.pc[t]) == JobOf(pc) && VictimOf(s'.pc[t]) == VictimOf(pc)
            && LocOf(s, pc.job.rid).AtRid?
  {
    hide ToCached;
    assert forall r | r in s.recs :: WordOk(s, r) && WordOk(s', r);
  }

  lemma IndexStoredSlots(s: State, s': State, t: nat, a: Action)
    requires SlotsOk(s) && t in s.pc && s.pc[t].IndexStore? && WordNext(s, s', t, a)
    requires Readdressed(s, s', t, s.pc[t].job.rid, AtSlot(s.pc[t].slot), s'.pc[t])
    requires LocOf(s, s.pc[t].job.rid).AtRid?
    ensures SlotsOk(s')
  {
    forall j | 0 <= j < |s.entries|
      ensures SlotOk(s', j)
    {
      assert SlotOk(s, j);
    }
  }

  lemma IndexStoredCopies(s: State, s': State, t: nat, a: Action, r: nat)
    requires Shape(s) && t in s.pc && s.pc[t].IndexStore? && TaskOk(s, t) && WordNext(s, s', t, a)
    requires r in s.recs
    ensures r in s'.recs && Pending(s', r) == Pending(s, r)
    ensures r != s.pc[t].job.rid ==> CachedCopy(s', r) == CachedCopy(s, r)
    ensures r == s.pc[t].job.rid ==>
              CachedCopy(s, r) == None && CachedCopy(s', r) == Some(s.pc[t].job.node.val) &&
                  Pending(s, r) == s.pc[t].job.created.Some?
  {
    hide ToCached;
  }

  /** Placing a record does not change any logical tuple: its cached columns were
      copied from storage, and storage did not change since. */
  lemma IndexStoredValues(s: State, s': State, t: nat, a: Action, r: nat)
    requires Shape(s) && Shape(s') && t in s.pc && s.pc[t].IndexStore? && TaskOk(s, t) && WordNext(s, s', t, a)
    requires r in s.recs && Sized(s, r)
    requires !Pending(s, r) && CachedCopy(s, r).Some? ==> Frozen(s.schema, CachedCopy(s, r).value, s.storage[r])
    ensures r in s'.recs && Pending(s', r) == Pending(s, r) && Sized(s', r)
    ensures !Pending(s, r) ==> Truth(s', r) == Truth(s, r)
    ensures !Pending(s, r) && CachedCopy(s', r).Some? ==> Frozen(s.schema, CachedCopy(s', r).value, s.storage[r])
  {
    hide WriteBack, ToCached, Frozen, CachedCopy, Pending;
    IndexStoredCopies(s, s', t, a, r);
    if r == s.pc[t].job.rid && s.pc[t].job.created.None? {
      WriteBackToCached(s.schema, s.storage[r]);
    }
  }

  lemma IndexStoreStep(s: State, s': State, t: nat, a: Action)
    requires Inv(s) && t in s.pc && s.pc[t].IndexStore? && WordNext(s, s', t, a)
    ensures Inv(s') && Respects(s, s', t) && Logical(s') == Logical(s)
  {
    hide SlotsOk, LocksOk, WordsOk, ViewsOk, Shape, Respects, Matches, ToCached, ViewOk, Truth, Pending, CachedCopy,
         Frozen, TaskOk, Sized;
    InvTask(s, t);
    var pc := s.pc[t];
    IndexStored(s, s', t, a);
    ReaddressedLocks(s, s', t, pc.job.rid, AtSlot(pc.slot), s'.pc[t]);
    ReaddressedViews(s, s', t, pc.job.rid, AtSlot(pc.slot), s'.pc[t]);
    IndexStoredSlots(s, s', t, a);
    forall r | r in s.recs
      ensures Pending(s', r) == Pending(s, r) && Sized(s, r) && Sized(s', r)
      ensures !Pending(s, r) ==> Truth(s', r) == Truth(s, r)
      ensures !Pending(s, r) && CachedCopy(s', r).Some? ==> Frozen(s.schema, CachedCopy(s', r).value, s.storage[r])
    {
      CopySized(s, r);
      IndexStoredValues(s, s', t, a, r);
    }
    assert ValuesOk(s');
    Assemble(s, s', t);
  }

  // Changing a slot.

  /** Setting or clearing a reference bit, even that of a node that has been
      replaced meanwhile, is harmless. */
  lemma RefStep(s: State, s': State, t: nat, pc': Pc, i: nat, b: bool)
    requires Inv(s) && t in s.pc && i < |s.entries| && SameTrack(s, s.pc[t], pc') && NoNewWork(s.pc[t], pc')
    requires s' == SetEntry(Goto(s, t, pc'), i, s.entries[i].(refd := b))
    requires TaskOk(Goto(s, t, pc'), t)
    ensures Inv(s') && Respects(s, s', t) && Logical(s') == Logical(s)
  {
    hide SlotsOk, LocksOk, WordsOk, ViewsOk, ValuesOk, TaskOk, Respects, SameTrack, NoNewWork, ViewsShrink, ViewOk,
         Logical;
    var m := Goto(s, t, pc');
    QuietViews(s, m, t, pc');
    QuietStep(s, m, t, pc');
    RefOnly(m, s', i, b);
    RefRespects(s, m, s', t);
  }

  lemma RefOnly(s: State, s': State, i: nat, b: bool)
    requires Inv(s) && i < |s.entries| && s' == SetEntry(s, i, s.entries[i].(refd := b))
    ensures Inv(s') && Logical(s') == Logical(s)
  {
    hide ToCached, WriteBack, Frozen, Matches, TaskOk;
    assert forall pc: Pc, r: nat :: Away(s', pc, r) == Away(s, pc, r);
    assert Steady(s, s');
    SteadyValues(s, s');
    assert forall r | r in s.recs :: WordOk(s, r) && WordOk(s', r);
    forall j | 0 <= j < |s.entries|
      ensures SlotOk(s', j)
    {
      assert SlotOk(s, j);
    }
    assert forall w | w in s.views :: ViewOk(s, w) && ViewOk(s', w);
    forall t | t in s.pc
      ensures TaskOk(s', t)
    {
      RefTask(s, s', i, b, t);
    }
    SteadyLogical(s, s');
  }

  lemma RefTask(s: State, s': State, i: nat, b: bool, t: nat)
    requires Shape(s) && i < |s.entries| && s' == SetEntry(s, i, s.entries[i].(refd := b))
    requires t in s.pc && TaskOk(s, t)
    ensures Shape(s') && TaskOk(s', t)
  {
    hide ToCached;
  }

  lemma RefRespects(s: State, m: State, s': State, t: nat)
    requires Respects(s, m, t) && s' == m.(entries := s'.entries) && |s'.entries| == |m.entries|
    requires forall j :: 0 <= j < |m.entries| ==>
               s'.entries[j].rid == m.entries[j].rid && s'.entries[j].val == m.entries[j].val
    ensures Respects(s, s', t)
  {}

  /** Nobody's word points at the slot, so the slot may be renamed. */
  lemma UnaddressedSlot(s: State, i: nat)
    requires Shape(s) && WordsOk(s) && i < |s.entries|
    requires s.entries[i].rid in s.recs ==> LocOf(s, s.entries[i].rid).AtRid?
    ensures forall r | r in s.recs :: LocOf(s, r) != AtSlot(i)
  {
    forall r | r in s.recs
      ensures LocOf(s, r) != AtSlot(i)
    {
      assert WordOk(s, r);
    }
  }

  /** The slot the task is working on, before and after the action. */
  predicate SlotChange(s: State, s': State, t: nat, i: nat, e: Entry, pc': Pc) {
    && t in s.pc && i < |s.entries| && s' == SetEntry(Goto(s, t, pc'), i, e)
    && |e.val| == |s.schema.fields|
    && (s.entries[i].rid == EMPTY || Holds(s, t, s.entries[i].rid))
    && (forall r | r in s.recs :: LocOf(s, r) != AtSlot(i))
    && NoNewWork(s.pc[t], pc')
  }

  lemma SlotChangeFrame(s: State, s': State, t: nat, i: nat, e: Entry, pc': Pc)
    requires Shape(s) && LocksOk(s) && WordsOk(s) && ViewsOk(s) && SlotChange(s, s', t, i, e, pc')
    ensures Shape(s') && LocksOk(s') && WordsOk(s') && Respects(s, s', t) && ViewsShrink(s, s', t)
  {
    hide NoNewWork, ViewOk, ViewsOk, LockOk;
    QuietViews(s, s', t, pc');
    assert forall r | r in s.recs :: WordOk(s, r) && WordOk(s', r);
    assert !HeldByOther(s, t, s.entries[i].rid) by {
      if s.entries[i].rid != EMPTY { NotOther(s, t, s.entries[i].rid); }
    }
  }

  lemma NotOther(s: State, t: nat, r: nat)
    requires LocksOk(s) && Holds(s, t, r)
    ensures !HeldByOther(s, t, r)
  {
    assert LockOk(s.recs[r], r);
  }

  /** Another task that is taking a victim out of slot `i` would hold the lock of
      the record that the slot names. */
  lemma NobodyReads(s: State, t: nat, i: nat, u: nat)
    requires Shape(s) && i < |s.entries| && u in s.pc && u != t && TaskOk(s, u)
    requires s.entries[i].rid == EMPTY || Holds(s, t, s.entries[i].rid)
    ensures !(s.pc[u].ReadOld? && s.pc[u].slot == i)
  {
    hide ToCached;
  }

  lemma SlotChangeSteady(s: State, s': State, t: nat, i: nat, e: Entry, pc': Pc)
    requires Shape(s) && TasksOk(s) && SlotChange(s, s', t, i, e, pc')
    requires forall r :: Away(s', pc', r) == Away(s, s.pc[t], r) && Creating(pc', r) == Creating(s.pc[t], r)
    ensures Steady(s, s')
  {
    hide TaskOk, Creating, NoNewWork;
    forall r | r in s.recs
      ensures CachedCopy(s', r) == CachedCopy(s, r)
    {
      var x := s.recs[r].excl;
      if x.Some? && x.value in s.pc && x.value != t { NobodyReads(s, t, i, x.value); }
    }
  }

  /** The compare-and-swap on an empty slot. */
  lemma ClaimSlot(s: State, s': State, t: nat, a: Action)
    requires Shape(s) && WordsOk(s) && SlotsOk(s) && t in s.pc && TaskOk(s, t)
    requires s.pc[t].CasEmpty? && SlotNext(s, s', t, a)
    ensures var pc := s.pc[t];
            && SlotChange(s, s', t, pc.slot, s'.entries[pc.slot], s'.pc[t])
            && (forall r ::
                  Away(s', s'.pc[t], r) == Away(s, s.pc[t], r) && Creating(s'.pc[t], r) == Creating(s.pc[t], r))
            && TaskOk(s', t) && SlotsOk(s')
  {
    hide ToCached;
    var i := s.pc[t].slot;
    UnaddressedSlot(s, i);
    forall j | 0 <= j < |s.entries|
      ensures SlotOk(s', j)
    {
      assert SlotOk(s, j);
    }
  }

  /** The head of the node: the slot is renamed from the victim, or from the
      claim, to the job. */
  lemma HeadWritten(s: State, s': State, t: nat, a: Action)
    requires Shape(s) && WordsOk(s) && SlotsOk(s) && t in s.pc && TaskOk(s, t)
    requires s.pc[t].WriteHead? && SlotNext(s, s', t, a)
    ensures var pc := s.pc[t];
            && SlotChange(s, s', t, pc.slot, s'.entries[pc.slot], s'.pc[t])
            && (forall r ::
                  Away(s', s'.pc[t], r) == Away(s, s.pc[t], r) && Creating(s'.pc[t], r) == Creating(s.pc[t], r))
            && TaskOk(s', t)
  {
    hide ToCached;
    UnaddressedSlot(s, s.pc[t].slot);
  }

  lemma HeadWrittenSlots(s: State, s': State, t: nat, a: Action)
    requires Shape(s) && SlotsOk(s) && t in s.pc && TaskOk(s, t)
    requires s.pc[t].WriteHead? && SlotNext(s, s', t, a)
    ensures SlotsOk(s')
  {
    hide ToCached;
    forall j | 0 <= j < |s.entries|
      ensures SlotOk(s', j)
    {
      assert SlotOk(s, j);
    }
  }

  /** The columns of the node. */
  lemma ValWritten(s: State, s': State, t: nat, a: Action)
    requires Shape(s) && WordsOk(s) && SlotsOk(s) && t in s.pc && TaskOk(s, t)
    requires s.pc[t].WriteVal? && SlotNext(s, s', t, a)
    ensures var pc := s.pc[t];
            && SlotChange(s, s', t, pc.slot, s'.entries[pc.slot], s'.pc[t])
            && (forall r ::
                  Away(s', s'.pc[t], r) == Away(s, s.pc[t], r) && Creating(s'.pc[t], r) == Creating(s.pc[t], r))
            && TaskOk(s', t) && SlotsOk(s')
  {
    hide ToCached;
    UnaddressedSlot(s, s.pc[t].slot);
    forall j | 0 <= j < |s.entries|
      ensures SlotOk(s', j)
    {
      assert SlotOk(s, j);
    }
  }

  lemma FillStep(s: State, s': State, t: nat, a: Action)
    requires Inv(s) && t in s.pc && SlotNext(s, s', t, a)
    requires s.pc[t].CasEmpty? || s.pc[t].WriteHead? || s.pc[t].WriteVal?
    ensures Inv(s') && Respects(s, s', t) && Logical(s') == Logical(s)
  {
    hide TaskOk, SlotsOk, LocksOk, WordsOk, ViewsOk, ValuesOk, Shape, Respects, ViewsShrink, SlotChange, Steady, Away,
         Creating, Logical;
    InvTask(s, t);
    var pc := s.pc[t];
    if pc.CasEmpty? {
      ClaimSlot(s, s', t, a);
    } else if pc.WriteHead? {
      HeadWritten(s, s', t, a);
      HeadWrittenSlots(s, s', t, a);
    } else {
      ValWritten(s, s', t, a);
    }
    SlotChangeFrame(s, s', t, pc.slot, s'.entries[pc.slot], s'.pc[t]);
    SlotChangeSteady(s, s', t, pc.slot, s'.entries[pc.slot], s'.pc[t]);
    SteadyStep(s, s', t);
  }

  lemma RefTrack(s: State, s': State, t: nat, a: Action)
    requires Shape(s) && t in s.pc && TaskOk(s, t)
    requires (s.pc[t].ClearRef? || s.pc[t].SetRef?) && SlotNext(s, s', t, a)
    ensures var pc' := s'.pc[t];
            SameTrack(s, s.pc[t], pc') && NoNewWork(s.pc[t], pc') && TaskOk(Goto(s, t, pc'), t)
  {
    hide ToCached;
  }

  lemma SlotStep(s: State, s': State, t: nat, a: Action)
    requires Inv(s) && t in s.pc && SlotNext(s, s', t, a)
    ensures Inv(s') && Respects(s, s', t) && Logical(s') == Logical(s)
  {
    hide TaskOk, SlotsOk, LocksOk, WordsOk, ViewsOk, ValuesOk, Shape, Respects, SameTrack, NoNewWork, Logical;
    var pc := s.pc[t];
    if pc.ClearRef? || pc.SetRef? {
      InvTask(s, t);
      RefTrack(s, s', t, a);
      RefStep(s, s', t, s'.pc[t], pc.slot, pc.SetRef?);
    } else {
      FillStep(s, s', t, a);
    }
  }

  // Write-back, delivery and insertion.

  /** The write-back moves the newest columns of the victim from the task's hands
      to storage; no logical tuple changes. */
  lemma WrittenBack(s: State, s': State, t: nat, a: Action, l: Label)
    requires Shape(s) && LocksOk(s) && WordsOk(s) && SlotsOk(s) && ViewsOk(s) && t in s.pc && TaskOk(s, t)
    requires s.pc[t].WriteOld? && FinishNext(s, s', t, a, l)
    ensures Shape(s') && LocksOk(s') && WordsOk(s') && Respects(s, s', t) && TaskOk(s', t)
    ensures ViewsShrink(s, s', t)
  {
    hide ToCached, WriteBack;
    NotOther(s, t, s.pc[t].evicted.rid);
    QuietViews(s, s', t, s'.pc[t]);
    assert forall r | r in s.recs :: WordOk(s, r) && WordOk(s', r);
  }

  lemma WrittenBackSlots(s: State, s': State, t: nat, a: Action, l: Label)
    requires SlotsOk(s) && t in s.pc && s.pc[t].WriteOld? && FinishNext(s, s', t, a, l)
    ensures SlotsOk(s')
  {
    forall j | 0 <= j < |s.entries|
      ensures SlotOk(s', j)
    {
      assert SlotOk(s, j);
    }
  }

  lemma WrittenBackValue(s: State, s': State, t: nat, a: Action, l: Label, r: nat)
    requires Shape(s) && Shape(s') && t in s.pc && TaskOk(s, t) && s.pc[t].WriteOld? && FinishNext(s, s', t, a, l)
    requires r in s.recs && Sized(s, r)
    requires !Pending(s, r) && CachedCopy(s, r).Some? ==> Frozen(s.schema, CachedCopy(s, r).value, s.storage[r])
    ensures r in s'.recs && Pending(s', r) == Pending(s, r) && Sized(s', r)
    ensures Truth(s', r) == Truth(s, r)
    ensures !Pending(s, r) && CachedCopy(s', r).Some? ==> Frozen(s.schema, CachedCopy(s', r).value, s'.storage[r])
  {
    hide WriteBack, ToCached, Frozen;
  }

  lemma WriteOldStep(s: State, s': State, t: nat, a: Action, l: Label)
    requires Inv(s) && t in s.pc && s.pc[t].WriteOld? && FinishNext(s, s', t, a, l)
    ensures Inv(s') && Respects(s, s', t) && Logical(s') == Logical(s)
  {
    hide SlotsOk, LocksOk, WordsOk, ViewsOk, Shape, Respects, Matches, ToCached, ViewOk, Truth, Pending, CachedCopy,
         Frozen, TaskOk;
    InvTask(s, t);
    WrittenBack(s, s', t, a, l);
    WrittenBackSlots(s, s', t, a, l);
    forall r | r in s.recs
      ensures Pending(s', r) == Pending(s, r) && Sized(s, r) && Sized(s', r)
      ensures Truth(s', r) == Truth(s, r)
      ensures !Pending(s, r) && CachedCopy(s', r).Some? ==> Frozen(s.schema, CachedCopy(s', r).value, s'.storage[r])
    {
      CopySized(s, r);
      WrittenBackValue(s, s', t, a, l, r);
    }
    assert ValuesOk(s');
    Assemble(s, s', t);
  }

  /** Opening a query result. */
  lemma AddView(s: State, w: View)
    requires Inv(s) && ViewOk(s, w)
    ensures var s' := s.(views := s.views + {w}); Inv(s') && Logical(s') == Logical(s)
  {
    hide ToCached, WriteBack, Frozen, Matches, TaskOk, LockOk;
    var s' := s.(views := s.views + {w});
    SameAway(s, s');
    assert Steady(s, s');
    SteadyValues(s, s');
    SameWords(s, s');
    forall j | 0 <= j < |s.entries|
      ensures SlotOk(s', j)
    {
      assert SlotOk(s, j);
    }
    assert forall v | v in s.views :: ViewOk(s, v) && ViewOk(s', v);
    forall t | t in s.pc
      ensures TaskOk(s', t)
    {
      ViewlessTask(s, s', t);
    }
    SteadyLogical(s, s');
  }

  lemma ViewlessTask(s: State, s': State, t: nat)
    requires Shape(s) && s' == s.(views := s'.views) && t in s.pc && TaskOk(s, t)
    ensures Shape(s') && TaskOk(s', t)
  {
    hide ToCached;
  }

  lemma DeliveredView(s: State, t: nat)
    requires Inv(s) && t in s.pc && s.pc[t].Deliver?
    ensures var job := s.pc[t].job;
            ViewOk(Goto(s, t, Idle), MakeView(s, t, job.rid, None, job.query, s.pc[t].found))
  {
    hide ToCached, SlotsOk, LocksOk, ValuesOk, ViewsOk, Matches;
    InvTask(s, t);
    assert WordOk(s, s.pc[t].job.rid);
  }

  lemma DeliverStep(s: State, s': State, t: nat, a: Action, l: Label)
    requires Inv(s) && t in s.pc && s.pc[t].Deliver? && FinishNext(s, s', t, a, l)
    ensures Inv(s') && Respects(s, s', t) && Logical(s') == Logical(s)
  {
    hide SlotsOk, LocksOk, WordsOk, ValuesOk, ViewsOk, Shape, Matches, ViewOk, MakeView, Logical;
    var m := Goto(s, t, Idle);
    InvTask(s, t);
    QuietViews(s, m, t, Idle);
    QuietStep(s, m, t, Idle);
    DeliveredView(s, t);
    AddView(m, MakeView(s, t, s.pc[t].job.rid, None, s.pc[t].job.query, s.pc[t].found));
  }

  /** The last action of an insertion: the record becomes part of the logical
      contents with exactly the inserted tuple, cached or not. */
  lemma StoredNew(s: State, s': State, t: nat, a: Action, l: Label)
    requires Shape(s) && LocksOk(s) && WordsOk(s) && SlotsOk(s) && ViewsOk(s) && t in s.pc && TaskOk(s, t)
    requires s.pc[t].StorageInsert? && FinishNext(s, s', t, a, l)
    ensures Shape(s') && LocksOk(s') && WordsOk(s') && Respects(s, s', t) && TaskOk(s', t)
    ensures ViewsShrink(s, s', t)
  {
    hide ToCached;
    NotOther(s, t, s.pc[t].job.rid);
    QuietViews(s, s', t, Idle);
    assert forall r | r in s.recs :: WordOk(s, r) && WordOk(s', r);
  }

  lemma StoredNewSlots(s: State, s': State, t: nat, a: Action, l: Label)
    requires SlotsOk(s) && t in s.pc && s.pc[t].StorageInsert? && FinishNext(s, s', t, a, l)
    ensures SlotsOk(s')
  {
    forall j | 0 <= j < |s.entries|
      ensures SlotOk(s', j)
    {
      assert SlotOk(s, j);
    }
  }

  lemma StoredNewValue(s: State, s': State, t: nat, a: Action, l: Label, r: nat)
    requires Shape(s) && Shape(s') && t in s.pc && TaskOk(s, t) && s.pc[t].StorageInsert? && FinishNext(s, s', t, a, l)
    requires r in s.recs && Sized(s, r)
    requires !Pending(s, r) && CachedCopy(s, r).Some? ==> Frozen(s.schema, CachedCopy(s, r).value, s.storage[r])
    ensures r in s'.recs && Sized(s', r) && !(r == s.pc[t].job.rid && Pending(s', r))
    ensures r != s.pc[t].job.rid ==> Pending(s', r) == Pending(s, r) && Truth(s', r) == Truth(s, r)
    ensures r == s.pc[t].job.rid ==> Pending(s, r) && Truth(s', r) == s.pc[t].job.created.value
    ensures !Pending(s', r) && CachedCopy(s', r).Some? ==> Frozen(s.schema, CachedCopy(s', r).value, s'.storage[r])
  {
    hide WriteBack, ToCached, Frozen;
    WriteBackToCached(s.schema, s.pc[t].job.created.value);
  }

  lemma StorageInsertStep(s: State, s': State, t: nat, a: Action, l: Label)
    requires Inv(s) && t in s.pc && s.pc[t].StorageInsert? && FinishNext(s, s', t, a, l)
    ensures Inv(s') && Respects(s, s', t)
    ensures Logical(s') == Logical(s)[s.pc[t].job.rid := s.pc[t].job.created.value]
  {
    hide SlotsOk, LocksOk, WordsOk, ViewsOk, Shape, Respects, Matches, ToCached, ViewOk, Truth, Pending, CachedCopy,
         Frozen, TaskOk;
    InvTask(s, t);
    StoredNew(s, s', t, a, l);
    StoredNewSlots(s, s', t, a, l);
    var n := s.pc[t].job.rid;
    forall r | r in s.recs
      ensures Sized(s, r) && Sized(s', r)
      ensures r != n ==> Pending(s', r) == Pending(s, r) && Truth(s', r) == Truth(s, r)
      ensures r == n ==> !Pending(s', r) && Truth(s', r) == s.pc[t].job.created.value
      ensures !Pending(s', r) && CachedCopy(s', r).Some? ==> Frozen(s.schema, CachedCopy(s', r).value, s'.storage[r])
    {
      CopySized(s, r);
      StoredNewValue(s, s', t, a, l, r);
    }
    assert n in s.recs by { JobHeld(s, t); }
    assert ValuesOk(s');
    Assemble(s, s', t);
  }

  lemma JobHeld(s: State, t: nat)
    requires Shape(s) && t in s.pc && TaskOk(s, t) && JobOf(s.pc[t]).Some?
    ensures Holds(s, t, JobOf(s.pc[t]).value.rid)
  {}
}
