/** Several tables under the same tasks: what a call that only locks, promotes, reads
    and lets go leaves behind, whatever the other tasks do meanwhile. Phase 1 of
    New-Order with its error exit is such a call. */
module TableRun {
  import opened Common
  import opened LockWord
  import opened Columns
  import opened Protocol
  import opened CacheInvariant
  import opened CacheSteps
  import opened CacheRefinement

  // Actions that a client of the logical contents cannot see.

  /** An action of a client that neither inserts nor writes. */
  predicate Quiet(a: Action) { !a.Set? && !a.Insert? }

  /** The task is in the middle of an insert. */
  predicate Inserting(pc: Pc) { JobOf(pc).Some? && JobOf(pc).value.created.Some? }

  lemma QuietClient(s: State, s': State, t: nat, a: Action, l: Label)
    requires t in s.pc && ClientNext(s, s', t, a, l) && Quiet(a)
    ensures (l == Tau || l.Got?) && t in s'.pc && !Inserting(s'.pc[t])
  {
    hide ToCached, Matches, ViewValue, MakeView;
  }

  lemma QuietLoad(s: State, t: nat, a: Action)
    requires t in s.pc && !Inserting(s.pc[t])
    ensures ProbeNext(s, t, a).Some? ==> !Inserting(ProbeNext(s, t, a).value)
    ensures MoveNext(s, t, a).Some? ==> !Inserting(MoveNext(s, t, a).value)
  {}

  lemma QuietChange(s: State, s': State, t: nat, a: Action, l: Label)
    requires t in s.pc && !Inserting(s.pc[t])
    requires LockGranted(s, s', t, a) || SlotNext(s, s', t, a) || WordNext(s, s', t, a) || FinishNext(s, s', t, a, l)
    ensures FinishNext(s, s', t, a, l) ==> l == Tau
    ensures t in s'.pc && !Inserting(s'.pc[t])
  {
    hide Matches, MakeView, WriteBack;
  }

  /** A quiet action of a task that is not inserting keeps the logical contents. */
  lemma QuietKeeps(s: State, s': State, t: nat, a: Action, l: Label)
    requires Inv(s) && Next(s, s', t, a, l) && Quiet(a) && !Inserting(s.pc[t])
    ensures Inv(s') && Logical(s') == Logical(s)
    ensures t in s'.pc && !Inserting(s'.pc[t]) && (l == Tau || l.Got?)
  {
    hide Inv, Logical, Respects, ClientNext, LockGranted, SlotNext, WordNext, FinishNext, ProbeNext, MoveNext,
         Inserting;
    StepRefines(s, s', t, a, l);
    QuietLoad(s, t, a);
    if ClientNext(s, s', t, a, l) {
      QuietClient(s, s', t, a, l);
    } else if LockGranted(s, s', t, a) || SlotNext(s, s', t, a) || WordNext(s, s', t, a) || FinishNext(s, s', t, a, l) {
      QuietChange(s, s', t, a, l);
    }
  }

  // The guards of a task.

  predicate HoldsRead(s: State, t: nat, g: ReadGuard) {
    g.task == t && g.rid in s.recs && g in s.recs[g.rid].shared
  }

  /** The task has the write guard in its own hands, not to evict the record. */
  predicate HoldsWrite(s: State, t: nat, r: nat) {
    r in s.recs && s.recs[r].excl == Some(t) && t in s.pc && VictimOf(s.pc[t]) != Some(r)
  }

  /** The guards in the hands of a call. */
  datatype Held = Held(shared: set<ReadGuard>, excl: set<nat>)

  /** The guard that an action hands to the call, and the one that it takes. */
  function Gained(pc: Pc, t: nat, a: Action): Held {
    if pc.ReadCas? && a.Go? then Held({ReadGuard(t, a.id, pc.rid)}, {})
    else if pc.WriteCas? && a.Go? then Held({}, {pc.rid})
    else if pc.UpgradeCas? && a.Go? then Held({}, {pc.guard.rid})
    else if pc == Idle && a.Insert? then Held({}, {a.rid})
    else Held({}, {})
  }

  function Lost(pc: Pc, a: Action): Held {
    if pc.UpgradeCas? && a.Go? then Held({pc.guard}, {})
    else if pc == Idle && a.DropRead? then Held({a.guard}, {})
    else if pc == Idle && a.DropWrite? then Held({}, {a.rid})
    else Held({}, {})
  }

  function Hands(h: Held, pc: Pc, t: nat, a: Action): Held {
    Held(h.shared - Lost(pc, a).shared + Gained(pc, t, a).shared, h.excl - Lost(pc, a).excl + Gained(pc, t, a).excl)
  }

  /** The state agrees with what the call believes it holds. */
  ghost predicate Owns(s: State, t: nat, h: Held) {
    && (forall g :: HoldsRead(s, t, g) <==> g in h.shared)
    && (forall r :: HoldsWrite(s, t, r) <==> r in h.excl)
  }

  lemma SameVictim(s: State, t: nat, a: Action)
    requires t in s.pc && PcOk(s, t, s.pc[t])
    ensures ProbeNext(s, t, a).Some? ==> VictimOf(ProbeNext(s, t, a).value) == VictimOf(s.pc[t])
    ensures MoveNext(s, t, a).Some? ==> VictimOf(MoveNext(s, t, a).value) == VictimOf(s.pc[t])
  {}

  /** Records as they were and the same victim: the same guards. */
  lemma OwnsFrame(s: State, s': State, t: nat, h: Held)
    requires Owns(s, t, h) && s'.recs == s.recs && t in s.pc && t in s'.pc
    requires VictimOf(s'.pc[t]) == VictimOf(s.pc[t])
    ensures Owns(s', t, h)
  {
    forall r
      ensures HoldsWrite(s', t, r) <==> r in h.excl
    {
      assert HoldsWrite(s, t, r) <==> r in h.excl;
    }
    forall g
      ensures HoldsRead(s', t, g) <==> g in h.shared
    {
      assert HoldsRead(s, t, g) <==> g in h.shared;
    }
  }

  lemma SlotVictim(s: State, s': State, t: nat, a: Action)
    requires t in s.pc && SlotNext(s, s', t, a)
    ensures s'.recs == s.recs && t in s'.pc && VictimOf(s'.pc[t]) == VictimOf(s.pc[t])
  {}

  lemma FinishVictim(s: State, s': State, t: nat, a: Action, l: Label)
    requires t in s.pc && FinishNext(s, s', t, a, l)
    ensures s'.recs == s.recs && t in s'.pc
    ensures VictimOf(s'.pc[t]) == VictimOf(s.pc[t])
  {
    hide Matches, MakeView, WriteBack;
  }

  /** Only record `r` changes: the guards on the others stay. */
  lemma OneRecord(s: State, s': State, t: nat, r: nat, h: Held, h': Held)
    requires Owns(s, t, h) && t in s.pc && t in s'.pc
    requires r in s'.recs && s'.recs == s.recs[r := s'.recs[r]]
    requires forall q | q != r :: VictimOf(s'.pc[t]) == Some(q) <==> VictimOf(s.pc[t]) == Some(q)
    requires h'.excl - {r} == h.excl - {r} && (r in h'.excl <==> HoldsWrite(s', t, r))
    requires forall g: ReadGuard | g.rid != r :: g in h'.shared <==> g in h.shared
    requires forall g: ReadGuard | g.rid == r :: g in h'.shared <==> HoldsRead(s', t, g)
    ensures Owns(s', t, h')
  {
    forall q
      ensures HoldsWrite(s', t, q) <==> q in h'.excl
    {
      if q != r {
        assert HoldsWrite(s, t, q) <==> q in h.excl;
        assert q in h'.excl - {r} <==> q in h.excl - {r};
      }
    }
    forall g
      ensures HoldsRead(s', t, g) <==> g in h'.shared
    {
      if g.rid != r { assert HoldsRead(s, t, g) <==> g in h.shared; }
    }
  }

  /** The same guards are live on record `r`, or it was and stays locked to evict it. */
  lemma SameGuards(s: State, s': State, t: nat, r: nat, h: Held)
    requires Owns(s, t, h) && t in s.pc && t in s'.pc && r in s.recs
    requires r in s'.recs && s'.recs == s.recs[r := s'.recs[r]] && s'.recs[r].shared == s.recs[r].shared
    requires forall q | q != r :: VictimOf(s'.pc[t]) == Some(q) <==> VictimOf(s.pc[t]) == Some(q)
    requires HoldsWrite(s', t, r) <==> HoldsWrite(s, t, r)
    ensures Owns(s', t, h)
  {
    forall g: ReadGuard | g.rid == r
      ensures g in h.shared <==> HoldsRead(s', t, g)
    {
      assert HoldsRead(s, t, g) <==> g in h.shared;
    }
    OneRecord(s, s', t, r, h, h);
  }

  lemma WordGuards(s: State, s': State, t: nat, a: Action, h: Held)
    requires t in s.pc && WordNext(s, s', t, a) && Owns(s, t, h)
    ensures Owns(s', t, h)
  {
    hide Owns;
    var pc := s.pc[t];
    var r := if pc.IndexStore? then pc.job.rid else pc.victim;
    SameGuards(s, s', t, r, h);
  }

  lemma GrantGuards(s: State, s': State, t: nat, a: Action, h: Held)
    requires t in s.pc && LockGranted(s, s', t, a) && Owns(s, t, h) && PcOk(s, t, s.pc[t]) && LocksOk(s)
    ensures Owns(s', t, Hands(h, s.pc[t], t, a))
  {
    hide Owns, LocksOk;
    match s.pc[t]
    case ReadCas(r, _) =>
      ReadGuards(s, s', t, r, ReadGuard(t, a.id, r), h);
      assert Hands(h, s.pc[t], t, a) == h.(shared := h.shared + {ReadGuard(t, a.id, r)});
    case WriteCas(r, _) =>
      WriteGuards(s, s', t, r, h);
      assert Hands(h, s.pc[t], t, a) == h.(excl := h.excl + {r});
    case UpgradeCas(g, _) =>
      UpgradeGuards(s, s', t, g, h);
      assert Hands(h, s.pc[t], t, a) == Held(h.shared - {g}, h.excl + {g.rid});
    case LockCas(_, _, v, seen) =>
      NoWriter(s, v, seen);
      SameGuards(s, s', t, v, h);
      assert Hands(h, s.pc[t], t, a) == h;
    case _ =>
  }

  /** A record whose word is free has no write guard. */
  lemma NoWriter(s: State, r: nat, seen: Word)
    requires LocksOk(s) && r in s.recs && s.recs[r].word == seen && Free(seen)
    ensures s.recs[r].excl == None
  {
    assert LockOk(s.recs[r], r);
  }

  lemma ReadGuards(s: State, s': State, t: nat, r: nat, g: ReadGuard, h: Held)
    requires Owns(s, t, h) && t in s.pc && s.pc[t].ReadCas? && g.rid == r && g.task == t
    requires r in s.recs && s'.pc == s.pc[t := Idle] && r in s'.recs && s'.recs == s.recs[r := s'.recs[r]]
    requires s'.recs[r].shared == s.recs[r].shared + {g} && s'.recs[r].excl == s.recs[r].excl
    ensures Owns(s', t, h.(shared := h.shared + {g}))
  {
    var h' := h.(shared := h.shared + {g});
    assert HoldsWrite(s, t, r) <==> r in h.excl;
    forall f: ReadGuard | f.rid == r
      ensures f in h'.shared <==> HoldsRead(s', t, f)
    {
      assert HoldsRead(s, t, f) <==> f in h.shared;
    }
    OneRecord(s, s', t, r, h, h');
  }

  lemma WriteGuards(s: State, s': State, t: nat, r: nat, h: Held)
    requires Owns(s, t, h) && t in s.pc && VictimOf(s.pc[t]) == None
    requires r in s.recs && s'.pc == s.pc[t := Idle] && r in s'.recs && s'.recs == s.recs[r := s'.recs[r]]
    requires s'.recs[r].shared == s.recs[r].shared && s'.recs[r].excl == Some(t)
    ensures Owns(s', t, h.(excl := h.excl + {r}))
  {
    forall f: ReadGuard | f.rid == r
      ensures f in h.shared <==> HoldsRead(s', t, f)
    {
      assert HoldsRead(s, t, f) <==> f in h.shared;
    }
    OneRecord(s, s', t, r, h, h.(excl := h.excl + {r}));
  }

  lemma UpgradeGuards(s: State, s': State, t: nat, g: ReadGuard, h: Held)
    requires Owns(s, t, h) && t in s.pc && s.pc[t].UpgradeCas?
    requires g.rid in s.recs && s'.pc == s.pc[t := Idle] && g.rid in s'.recs &&
               s'.recs == s.recs[g.rid := s'.recs[g.rid]]
    requires s'.recs[g.rid].shared == s.recs[g.rid].shared - {g} && s'.recs[g.rid].excl == Some(t)
    ensures Owns(s', t, Held(h.shared - {g}, h.excl + {g.rid}))
  {
    forall f: ReadGuard | f.rid == g.rid
      ensures f in h.shared - {g} <==> HoldsRead(s', t, f)
    {
      assert HoldsRead(s, t, f) <==> f in h.shared;
    }
    OneRecord(s, s', t, g.rid, h, Held(h.shared - {g}, h.excl + {g.rid}));
  }

  lemma DropReadGuards(s: State, s': State, t: nat, g: ReadGuard, h: Held)
    requires Owns(s, t, h) && t in s.pc && s'.pc == s.pc
    requires g.rid in s.recs && g.rid in s'.recs && s'.recs == s.recs[g.rid := s'.recs[g.rid]]
    requires s'.recs[g.rid].shared == s.recs[g.rid].shared - {g} && s'.recs[g.rid].excl == s.recs[g.rid].excl
    ensures Owns(s', t, h.(shared := h.shared - {g}))
  {
    assert HoldsWrite(s, t, g.rid) <==> g.rid in h.excl;
    forall f: ReadGuard | f.rid == g.rid
      ensures f in h.shared - {g} <==> HoldsRead(s', t, f)
    {
      assert HoldsRead(s, t, f) <==> f in h.shared;
    }
    OneRecord(s, s', t, g.rid, h, h.(shared := h.shared - {g}));
  }

  lemma DropWriteGuards(s: State, s': State, t: nat, r: nat, h: Held)
    requires Owns(s, t, h) && t in s.pc && s'.pc == s.pc
    requires r in s.recs && r in s'.recs && s'.recs == s.recs[r := s'.recs[r]]
    requires s'.recs[r].shared == s.recs[r].shared && s'.recs[r].excl == None
    ensures Owns(s', t, h.(excl := h.excl - {r}))
  {
    forall f: ReadGuard | f.rid == r
      ensures f in h.shared <==> HoldsRead(s', t, f)
    {
      assert HoldsRead(s, t, f) <==> f in h.shared;
    }
    OneRecord(s, s', t, r, h, h.(excl := h.excl - {r}));
  }

  lemma ClientGuards(s: State, s': State, t: nat, a: Action, l: Label, h: Held)
    requires t in s.pc && ClientNext(s, s', t, a, l) && Quiet(a) && Owns(s, t, h)
    ensures Owns(s', t, Hands(h, s.pc[t], t, a))
  {
    hide ToCached, Matches, ViewValue, MakeView, Owns;
    if a.DropRead? {
      DropReadGuards(s, s', t, a.guard, h);
      assert Hands(h, s.pc[t], t, a) == h.(shared := h.shared - {a.guard});
    } else if a.DropWrite? {
      DropWriteGuards(s, s', t, a.rid, h);
      assert Hands(h, s.pc[t], t, a) == h.(excl := h.excl - {a.rid});
    } else {
      OwnsFrame(s, s', t, h);
      assert Hands(h, s.pc[t], t, a) == h;
    }
  }

  /** What the task's own action does to its guards: exactly what the call sees. In
      particular a promotion gives back every lock it takes. */
  lemma OwnAction(s: State, s': State, t: nat, a: Action, l: Label, h: Held)
    requires Inv(s) && Next(s, s', t, a, l) && Quiet(a) && Owns(s, t, h)
    ensures Owns(s', t, Hands(h, s.pc[t], t, a))
  {
    InvPc(s, t);
    hide Inv, Owns, ClientNext, LockGranted, SlotNext, WordNext, FinishNext, ProbeNext, MoveNext, VictimOf, PcOk,
         LocksOk;
    if ClientNext(s, s', t, a, l) {
      ClientGuards(s, s', t, a, l, h);
    } else if LockGranted(s, s', t, a) {
      GrantGuards(s, s', t, a, h);
    } else {
      if SlotNext(s, s', t, a) {
        SlotVictim(s, s', t, a);
        OwnsFrame(s, s', t, h);
      } else if WordNext(s, s', t, a) {
        WordGuards(s, s', t, a, h);
      } else if FinishNext(s, s', t, a, l) {
        FinishVictim(s, s', t, a, l);
        OwnsFrame(s, s', t, h);
      } else {
        SameVictim(s, t, a);
        OwnsFrame(s, s', t, h);
      }
      NothingHanded(s, s', t, a, l, h);
    }
  }

  lemma InvPc(s: State, t: nat)
    requires Inv(s) && t in s.pc
    ensures PcOk(s, t, s.pc[t]) && LocksOk(s)
  {
    InvTask(s, t);
  }

  lemma NothingHanded(s: State, s': State, t: nat, a: Action, l: Label, h: Held)
    requires Next(s, s', t, a, l) && !ClientNext(s, s', t, a, l) && !LockGranted(s, s', t, a)
    ensures Hands(h, s.pc[t], t, a) == h
  {
    hide ClientNext;
  }

  /** An action of another task changes no guard of this one. */
  lemma OtherAction(s: State, s': State, u: nat, a: Action, l: Label, t: nat, h: Held)
    requires Inv(s) && Next(s, s', u, a, l) && u != t && Owns(s, t, h)
    ensures Owns(s', t, h)
  {
    hide Inv, Next, Respects;
    StepRefines(s, s', u, a, l);
    NoGifts(s, s', u, a, l, t);
    Undisturbed(s, s', u, t, h);
  }

  /** No guard of the task is new. */
  predicate NoGift(s: State, s': State, t: nat) {
    && (forall r | r in s'.recs && s'.recs[r].excl == Some(t) :: r in s.recs && s.recs[r].excl == Some(t))
    && (forall r, g | r in s'.recs && g in s'.recs[r].shared && g.task == t :: r in s.recs && g in s.recs[r].shared)
  }

  lemma ClientNoGift(s: State, s': State, u: nat, a: Action, l: Label, t: nat)
    requires u in s.pc && ClientNext(s, s', u, a, l) && u != t
    ensures NoGift(s, s', t)
  {
    hide ToCached, Matches, ViewValue, MakeView, SetThrough;
    if a.Set? { SetKeepsRecs(s, s', a.view, a.col, a.value); }
  }

  lemma SetKeepsRecs(s: State, s': State, w: View, c: nat, v: int)
    requires SetThrough(s, s', w, c, v)
    ensures s'.recs == s.recs
  {}

  lemma LockNoGift(s: State, s': State, u: nat, a: Action, t: nat)
    requires u in s.pc && (LockGranted(s, s', u, a) || WordNext(s, s', u, a)) && u != t
    ensures NoGift(s, s', t)
  {}

  /** No action hands a guard to another task. */
  lemma NoGifts(s: State, s': State, u: nat, a: Action, l: Label, t: nat)
    requires Next(s, s', u, a, l) && u != t
    ensures NoGift(s, s', t)
  {
    hide ClientNext, LockGranted, SlotNext, WordNext, FinishNext, ProbeNext, MoveNext, VictimOf;
    if ClientNext(s, s', u, a, l) {
      ClientNoGift(s, s', u, a, l, t);
    } else if LockGranted(s, s', u, a) || WordNext(s, s', u, a) {
      LockNoGift(s, s', u, a, t);
    } else if SlotNext(s, s', u, a) {
      SlotVictim(s, s', u, a);
    } else if FinishNext(s, s', u, a, l) {
      FinishVictim(s, s', u, a, l);
    }
  }

  lemma Undisturbed(s: State, s': State, u: nat, t: nat, h: Held)
    requires Respects(s, s', u) && NoGift(s, s', t) && u != t && Owns(s, t, h)
    ensures Owns(s', t, h)
  {
    forall r
      ensures HoldsWrite(s', t, r) <==> r in h.excl
    {
      assert HoldsWrite(s, t, r) <==> r in h.excl;
    }
    forall g
      ensures HoldsRead(s', t, g) <==> g in h.shared
    {
      assert HoldsRead(s, t, g) <==> g in h.shared;
    }
  }

  // Runs over several tables.

  datatype Event = Event(table: nat, task: nat, action: Action, shows: Label)

  /** One action in one table. */
  predicate Moves(ts: seq<State>, ts': seq<State>, e: Event) {
    && |ts'| == |ts| && e.table < |ts|
    && Next(ts[e.table], ts'[e.table], e.task, e.action, e.shows)
    && forall b :: 0 <= b < |ts| && b != e.table ==> ts'[b] == ts[b]
  }

  predicate IsRun(run: seq<seq<State>>, events: seq<Event>) {
    && |run| == |events| + 1
    && (forall b :: 0 <= b < |run[0]| ==> Init(run[0][b]))
    && forall i :: 0 <= i < |events| ==> Moves(run[i], run[i + 1], events[i])
  }

  lemma {:induction false} RunInv(run: seq<seq<State>>, events: seq<Event>, n: nat)
    requires IsRun(run, events) && n < |run|
    ensures |run[n]| == |run[0]| && forall b :: 0 <= b < |run[n]| ==> Inv(run[n][b])
  {
    hide Next, Inv, Logical, Respects;
    if n == 0 {
      forall b | 0 <= b < |run[0]|
        ensures Inv(run[0][b])
      {
        InitInv(run[0][b]);
      }
    } else {
      RunInv(run, events, n - 1);
      var e := events[n - 1];
      assert Moves(run[n - 1], run[n], e);
      StepRefines(run[n - 1][e.table], run[n][e.table], e.task, e.action, e.shows);
    }
  }

  /** What the labels of all tasks but `t`, from event `i` up to `j`, make of the
      contents of a table; None if the plain map would refuse one of them. */
  function Others(events: seq<Event>, i: nat, j: nat, b: nat, t: nat, db: Db): Option<Db>
    requires i <= j <= |events|
    decreases j - i
  {
    if i == j then Some(db) else
      var e := events[j - 1];
      match Others(events, i, j - 1, b, t, db)
      case None => None
      case Some(x) =>
        if e.table != b || e.task == t then Some(x)
        else if Allowed(x, e.shows) then Some(Effect(x, e.shows)) else None
  }

  /** The guards that the call has in its hands in one table, from what it was handed
      and what it let go since event `i`, when it held none. */
  function InHands(run: seq<seq<State>>, events: seq<Event>, i: nat, j: nat, b: nat, t: nat): Held
    requires |run| == |events| + 1 && i <= j < |run|
    decreases j - i
  {
    if i == j then Held({}, {}) else
      var h := InHands(run, events, i, j - 1, b, t);
      var e := events[j - 1];
      if e.table == b && e.task == t && b < |run[j - 1]| && t in run[j - 1][b].pc
      then Hands(h, run[j - 1][b].pc[t], t, e.action) else h
  }

  /** From event `i` to `j` the task runs a quiet call, which starts with no guard. */
  ghost predicate QuietCall(run: seq<seq<State>>, events: seq<Event>, i: nat, j: nat, t: nat)
    requires |run| == |events| + 1 && i <= j < |run|
  {
    && (forall b :: 0 <= b < |run[i]| && t in run[i][b].pc ==> run[i][b].pc[t] == Idle)
    && (forall b :: 0 <= b < |run[i]| ==> Owns(run[i][b], t, Held({}, {})))
    && (forall k :: i <= k < j && events[k].task == t ==> Quiet(events[k].action))
  }

  /** Over a quiet call, in every interleaving, the contents of every table are what
      the labels of the other tasks alone make of them, and the guards of the task
      are exactly those in the hands of the call. */
  lemma {:induction false} CallLeavesTables(run: seq<seq<State>>, events: seq<Event>, i: nat, j: nat, t: nat, b: nat)
    requires IsRun(run, events) && i <= j < |run| && QuietCall(run, events, i, j, t) && b < |run[i]|
    ensures b < |run[j]| && Inv(run[i][b]) && Inv(run[j][b])
    ensures Others(events, i, j, b, t, Logical(run[i][b])) == Some(Logical(run[j][b]))
    ensures Owns(run[j][b], t, InHands(run, events, i, j, b, t))
    ensures t in run[j][b].pc ==> !Inserting(run[j][b].pc[t])
  {
    hide Next, Inv, Logical, Respects, Owns, Hands, Inserting;
    RunInv(run, events, i);
    RunInv(run, events, j);
    if i == j {
      NotInserting(run[i][b], t);
    } else {
      CallLeavesTables(run, events, i, j - 1, t, b);
      var e := events[j - 1];
      assert Moves(run[j - 1], run[j], e);
      if e.table == b {
        var s, s' := run[j - 1][b], run[j][b];
        var h := InHands(run, events, i, j - 1, b, t);
        NextTask(s, s', e.task, e.action, e.shows);
        if e.task == t {
          QuietKeeps(s, s', t, e.action, e.shows);
          OwnAction(s, s', t, e.action, e.shows, h);
        } else {
          StepRefines(s, s', e.task, e.action, e.shows);
          OtherAction(s, s', e.task, e.action, e.shows, t, h);
          OtherPc(s, s', e.task, t);
        }
      }
    }
  }

  lemma NotInserting(s: State, t: nat)
    requires t in s.pc ==> s.pc[t] == Idle
    ensures t in s.pc ==> !Inserting(s.pc[t])
  {}

  lemma NextTask(s: State, s': State, t: nat, a: Action, l: Label)
    requires Next(s, s', t, a, l)
    ensures t in s.pc
  {}

  lemma OtherPc(s: State, s': State, u: nat, t: nat)
    requires Respects(s, s', u) && u != t
    ensures t in s'.pc <==> t in s.pc
    ensures t in s.pc ==> s'.pc[t] == s.pc[t]
  {}

  /** A failed call that has let go of everything it was handed leaves no trace: no
      table has changed but by the other tasks, and no lock of its own is left in
      any word, whatever it promoted and evicted on the way. */
  lemma FailedCallLeavesNoTrace(run: seq<seq<State>>, events: seq<Event>, i: nat, j: nat, t: nat, b: nat, r: nat)
    requires IsRun(run, events) && i <= j < |run| && QuietCall(run, events, i, j, t) && b < |run[i]|
    requires b < |run[j]| && t in run[j][b].pc && run[j][b].pc[t] == Idle
    requires InHands(run, events, i, j, b, t) == Held({}, {})
    ensures Inv(run[i][b]) && Inv(run[j][b])
    ensures Others(events, i, j, b, t, Logical(run[i][b])) == Some(Logical(run[j][b]))
    ensures r in run[j][b].recs ==>
              var rec := run[j][b].recs[r];
              && rec.excl != Some(t) && (forall g | g in rec.shared :: g.task != t)
              && (rec.word.writer <==> rec.excl.Some?) && rec.word.readers == |rec.shared|
  {
    CallLeavesTables(run, events, i, j, t, b);
    hide IsRun, QuietCall, Logical, Others;
    NoneLeft(run[j][b], t, r);
  }

  lemma NoneLeft(s: State, t: nat, r: nat)
    requires Inv(s) && Owns(s, t, Held({}, {})) && t in s.pc && s.pc[t] == Idle
    ensures r in s.recs ==>
              var rec := s.recs[r];
              && rec.excl != Some(t) && (forall g | g in rec.shared :: g.task != t)
              && (rec.word.writer <==> rec.excl.Some?) && rec.word.readers == |rec.shared|
  {
    if r in s.recs {
      assert LockOk(s.recs[r], r);
      assert !HoldsWrite(s, t, r);
      forall g | g in s.recs[r].shared
        ensures g.task != t
      {
        assert !HoldsRead(s, t, g);
      }
    }
  }

  /** The actions of New-Order up to its last lock, and of the guards that are dropped
      when a lock is refused: locking, promoting, reading and letting go. */
  predicate PhaseOne(a: Action) {
    || a.LockRead? || a.LockWrite? || a.DropRead? || a.DropWrite?
    || a.Promote? || a.Open? || a.Touch? || a.Get?
    || a.ProbeSlot? || a.GiveUp? || a.Go? || a.Fail?
  }

  /** A New-Order that ends in an error, in every interleaving: every table has what
      the other tasks made of it, and none of its guards is live. */
  lemma FailedOrderLeavesNoTrace(run: seq<seq<State>>, events: seq<Event>, i: nat, j: nat, t: nat)
    requires IsRun(run, events) && i <= j < |run| && |run[j]| == |run[i]|
    requires forall b :: 0 <= b < |run[i]| ==> t in run[i][b].pc && run[i][b].pc[t] == Idle
    requires forall b :: 0 <= b < |run[i]| ==> Owns(run[i][b], t, Held({}, {}))
    requires forall k :: i <= k < j && events[k].task == t ==> PhaseOne(events[k].action)
    requires forall b :: 0 <= b < |run[j]| ==> t in run[j][b].pc && run[j][b].pc[t] == Idle
    requires forall b :: 0 <= b < |run[j]| ==> InHands(run, events, i, j, b, t) == Held({}, {})
    ensures forall b :: 0 <= b < |run[i]| ==>
              && Inv(run[i][b]) && Inv(run[j][b])
              && Others(events, i, j, b, t, Logical(run[i][b])) == Some(Logical(run[j][b]))
    ensures forall b, r | 0 <= b < |run[j]| && r in run[j][b].recs ::
              run[j][b].recs[r].excl != Some(t) && forall g | g in run[j][b].recs[r].shared :: g.task != t
  {
    assert |run| == |events| + 1;
    hide Inv, Logical, Owns, IsRun, InHands, Others;
    assert QuietCall(run, events, i, j, t);
    forall b | 0 <= b < |run[i]|
      ensures Inv(run[i][b]) && Inv(run[j][b])
      ensures Others(events, i, j, b, t, Logical(run[i][b])) == Some(Logical(run[j][b]))
    {
      FailedCallLeavesNoTrace(run, events, i, j, t, b, 0);
    }
    forall b, r | 0 <= b < |run[j]| && r in run[j][b].recs
      ensures run[j][b].recs[r].excl != Some(t) && forall g | g in run[j][b].recs[r].shared :: g.task != t
    {
      FailedCallLeavesNoTrace(run, events, i, j, t, b, r);
    }
  }
}
