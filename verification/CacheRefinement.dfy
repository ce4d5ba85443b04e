/** The whole structure behaves like a plain map from record ids to tuples: every
    run of any number of tasks, seen through its labels, is a run of that map. */
module CacheRefinement {
  import opened Common
  import opened LockWord
  import opened Columns
  import opened Protocol
  import opened CacheInvariant
  import opened CacheSteps
  import opened CacheClients

  // The plain map.

  type Db = map<nat, Tuple>

  /** What the plain map answers and accepts. */
  predicate Allowed(db: Db, l: Label) {
    match l
    case Tau => true
    case Inserted(r, t) => r !in db
    case Got(r, c, v) => r in db && c < |db[r]| && db[r][c] == v
    case Put(r, c, v) => r in db && c < |db[r]|
  }

  function Effect(db: Db, l: Label): Db
    requires Allowed(db, l)
  {
    match l
    case Tau => db
    case Inserted(r, t) => db[r := t]
    case Got(_, _, _) => db
    case Put(r, c, v) => db[r := db[r][c := v]]
  }

  // One action.

  lemma WordStep(s: State, s': State, t: nat, a: Action)
    requires Inv(s) && t in s.pc && WordNext(s, s', t, a)
    ensures Inv(s') && Respects(s, s', t) && Logical(s') == Logical(s)
  {
    hide Inv, Logical, Respects;
    if s.pc[t].RidStore? {
      RidStoreStep(s, s', t, a);
    } else if s.pc[t].IndexStore? {
      IndexStoreStep(s, s', t, a);
    } else {
      LetGoStep(s, s', t, a);
    }
  }

  lemma FinishStep(s: State, s': State, t: nat, a: Action, l: Label)
    requires Inv(s) && t in s.pc && FinishNext(s, s', t, a, l)
    ensures Inv(s') && Respects(s, s', t)
    ensures Allowed(Logical(s), l) && Logical(s') == Effect(Logical(s), l)
  {
    hide Respects, SlotsOk, LocksOk, WordsOk, ViewsOk, ValuesOk, Truth;
    if s.pc[t].WriteOld? {
      WriteOldStep(s, s', t, a, l);
    } else if s.pc[t].Deliver? {
      DeliverStep(s, s', t, a, l);
    } else {
      StorageInsertStep(s, s', t, a, l);
      InvTask(s, t);
    }
  }

  lemma ClientStep(s: State, s': State, t: nat, a: Action, l: Label)
    requires Inv(s) && t in s.pc && ClientNext(s, s', t, a, l)
    ensures Inv(s') && Respects(s, s', t)
    ensures Allowed(Logical(s), l) && Logical(s') == Effect(Logical(s), l)
  {
    hide Inv, Logical, Respects, ViewValue;
    match a
    case LockRead(_) => LockStep(s, s', t, a, l);
    case LockWrite(_) => LockStep(s, s', t, a, l);
    case Upgrade(_) => UpgradeLoadStep(s, s', t, a, l);
    case DropRead(_) => DropReadStep(s, s', t, a, l);
    case DropWrite(_) => DropWriteStep(s, s', t, a, l);
    case Open(_, _, _) => OpenStep(s, s', t, a, l);
    case Touch(_) => TouchStep(s, s', t, a, l);
    case Get(w, c) =>
      GetIsLogical(s, w, c);
      SeesRecord(s, w);
      NothingMoves(s, t);
    case Set(w, c, v) => SetStep(s, s', t, a, l);
    case Promote(_, _) => PromoteStep(s, s', t, a, l);
    case Insert(_, _) => InsertStep(s, s', t, a, l);
    case _ =>
  }

  lemma NothingMoves(s: State, t: nat)
    ensures Respects(s, s, t)
  {}

  /** Every action keeps the invariant, leaves alone what other tasks have
      guarded, and does to the logical contents what its label does to the plain
      map. All actions but inserts, reads and writes of a client are invisible. */
  lemma StepRefines(s: State, s': State, t: nat, a: Action, l: Label)
    requires Inv(s) && Next(s, s', t, a, l)
    ensures Inv(s') && Respects(s, s', t)
    ensures Allowed(Logical(s), l) && Logical(s') == Effect(Logical(s), l)
  {
    hide Inv, Logical, Respects, ClientNext, LockGranted, SlotNext, WordNext, FinishNext, ProbeNext, MoveNext;
    if ClientNext(s, s', t, a, l) {
      ClientStep(s, s', t, a, l);
    } else if FinishNext(s, s', t, a, l) {
      FinishStep(s, s', t, a, l);
    } else if LockGranted(s, s', t, a) {
      if s.pc[t].UpgradeCas? { UpgradeStep(s, s', t, a); } else { GrantStep(s, s', t, a); }
    } else if SlotNext(s, s', t, a) {
      SlotStep(s, s', t, a);
    } else if WordNext(s, s', t, a) {
      WordStep(s, s', t, a);
    } else if ProbeNext(s, t, a).Some? && s' == Goto(s, t, ProbeNext(s, t, a).value) {
      ProbeStep(s, s', t, a);
    } else {
      MoveStep(s, s', t, a);
    }
  }

  // Whole runs.

  datatype Event = Event(task: nat, action: Action, shows: Label)

  predicate IsRun(run: seq<State>, events: seq<Event>) {
    && |run| == |events| + 1
    && Init(run[0])
    && forall i :: 0 <= i < |events| ==> Next(run[i], run[i + 1], events[i].task, events[i].action, events[i].shows)
  }

  /** Runs the plain map, from empty, on the first `n` labels; None if it would
      refuse one of them or answer a read differently. */
  function Replay(events: seq<Event>, n: nat): Option<Db>
    requires n <= |events|
  {
    if n == 0 then Some(map[])
    else
      var db := Replay(events, n - 1);
      if db.Some? && Allowed(db.value, events[n - 1].shows) then Some(Effect(db.value, events[n - 1].shows)) else None
  }

  /** In every interleaving of inserts, reads, writes, promotions and evictions,
      the plain map accepts every label, answers every read with the value that
      was read, and ends with the logical contents. */
  lemma {:induction false} RunRefines(run: seq<State>, events: seq<Event>, n: nat)
    requires IsRun(run, events) && n < |run|
    ensures Inv(run[n]) && Replay(events, n) == Some(Logical(run[n]))
  {
    hide Next, Respects;
    if n == 0 {
      InitInv(run[0]);
    } else {
      hide Inv, Logical;
      RunRefines(run, events, n - 1);
      var e := events[n - 1];
      StepRefines(run[n - 1], run[n], e.task, e.action, e.shows);
    }
  }

  /** Task `t` holds a read or write guard on `r`. */
  predicate Guards(s: State, t: nat, r: nat) {
    r in s.recs && (s.recs[r].excl == Some(t) || exists g :: g in s.recs[r].shared && g.task == t)
  }

  /** Record `r` is where it was, with the same columns, in both states. */
  predicate SamePlace(s: State, s': State, r: nat) {
    && r in s.recs && r in s'.recs && LocOf(s', r) == LocOf(s, r)
    && r in s.storage && r in s'.storage && s'.storage[r] == s.storage[r]
    && (LocOf(s, r).AtSlot? ==>
          var i := LocOf(s, r).slot;
          && i < |s.entries| && i < |s'.entries|
          && s.entries[i].rid == r == s'.entries[i].rid && s'.entries[i].val == s.entries[i].val)
  }

  lemma StepPins(s: State, s': State, u: nat, t: nat, r: nat)
    requires Inv(s) && Respects(s, s', u) && u != t && Guards(s, t, r)
    ensures Guards(s', t, r) && SamePlace(s, s', r)
  {
    hide SlotsOk, LocksOk, ViewsOk, ValuesOk, TasksOk;
    assert HeldByOther(s, u, r);
    assert WordOk(s, r);
    if s.recs[r].excl != Some(t) {
      var g :| g in s.recs[r].shared && g.task == t;
      assert g in s'.recs[r].shared;
    }
  }

  /** Pinning over whole runs: while a task holds a guard on a record, nothing
      that the other tasks do moves the record, renames or rewrites its slot, or
      changes its stored tuple. */
  lemma {:induction false} RunPins(run: seq<State>, events: seq<Event>, i: nat, j: nat, t: nat, r: nat)
    requires IsRun(run, events) && i <= j < |run|
    requires Guards(run[i], t, r)
    requires forall k :: i <= k < j ==> events[k].task != t
    ensures Guards(run[j], t, r) && SamePlace(run[i], run[j], r)
  {
    hide Next, Inv, Respects, Logical, Guards;
    RunRefines(run, events, i);
    if i == j {
      GuardedPlace(run[i], t, r);
    } else {
      RunPins(run, events, i, j - 1, t, r);
      RunRefines(run, events, j - 1);
      var e := events[j - 1];
      StepRefines(run[j - 1], run[j], e.task, e.action, e.shows);
      StepPins(run[j - 1], run[j], e.task, t, r);
    }
  }

  lemma GuardedPlace(s: State, t: nat, r: nat)
    requires Inv(s) && Guards(s, t, r)
    ensures SamePlace(s, s, r)
  {
    assert WordOk(s, r);
  }

  /** In every reachable state the word of a record that is not write locked says
      "cached at i" exactly when slot i names it; no record sits in two slots; and
      a slot that names a record whose word disagrees belongs to a record that is
      write locked by the task that is moving it. */
  lemma LinksAgree(run: seq<State>, events: seq<Event>, n: nat, r: nat, i: nat)
    requires IsRun(run, events) && n < |run| && r in run[n].recs && i < |run[n].entries|
    ensures var s := run[n];
            && (!s.recs[r].word.writer ==> (LocOf(s, r) == AtSlot(i) <==> s.entries[i].rid == r))
            && (forall j :: 0 <= j < |s.entries| && s.entries[i].rid == s.entries[j].rid == r ==> i == j)
            && (s.entries[i].rid == r && LocOf(s, r) != AtSlot(i) ==>
                  && s.recs[r].excl.Some? && s.recs[r].excl.value in s.pc
                  && MidFlight(s.pc[s.recs[r].excl.value], r, i))
  {
    hide Next, Logical, MidFlight;
    RunRefines(run, events, n);
    var s := run[n];
    assert SlotOk(s, i) && WordOk(s, r) && LockOk(s.recs[r], r);
    forall j | 0 <= j < |s.entries| && s.entries[i].rid == s.entries[j].rid == r
      ensures i == j
    {
      NamedOnce(s, i, j);
    }
  }

  /** A rid loaded from a slot may be stale, but when the validation succeeds the
      record points at exactly this slot, its write lock is held by the evicting
      task, and the slot holds its current columns. */
  lemma ValidatedVictimIsHere(run: seq<State>, events: seq<Event>, n: nat, t: nat)
    requires IsRun(run, events) && n < |run|
    requires t in run[n].pc && run[n].pc[t].Validate?
    ensures var s, pc := run[n], run[n].pc[t];
            pc.slot < |s.entries| && s.entries[pc.slot].rid == pc.victim ==>
              && Holds(s, t, pc.victim) && LocOf(s, pc.victim) == AtSlot(pc.slot)
              && CachedCopy(s, pc.victim) == Some(s.entries[pc.slot].val)
  {
    hide Next, Logical;
    RunRefines(run, events, n);
    var s, pc := run[n], run[n].pc[t];
    InvTask(s, t);
    if pc.slot < |s.entries| {
      assert SlotOk(s, pc.slot);
    }
  }

  /** A victim is a complete record, locked by the evicting task. */
  lemma VictimIsComplete(s: State, t: nat, v: nat)
    requires Inv(s) && t in s.pc && VictimOf(s.pc[t]) == Some(v)
    ensures Holds(s, t, v) && v in Logical(s)
  {
    hide SlotsOk, LocksOk, WordsOk, ValuesOk, ViewsOk, Truth;
    InvTask(s, t);
  }

  /** Nobody writes to a victim: a client writes only while its own task is idle
      and holds the write guard. */
  lemma VictimNotWritten(s: State, s': State, u: nat, a: Action, l: Label, t: nat, v: nat)
    requires Inv(s) && Next(s, s', u, a, l) && t in s.pc && VictimOf(s.pc[t]) == Some(v)
    ensures !(l.Put? && l.rid == v) && !(l.Inserted? && l.rid == v)
  {
    hide SlotsOk, LocksOk, WordsOk, ValuesOk, LockGranted, SlotNext, WordNext, ProbeNext, MoveNext, SetThrough, Matches;
    InvTask(s, t);
    InvTask(s, u);
  }

  lemma EvictionStep(s: State, s': State, u: nat, a: Action, l: Label, t: nat, v: nat)
    requires Inv(s) && Next(s, s', u, a, l) && t in s.pc && VictimOf(s.pc[t]) == Some(v)
    ensures Inv(s') && v in Logical(s) && v in Logical(s') && Logical(s')[v] == Logical(s)[v]
  {
    hide Next, Inv, Logical, Respects;
    VictimIsComplete(s, t, v);
    VictimNotWritten(s, s', u, a, l, t, v);
    StepRefines(s, s', u, a, l);
  }

  /** No update is lost on eviction: as long as a task holds a record as its
      victim, through every step of taking it out and writing it back, its
      logical tuple stays the same. */
  lemma {:induction false} EvictionLosesNothing(run: seq<State>, events: seq<Event>, i: nat, j: nat, t: nat, v: nat)
    requires IsRun(run, events) && i < j < |run|
    requires forall k :: i <= k < j ==> t in run[k].pc && VictimOf(run[k].pc[t]) == Some(v)
    ensures Inv(run[i]) && Inv(run[j])
    ensures v in Logical(run[i]) && v in Logical(run[j]) && Logical(run[j])[v] == Logical(run[i])[v]
  {
    hide Next, Respects, Inv, Logical, VictimOf;
    RunRefines(run, events, j - 1);
    if i + 1 == j {
    } else {
      EvictionLosesNothing(run, events, i, j - 1, t, v);
    }
    var e := events[j - 1];
    EvictionStep(run[j - 1], run[j], e.task, e.action, e.shows, t, v);
  }
}
