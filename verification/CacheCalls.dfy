/** What a client sees of an operation is what it asked for: over every run, labels and
    query results are tied to the calls that led to them. */
module CacheCalls {
  import opened Common
  import opened LockWord
  import opened Columns
  import opened Protocol
  import opened CacheInvariant
  import opened CacheSteps
  import opened CacheRefinement

  /** The operation in progress is the one that the action asked for: an insert of
      this tuple under this rid, or a promotion of this record for this query. */
  predicate Asked(a: Action, job: Job) {
    match a
    case Insert(r, tuple) => job.rid == r && job.created == Some(tuple)
    case Promote(r, query) => job.rid == r && job.created == None && job.query == query
    case _ => false
  }

  /** The same for an operation that may still be a lock attempt. */
  predicate AskedFor(a: Action, pc: Pc) {
    match pc
    case Idle => false
    case ReadCas(r, _) => a == LockRead(r)
    case WriteCas(r, _) => a == LockWrite(r)
    case UpgradeCas(g, _) => a == Upgrade(g)
    case _ => Asked(a, pc.job)
  }

  lemma ClientStarts(s: State, s': State, t: nat, a: Action, l: Label)
    requires t in s.pc && ClientNext(s, s', t, a, l) && WordsOk(s)
    ensures t in s'.pc
    ensures s'.pc[t] != Idle ==> AskedFor(a, s'.pc[t])
    ensures a.Insert? || a.Promote? ==> JobOf(s'.pc[t]).Some?
  {
    hide ToCached, Matches, ViewValue, MakeView, SetThrough;
    if a.Promote? { assert WordOk(s, a.rid); }
    if a.Set? { SetKeepsPc(s, s', a.view, a.col, a.value); }
  }

  lemma SetKeepsPc(s: State, s': State, w: View, c: nat, v: int)
    requires SetThrough(s, s', w, c, v)
    ensures s'.pc == s.pc && s'.views == s.views
  {}

  /** The operation goes on with the same work, or is over. */
  predicate GoesOn(pc: Pc, pc': Pc) {
    pc != Idle && (pc' == Idle || (JobOf(pc).Some? && JobOf(pc') == JobOf(pc)))
  }

  lemma LoadGoesOn(s: State, t: nat, a: Action)
    requires t in s.pc
    ensures ProbeNext(s, t, a).Some? ==> GoesOn(s.pc[t], ProbeNext(s, t, a).value)
    ensures MoveNext(s, t, a).Some? ==> GoesOn(s.pc[t], MoveNext(s, t, a).value)
  {}

  lemma GrantGoesOn(s: State, s': State, t: nat, a: Action)
    requires t in s.pc && LockGranted(s, s', t, a)
    ensures t in s'.pc && GoesOn(s.pc[t], s'.pc[t])
  {}

  lemma ChangeGoesOn(s: State, s': State, t: nat, a: Action, l: Label)
    requires t in s.pc && (SlotNext(s, s', t, a) || WordNext(s, s', t, a) || FinishNext(s, s', t, a, l))
    ensures t in s'.pc && GoesOn(s.pc[t], s'.pc[t])
  {
    hide Matches, MakeView, WriteBack;
  }

  /** An operation either goes on or was asked for by this very action. */
  lemma StepWork(s: State, s': State, t: nat, a: Action, l: Label)
    requires Inv(s) && Next(s, s', t, a, l)
    ensures t in s'.pc
    ensures s'.pc[t] != Idle ==> if s.pc[t] == Idle then AskedFor(a, s'.pc[t]) else GoesOn(s.pc[t], s'.pc[t])
  {
    hide LocksOk, SlotsOk, ViewsOk, ValuesOk, TasksOk, ClientNext, LockGranted, SlotNext, WordNext, FinishNext,
         AskedFor, GoesOn;
    LoadGoesOn(s, t, a);
    if ClientNext(s, s', t, a, l) {
      ClientStarts(s, s', t, a, l);
      IdleClient(s, s', t, a, l);
    } else {
      if LockGranted(s, s', t, a) {
        GrantGoesOn(s, s', t, a);
      } else if SlotNext(s, s', t, a) || WordNext(s, s', t, a) || FinishNext(s, s', t, a, l) {
        ChangeGoesOn(s, s', t, a, l);
      }
      NotIdle(s.pc[t], s'.pc[t]);
    }
  }

  lemma NotIdle(pc: Pc, pc': Pc)
    requires GoesOn(pc, pc')
    ensures pc != Idle
  {}

  lemma SameWork(a: Action, pc: Pc, pc': Pc)
    requires GoesOn(pc, pc') && pc' != Idle && AskedFor(a, pc)
    ensures AskedFor(a, pc')
  {}

  lemma IdleClient(s: State, s': State, t: nat, a: Action, l: Label)
    requires t in s.pc && ClientNext(s, s', t, a, l)
    ensures s.pc[t] == Idle
  {}

  /** What the label of an action says about the action. */
  predicate Tells(s: State, t: nat, a: Action, l: Label) {
    && (a.Set? <==> l.Put?) && (a.Get? <==> l.Got?)
    && (a.Set? ==> a.view in s.views && a.view.task == t && l == Put(a.view.rid, a.col, a.value))
    && (a.Get? ==> a.view in s.views && a.view.task == t && l.rid == a.view.rid && l.col == a.col)
    && (l.Inserted? ==>
          && t in s.pc && s.pc[t].StorageInsert?
          && s.pc[t].job.rid == l.rid && s.pc[t].job.created == Some(l.tuple))
  }

  lemma ClientTells(s: State, s': State, t: nat, a: Action, l: Label)
    requires t in s.pc && ClientNext(s, s', t, a, l)
    ensures Tells(s, t, a, l)
  {
    hide ToCached, Matches, MakeView, SetThrough;
  }

  lemma InsideTells(s: State, s': State, t: nat, a: Action, l: Label)
    requires Next(s, s', t, a, l) && !ClientNext(s, s', t, a, l)
    ensures Tells(s, t, a, l)
  {
    hide ClientNext, WriteBack, MakeView;
  }

  /** Writes and reads show the record, the column and the value that were asked for,
      and nothing else shows as one. */
  lemma LabelsAsAsked(run: seq<State>, events: seq<Event>, n: nat)
    requires IsRun(run, events) && n < |events|
    ensures Tells(run[n], events[n].task, events[n].action, events[n].shows)
  {
    hide Tells, ClientNext;
    var e := events[n];
    assert Next(run[n], run[n + 1], e.task, e.action, e.shows);
    if ClientNext(run[n], run[n + 1], e.task, e.action, e.shows) {
      ClientTells(run[n], run[n + 1], e.task, e.action, e.shows);
    } else {
      InsideTells(run[n], run[n + 1], e.task, e.action, e.shows);
    }
  }

  /** Event `i` is the call of task `t` that is in progress before event `n`. */
  ghost predicate InCall(run: seq<State>, events: seq<Event>, i: nat, n: nat, t: nat)
    requires |run| == |events| + 1
  {
    && i < n < |run| && events[i].task == t && t in run[i].pc && run[i].pc[t] == Idle
    && forall k :: i < k < n && events[k].task == t ==> t in run[k].pc && run[k].pc[t] != Idle
  }

  /** Every operation in progress was asked for by the last call of its task. */
  lemma {:induction false} CallOrigin(run: seq<State>, events: seq<Event>, n: nat, t: nat) returns (i: nat)
    requires IsRun(run, events) && n < |run| && t in run[n].pc && run[n].pc[t] != Idle
    ensures InCall(run, events, i, n, t) && AskedFor(events[i].action, run[n].pc[t])
  {
    hide Next, Inv, Logical, Respects, AskedFor, GoesOn;
    i := 0;
    if n == 0 {
    } else {
      RunRefines(run, events, n - 1);
      var e := events[n - 1];
      var s, s' := run[n - 1], run[n];
      StepRefines(s, s', e.task, e.action, e.shows);
      if e.task != t {
        OtherPc(s, s', e.task, t);
        i := CallOrigin(run, events, n - 1, t);
      } else {
        NextTask(s, s', t, e.action, e.shows);
        StepWork(s, s', t, e.action, e.shows);
        if s.pc[t] == Idle {
          i := n - 1;
        } else {
          i := CallOrigin(run, events, n - 1, t);
          SameWork(events[i].action, s.pc[t], s'.pc[t]);
        }
      }
    }
  }

  lemma OtherPc(s: State, s': State, u: nat, t: nat)
    requires Respects(s, s', u) && u != t
    ensures t in s'.pc <==> t in s.pc
    ensures t in s.pc ==> s'.pc[t] == s.pc[t]
  {}

  /** A record appears with exactly the tuple and the rid of the insert that its task
      is carrying out. */
  lemma InsertedAsAsked(run: seq<State>, events: seq<Event>, j: nat) returns (i: nat)
    requires IsRun(run, events) && j < |events| && events[j].shows.Inserted?
    ensures InCall(run, events, i, j, events[j].task)
    ensures events[i].action == Insert(events[j].shows.rid, events[j].shows.tuple)
  {
    hide Next, InCall;
    LabelsAsAsked(run, events, j);
    i := CallOrigin(run, events, j, events[j].task);
  }

  /** A lock is granted on the record that the task asked for, in the mode it asked
      for; an upgrade turns the guard it was asked for. */
  lemma GrantAsAsked(run: seq<State>, events: seq<Event>, j: nat) returns (i: nat)
    requires IsRun(run, events) && j < |events| && events[j].task in run[j].pc && events[j].action.Go?
    requires var pc := run[j].pc[events[j].task]; pc.ReadCas? || pc.WriteCas? || pc.UpgradeCas?
    ensures InCall(run, events, i, j, events[j].task)
    ensures match events[i].action
            case LockRead(r) =>
              r in run[j + 1].recs && ReadGuard(events[j].task, events[j].action.id, r) in run[j + 1].recs[r].shared
            case LockWrite(r) => r in run[j + 1].recs && run[j + 1].recs[r].excl == Some(events[j].task)
            case Upgrade(g) =>
              && g.rid in run[j + 1].recs && run[j + 1].recs[g.rid].excl == Some(events[j].task)
              && g !in run[j + 1].recs[g.rid].shared
            case _ => false
  {
    hide Next, InCall;
    i := CallOrigin(run, events, j, events[j].task);
    var e := events[j];
    assert Next(run[j], run[j + 1], e.task, e.action, e.shows);
    GrantTakes(run[j], run[j + 1], e.task, e.action, e.shows);
  }

  lemma GrantTakes(s: State, s': State, t: nat, a: Action, l: Label)
    requires Next(s, s', t, a, l) && a.Go? && (s.pc[t].ReadCas? || s.pc[t].WriteCas? || s.pc[t].UpgradeCas?)
    ensures match s.pc[t]
            case ReadCas(r, _) => r in s'.recs && ReadGuard(t, a.id, r) in s'.recs[r].shared
            case WriteCas(r, _) => r in s'.recs && s'.recs[r].excl == Some(t)
            case UpgradeCas(g, _) => g.rid in s'.recs && s'.recs[g.rid].excl == Some(t) && g !in s'.recs[g.rid].shared
            case _ => true
  {}

  lemma {:induction false} RecsGrow(run: seq<State>, events: seq<Event>, i: nat, j: nat)
    requires IsRun(run, events) && i <= j < |run|
    ensures run[i].recs.Keys <= run[j].recs.Keys
  {
    hide Next, Inv, Logical;
    if i == j {
    } else {
      RecsGrow(run, events, i, j - 1);
      RunRefines(run, events, j - 1);
      var e := events[j - 1];
      StepRefines(run[j - 1], run[j], e.task, e.action, e.shows);
    }
  }

  lemma InsertIsNew(s: State, s': State, t: nat, a: Action, l: Label)
    requires Next(s, s', t, a, l) && a.Insert?
    ensures a.rid !in s.recs && a.rid in s'.recs
  {
    hide ToCached;
  }

  /** No two inserts ask for the same rid. */
  lemma InsertsDiffer(run: seq<State>, events: seq<Event>, i: nat, j: nat)
    requires IsRun(run, events) && i < j < |events|
    requires events[i].action.Insert? && events[j].action.Insert?
    ensures events[i].action.rid != events[j].action.rid
  {
    hide Next;
    var e, f := events[i], events[j];
    assert Next(run[i], run[i + 1], e.task, e.action, e.shows);
    assert Next(run[j], run[j + 1], f.task, f.action, f.shows);
    InsertIsNew(run[i], run[i + 1], e.task, e.action, e.shows);
    InsertIsNew(run[j], run[j + 1], f.task, f.action, f.shows);
    RecsGrow(run, events, i + 1, j);
  }

  /** What an insert puts in is what appears, after it and by the same task. */
  lemma InsertArrives(run: seq<State>, events: seq<Event>, i: nat, j: nat)
    requires IsRun(run, events) && i < |events| && j < |events|
    requires events[i].action.Insert? && events[j].shows.Inserted?
    requires events[i].action.rid == events[j].shows.rid
    ensures i < j && events[i].task == events[j].task && events[j].shows.tuple == events[i].action.tuple
  {
    hide Next, IsRun;
    var k := InsertedAsAsked(run, events, j);
    if k < i { InsertsDiffer(run, events, k, i); }
    if i < k { InsertsDiffer(run, events, i, k); }
  }

  /** A new query result comes from opening a record, or from a promotion of it. */
  lemma NewView(s: State, s': State, t: nat, a: Action, l: Label, w: View)
    requires Inv(s) && Next(s, s', t, a, l) && w in s'.views && w !in s.views
    ensures w.task == t
    ensures if s.pc[t] == Idle then a == Open(w.rid, w.guard, w.query)
            else s.pc[t].Deliver? && s.pc[t].job.created == None &&
                 s.pc[t].job.rid == w.rid && s.pc[t].job.query == w.query && w.guard == None
  {
    hide LocksOk, SlotsOk, ViewsOk, ValuesOk, ClientNext, LockGranted, SlotNext, WordNext, FinishNext;
    if ClientNext(s, s', t, a, l) {
      ClientView(s, s', t, a, l, w);
    } else {
      InvTask(s, t);
      InsideView(s, s', t, a, l, w);
    }
  }

  lemma ClientView(s: State, s': State, t: nat, a: Action, l: Label, w: View)
    requires t in s.pc && ClientNext(s, s', t, a, l) && WordsOk(s) && w in s'.views && w !in s.views
    ensures s.pc[t] == Idle && w.task == t && a == Open(w.rid, w.guard, w.query)
  {
    hide ToCached, Matches, ViewValue, SetThrough;
    if a.Set? { SetKeepsPc(s, s', a.view, a.col, a.value); }
    if a.Open? { assert WordOk(s, a.rid); }
  }

  lemma InsideView(s: State, s': State, t: nat, a: Action, l: Label, w: View)
    requires Next(s, s', t, a, l) && !ClientNext(s, s', t, a, l) && w in s'.views && w !in s.views
    ensures s.pc[t].Deliver? && w.task == t && w.guard == None
    ensures w.rid == s.pc[t].job.rid && w.query == s.pc[t].job.query
  {
    hide ClientNext, WriteBack, Matches;
  }

  /** Every query result is for the record and the query that its task asked for, by
      opening the record or by the promotion that it is carrying out. */
  lemma ViewsAsAsked(run: seq<State>, events: seq<Event>, j: nat, w: View)
    requires IsRun(run, events) && j < |events| && w in run[j + 1].views && w !in run[j].views
    ensures w.task == events[j].task
    ensures || events[j].action == Open(w.rid, w.guard, w.query)
            || (w.guard == None && exists i: nat ::
                  InCall(run, events, i, j, w.task) && events[i].action == Promote(w.rid, w.query))
  {
    hide Next, Inv, Logical, InCall;
    RunRefines(run, events, j);
    var e := events[j];
    assert Next(run[j], run[j + 1], e.task, e.action, e.shows);
    NextTask(run[j], run[j + 1], e.task, e.action, e.shows);
    NewView(run[j], run[j + 1], e.task, e.action, e.shows, w);
    if run[j].pc[e.task] != Idle {
      var i := CallOrigin(run, events, j, e.task);
    }
  }

  lemma NextTask(s: State, s': State, t: nat, a: Action, l: Label)
    requires Next(s, s', t, a, l)
    ensures t in s.pc
  {}

  // Reference bits.

  /** Touching a result sets the bit of its slot and changes nothing else. */
  lemma TouchSets(s: State, s': State, t: nat, a: Action, l: Label)
    requires Next(s, s', t, a, l) && a.Touch?
    ensures a.view.slot.Some? && a.view.slot.value < |s.entries|
    ensures var i := a.view.slot.value;
            |s'.entries| == |s.entries| && s'.entries[i] == s.entries[i].(refd := true) &&
            forall k :: 0 <= k < |s.entries| && k != i ==> s'.entries[k] == s.entries[k]
    ensures s'.recs == s.recs && s'.storage == s.storage && s'.pc == s.pc && s'.views == s.views
  {
    hide ToCached, Matches, MakeView, WriteBack, ViewValue;
  }

  /** The task is after the record in the slot it visits. */
  predicate Evicting(pc: Pc) {
    || pc.LockLoad? || pc.LockCas? || pc.Validate? || pc.ReloadRid? || pc.RidLoad? || pc.RidStore? || pc.ReadOld?
  }

  lemma LoadEvicts(s: State, t: nat, a: Action)
    requires t in s.pc
    ensures forall pc :: (ProbeNext(s, t, a) == Some(pc) || MoveNext(s, t, a) == Some(pc)) && Evicting(pc) ==>
              EvictedFrom(s, s.pc[t], pc)
  {}

  /** The visit goes on, or has just seen the bit clear. */
  predicate EvictedFrom(s: State, pc: Pc, pc': Pc)
    requires Evicting(pc')
  {
    || (Evicting(pc) && pc.job == pc'.job && pc.slot == pc'.slot && pc.victim == pc'.victim)
    || (pc == TestRef(pc'.job, pc'.slot, pc'.victim) && pc.slot < |s.entries| && !s.entries[pc.slot].refd)
  }

  lemma LockEvicts(s: State, s': State, t: nat, a: Action)
    requires t in s.pc && LockGranted(s, s', t, a)
    ensures t in s'.pc && (Evicting(s'.pc[t]) ==> EvictedFrom(s, s.pc[t], s'.pc[t]))
  {}

  lemma WordEvicts(s: State, s': State, t: nat, a: Action)
    requires t in s.pc && WordNext(s, s', t, a)
    ensures t in s'.pc && (Evicting(s'.pc[t]) ==> EvictedFrom(s, s.pc[t], s'.pc[t]))
  {}

  lemma OtherEvicts(s: State, s': State, t: nat, a: Action, l: Label)
    requires t in s.pc && (SlotNext(s, s', t, a) || FinishNext(s, s', t, a, l))
    ensures t in s'.pc && !Evicting(s'.pc[t])
  {
    hide Matches, MakeView, WriteBack;
  }

  lemma ClientEvicts(s: State, s': State, t: nat, a: Action, l: Label)
    requires t in s.pc && ClientNext(s, s', t, a, l)
    ensures t in s'.pc && !Evicting(s'.pc[t])
  {
    hide ToCached, Matches, ViewValue, MakeView, SetThrough;
    if a.Set? { SetKeepsPc(s, s', a.view, a.col, a.value); }
  }

  lemma StepEvicts(s: State, s': State, t: nat, a: Action, l: Label)
    requires Next(s, s', t, a, l)
    ensures t in s'.pc && (Evicting(s'.pc[t]) ==> EvictedFrom(s, s.pc[t], s'.pc[t]))
  {
    hide ClientNext, LockGranted, SlotNext, WordNext, FinishNext, ProbeNext, MoveNext, Evicting;
    LoadEvicts(s, t, a);
    if ClientNext(s, s', t, a, l) {
      ClientEvicts(s, s', t, a, l);
    } else if LockGranted(s, s', t, a) {
      LockEvicts(s, s', t, a);
    } else if WordNext(s, s', t, a) {
      WordEvicts(s, s', t, a);
    } else if SlotNext(s, s', t, a) || FinishNext(s, s', t, a, l) {
      OtherEvicts(s, s', t, a, l);
    }
  }

  /** Second chance: over every run a task that is evicting a record saw the reference
      bit of its slot clear on this very visit. */
  lemma {:induction false} SecondChance(run: seq<State>, events: seq<Event>, n: nat, t: nat) returns (m: nat)
    requires IsRun(run, events) && n < |run| && t in run[n].pc && Evicting(run[n].pc[t])
    ensures m < n && events[m].task == t && t in run[m].pc
    ensures var pc := run[n].pc[t];
            && run[m].pc[t] == TestRef(pc.job, pc.slot, pc.victim)
            && pc.slot < |run[m].entries| && !run[m].entries[pc.slot].refd
    ensures forall k :: m < k < n && events[k].task == t ==> t in run[k].pc && Evicting(run[k].pc[t])
  {
    hide Next, Inv, Logical, Respects;
    m := 0;
    if n == 0 {
    } else {
      RunRefines(run, events, n - 1);
      var e := events[n - 1];
      var s, s' := run[n - 1], run[n];
      StepRefines(s, s', e.task, e.action, e.shows);
      if e.task != t {
        OtherPc(s, s', e.task, t);
        m := SecondChance(run, events, n - 1, t);
      } else {
        NextTask(s, s', t, e.action, e.shows);
        StepEvicts(s, s', t, e.action, e.shows);
        if Evicting(s.pc[t]) {
          m := SecondChance(run, events, n - 1, t);
        } else {
          m := n - 1;
        }
      }
    }
  }
}
