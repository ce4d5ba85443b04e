/** No task is ever stuck: in every state that meets the invariant each index that a
    task uses is in range and each `expect` it relies on holds. */
module CacheProgress {
  import opened Common
  import opened LockWord
  import opened Columns
  import opened Protocol
  import opened CacheInvariant
  import opened CacheSteps
  import opened CacheClients

  /** The next action of an operation whose compare-and-swaps fail. */
  function Onward(pc: Pc): Action {
    match pc
    case Probe(_) => GiveUp
    case ReadCas(_, _) => Fail
    case WriteCas(_, _) => Fail
    case UpgradeCas(_, _) => Fail
    case CasEmpty(_, _) => Fail
    case LockCas(_, _, _, _) => Fail
    case Validate(_, _, _) => Fail
    case _ => Go(0)
  }

  lemma LoadEnabled(s: State, t: nat)
    requires Shape(s) && WordsOk(s) && t in s.pc && TaskOk(s, t)
    ensures var pc, a := s.pc[t], Onward(s.pc[t]);
            && ((|| pc.ReadCas? || pc.WriteCas? || pc.UpgradeCas? || pc.Probe? || pc.CasEmpty? || pc.TestRef?
                 || pc.LockLoad? || pc.LockCas?) ==> ProbeNext(s, t, a).Some?)
            && ((pc.Validate? || pc.ReloadRid? || pc.RidLoad? || pc.ReadOld? || pc.IndexLoad?) ==>
                MoveNext(s, t, a).Some?)
  {
    if s.pc[t].ReloadRid? { assert WordOk(s, s.pc[t].victim); }
  }

  lemma SlotEnabled(s: State, t: nat) returns (s': State)
    requires Shape(s) && t in s.pc && TaskOk(s, t)
    requires var pc := s.pc[t]; pc.ClearRef? || pc.WriteHead? || pc.WriteVal? || pc.SetRef?
    ensures SlotNext(s, s', t, Go(0))
  {
    var pc := s.pc[t];
    var i := pc.slot;
    match pc
    case ClearRef(job, _) => s' := SetEntry(Goto(s, t, Probe(job)), i, s.entries[i].(refd := false));
    case WriteHead(job, _, prev) =>
      s' := SetEntry(Goto(s, t, WriteVal(job, i, prev)), i, s.entries[i].(rid := job.node.rid, refd := job.node.refd));
    case WriteVal(job, _, prev) =>
      s' := SetEntry(Goto(s, t, IndexLoad(job, i, prev)), i, s.entries[i].(val := job.node.val));
    case SetRef(job, _, prev) =>
      s' := SetEntry(Goto(s, t, AfterIndex(job, i, prev)), i, s.entries[i].(refd := true));
  }

  lemma WordEnabled(s: State, t: nat) returns (s': State)
    requires Shape(s) && t in s.pc && TaskOk(s, t)
    requires var pc := s.pc[t]; pc.DropStale? || pc.RidStore? || pc.IndexStore? || pc.DropVictim?
    ensures WordNext(s, s', t, Go(0))
  {
    match s.pc[t]
    case DropStale(job, v) => s' := SetRec(Goto(s, t, Probe(job)), v, Unlocked(s.recs[v]));
    case RidStore(job, i, v, rid, seen) =>
      s' := SetRec(Goto(s, t, ReadOld(job, i, v)), v, s.recs[v].(word := seen.(loc := AtRid(rid))));
    case IndexStore(job, i, prev, seen) =>
      s' := SetRec(Goto(s, t, if job.created.None? then SetRef(job, i, prev) else AfterIndex(job, i, prev)), job.rid,
                   s.recs[job.rid].(word := seen.(loc := AtSlot(i))));
    case DropVictim(job, i, v) => s' := SetRec(Goto(s, t, Done(job, Some(i))), v, Unlocked(s.recs[v]));
  }

  lemma FinishEnabled(s: State, t: nat) returns (s': State, l: Label)
    requires Shape(s) && t in s.pc && TaskOk(s, t)
    requires var pc := s.pc[t]; pc.WriteOld? || pc.Deliver? || pc.StorageInsert?
    ensures FinishNext(s, s', t, Go(0), l)
  {
    l := Tau;
    match s.pc[t]
    case WriteOld(job, i, prev) =>
      s' := Goto(s, t, DropVictim(job, i, prev.rid))
            .(storage := s.storage[prev.rid := WriteBack(s.schema, prev.val, s.storage[prev.rid])]);
    case Deliver(job, found) =>
      s' := Goto(s, t, Idle).(views := s.views + {MakeView(s, t, job.rid, None, job.query, found)});
    case StorageInsert(job) =>
      l := Inserted(job.rid, job.created.value);
      s' := Goto(s, t, Idle).(storage := s.storage[job.rid := job.created.value]);
  }

  /** Every operation in progress can take its next action. */
  lemma NeverStuck(s: State, t: nat) returns (s': State, l: Label)
    requires Inv(s) && t in s.pc && s.pc[t] != Idle
    ensures Next(s, s', t, Onward(s.pc[t]), l)
  {
    InvTask(s, t);
    LoadEnabled(s, t);
    var pc, a := s.pc[t], Onward(s.pc[t]);
    hide Inv, Shape, TaskOk, WordsOk, ClientNext, LockGranted, SlotNext, WordNext, FinishNext;
    l := Tau;
    if pc.ClearRef? || pc.WriteHead? || pc.WriteVal? || pc.SetRef? {
      s' := SlotEnabled(s, t);
    } else if pc.DropStale? || pc.RidStore? || pc.IndexStore? || pc.DropVictim? {
      s' := WordEnabled(s, t);
    } else if pc.WriteOld? || pc.Deliver? || pc.StorageInsert? {
      s', l := FinishEnabled(s, t);
    } else if pc.Validate? || pc.ReloadRid? || pc.RidLoad? || pc.ReadOld? || pc.IndexLoad? {
      hide ProbeNext, MoveNext;
      s' := Goto(s, t, MoveNext(s, t, a).value);
    } else {
      hide ProbeNext, MoveNext;
      s' := Goto(s, t, ProbeNext(s, t, a).value);
    }
  }

  /** A write to any writable column of a live result under the write guard goes
      through: `get_value_mut` never reaches its failing `expect`. */
  lemma SetEnabled(s: State, w: View, c: nat, v: int) returns (s': State)
    requires Inv(s) && w in s.views && s.pc[w.task] == Idle && w.guard == None
    requires c in w.query && Writable(s.schema, c)
    ensures Next(s, s', w.task, Set(w, c, v), Put(w.rid, c, v))
  {
    ViewSees(s, w);
    assert ViewOk(s, w);
    hide SlotsOk, LocksOk, WordsOk, ValuesOk, TasksOk;
    var p := Position(s.schema.fields, c);
    if p.Some? && w.slot.Some? {
      var i := w.slot.value;
      s' := SetEntry(s, i, s.entries[i].(val := s.entries[i].val[p.value := v]));
    } else {
      s' := s.(storage := s.storage[w.rid := s.storage[w.rid][c := v]]);
    }
    hide Inv, Writable, ViewOk;
    assert SetThrough(s, s', w, c, v);
    assert ClientNext(s, s', w.task, Set(w, c, v), Put(w.rid, c, v));
  }
}
