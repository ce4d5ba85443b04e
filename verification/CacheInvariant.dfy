/** What every action of the cache keeps, and the tuple that each record
    logically holds at any moment. */
module CacheInvariant {
  import opened Common
  import opened LockWord
  import opened Columns
  import opened Protocol

  // What a program counter says about the records and the slot it works on.

  function JobOf(pc: Pc): Option<Job> {
    match pc
    case Idle => None
    case ReadCas(_, _) => None
    case WriteCas(_, _) => None
    case UpgradeCas(_, _) => None
    case _ => Some(pc.job)
  }

  /** The copy of an evicted entry that is not written back yet. */
  function Carried(pc: Pc): Option<Entry> {
    match pc
    case WriteHead(_, _, p) => p
    case WriteVal(_, _, p) => p
    case IndexLoad(_, _, p) => p
    case IndexStore(_, _, p, _) => p
    case SetRef(_, _, p) => p
    case WriteOld(_, _, e) => Some(e)
    case _ => None
  }

  /** The record whose write lock the task holds in order to evict it. */
  function VictimOf(pc: Pc): Option<nat> {
    if Carried(pc).Some? then Some(Carried(pc).value.rid)
    else if pc.Validate? || pc.DropStale? || pc.ReloadRid? || pc.RidLoad? || pc.RidStore? || pc.ReadOld? ||
        pc.DropVictim?
    then Some(pc.victim)
    else None
  }

  /** The slot claimed for the job while its word does not point there yet. */
  function Claim(pc: Pc): Option<nat> {
    match pc
    case WriteHead(_, i, p) => if p.None? then Some(i) else None
    case WriteVal(_, i, _) => Some(i)
    case IndexLoad(_, i, _) => Some(i)
    case IndexStore(_, i, _, _) => Some(i)
    case _ => None
  }

  /** The slot that still names the victim after its word was reset. */
  function Leaving(pc: Pc): Option<nat> {
    match pc
    case ReadOld(_, i, _) => Some(i)
    case WriteHead(_, i, p) => if p.Some? then Some(i) else None
    case _ => None
  }

  /** Slot `i` names record `r` although the word of `r` does not say so. */
  predicate MidFlight(pc: Pc, r: nat, i: nat) {
    || (Claim(pc) == Some(i) && JobOf(pc).Some? && JobOf(pc).value.rid == r)
    || (Leaving(pc) == Some(i) && VictimOf(pc) == Some(r))
  }

  predicate Creating(pc: Pc, r: nat) {
    JobOf(pc).Some? && JobOf(pc).value.created.Some? && JobOf(pc).value.rid == r
  }

  /** Record `r` is still being inserted. */
  predicate Pending(s: State, r: nat)
    requires r in s.recs
  {
    var e := s.recs[r].excl;
    e.Some? && e.value in s.pc && Creating(s.pc[e.value], r)
  }

  // Where the current value of a record is.

  /** The newest cached columns of `r` while its word says "not cached". */
  function Away(s: State, pc: Pc, r: nat): Option<Cached> {
    if Carried(pc).Some? && Carried(pc).value.rid == r then Some(Carried(pc).value.val)
    else if pc.ReadOld? && pc.victim == r && pc.slot < |s.entries| then Some(s.entries[pc.slot].val)
    else None
  }

  function CachedCopy(s: State, r: nat): Option<Cached>
    requires r in s.recs
  {
    var rec := s.recs[r];
    match rec.word.loc
    case AtSlot(i) => if i < |s.entries| then Some(s.entries[i].val) else None
    case AtRid(_) =>
      if rec.excl.Some? && rec.excl.value in s.pc then Away(s, s.pc[rec.excl.value], r) else None
  }

  predicate Sized(s: State, r: nat)
    requires r in s.recs
  {
    && r in s.storage && |s.storage[r]| == s.schema.width
    && (CachedCopy(s, r).Some? ==> |CachedCopy(s, r).value| == |s.schema.fields|)
  }

  /** The logical tuple of a record. */
  function Truth(s: State, r: nat): Tuple
    requires r in s.recs && Sized(s, r)
  {
    if CachedCopy(s, r).Some? then WriteBack(s.schema, CachedCopy(s, r).value, s.storage[r]) else s.storage[r]
  }

  // The invariant.

  predicate Shape(s: State) {
    && WfSchema(s.schema) && 0 < |s.entries| <= EMPTY
    && (forall i :: 0 <= i < |s.entries| ==> |s.entries[i].val| == |s.schema.fields|)
    && (forall r | r in s.storage :: |s.storage[r]| == s.schema.width)
    && (forall r | r in s.recs :: r in s.storage && r < EMPTY)
  }

  /** The word counts the guards of its record. */
  predicate LockOk(rec: Rec, r: nat) {
    && (rec.word.writer <==> rec.excl.Some?)
    && rec.word.readers == |rec.shared| < MAX_READER
    && (rec.word.writer ==> rec.shared == {})
    && (forall g | g in rec.shared :: g.rid == r)
  }

  predicate LocksOk(s: State) {
    forall r | r in s.recs :: LockOk(s.recs[r], r) && (s.recs[r].excl.Some? ==> s.recs[r].excl.value in s.pc)
  }

  /** A word that says "cached at i" is always right. */
  predicate WordOk(s: State, r: nat)
    requires r in s.recs
  {
    match s.recs[r].word.loc
    case AtSlot(i) => i < |s.entries| && s.entries[i].rid == r
    case AtRid(x) => x == r
  }

  predicate WordsOk(s: State) {
    forall r | r in s.recs :: WordOk(s, r)
  }

  /** A slot that names a record is named by its word, or the record is write
      locked by a task in the middle of moving it. */
  predicate SlotOk(s: State, i: nat)
    requires i < |s.entries|
  {
    var r := s.entries[i].rid;
    r != EMPTY ==>
      && r in s.recs
      && (|| s.recs[r].word.loc == AtSlot(i)
          || (s.recs[r].excl.Some? && s.recs[r].excl.value in s.pc && MidFlight(s.pc[s.recs[r].excl.value], r, i)))
  }

  predicate SlotsOk(s: State) {
    forall i :: 0 <= i < |s.entries| ==> SlotOk(s, i)
  }

  /** The unwritten columns of every cached copy agree with storage. */
  predicate ValuesOk(s: State)
    requires Shape(s)
  {
    forall r | r in s.recs && !Pending(s, r) && CachedCopy(s, r).Some? ::
      Frozen(s.schema, CachedCopy(s, r).value, s.storage[r])
  }

  predicate Holds(s: State, t: nat, r: nat) { r in s.recs && s.recs[r].excl == Some(t) }

  predicate JobOk(s: State, t: nat, job: Job)
    requires Shape(s)
  {
    && Holds(s, t, job.rid)
    && job.node.rid == job.rid && |job.node.val| == |s.schema.fields|
    && (forall c | c in job.query :: c < s.schema.width)
    && (job.created.Some? ==>
          |job.created.value| == s.schema.width && job.node.val == ToCached(s.schema, job.created.value))
    && (job.created.None? ==> job.node.val == ToCached(s.schema, s.storage[job.rid]))
  }

  /** The job's word does not point at a slot yet. */
  predicate Unplaced(pc: Pc) {
    || pc.Probe? || pc.CasEmpty? || pc.TestRef? || pc.ClearRef? || pc.LockLoad? || pc.LockCas? || pc.Validate?
    || pc.DropStale? || pc.ReloadRid? || pc.RidLoad? || pc.RidStore? || pc.ReadOld?
    || pc.WriteHead? || pc.WriteVal? || pc.IndexLoad? || pc.IndexStore?
  }

  predicate PlacedAt(s: State, job: Job, i: nat) {
    && job.rid in s.recs && s.recs[job.rid].word.loc == AtSlot(i)
    && i < |s.entries| && s.entries[i].val == job.node.val
  }

  predicate PcOk(s: State, t: nat, pc: Pc) {
    match pc
    case Idle => true
    case ReadCas(r, seen) => r in s.recs && !seen.writer
    case WriteCas(r, seen) => r in s.recs && Free(seen)
    case UpgradeCas(g, seen) => g.rid in s.recs && g in s.recs[g.rid].shared && g.task == t && seen.readers <= 1
    case CasEmpty(_, i) => i < |s.entries|
    case TestRef(_, i, v) => i < |s.entries| && v in s.recs
    case ClearRef(_, i) => i < |s.entries|
    case LockLoad(_, i, v) => i < |s.entries| && v in s.recs
    case LockCas(_, i, v, seen) => i < |s.entries| && v in s.recs && Free(seen)
    case Validate(_, i, _) => i < |s.entries|
    case ReloadRid(_, i, v) => v in s.recs && s.recs[v].word.loc == AtSlot(i)
    case RidLoad(_, i, v, rid) => v in s.recs && s.recs[v].word.loc == AtSlot(i) && rid == v
    case RidStore(_, i, v, rid, seen) =>
      v in s.recs && s.recs[v].word.loc == AtSlot(i) && rid == v && seen == s.recs[v].word
    case ReadOld(_, i, v) => i < |s.entries| && s.entries[i].rid == v
    case WriteHead(job, i, p) =>
      && i < |s.entries|
      && s.entries[i].rid == (if p.Some? then p.value.rid else job.rid)
      && (p.Some? ==> s.entries[i].val == p.value.val)
    case WriteVal(job, i, _) => i < |s.entries| && s.entries[i].rid == job.rid
    case IndexLoad(job, i, _) => i < |s.entries| && s.entries[i].rid == job.rid && s.entries[i].val == job.node.val
    case IndexStore(job, i, _, seen) =>
      && i < |s.entries| && s.entries[i].rid == job.rid && s.entries[i].val == job.node.val
      && job.rid in s.recs && seen == s.recs[job.rid].word
    case SetRef(job, i, _) => PlacedAt(s, job, i) && job.created.None?
    case WriteOld(job, i, _) => PlacedAt(s, job, i)
    case DropVictim(job, i, _) => PlacedAt(s, job, i)
    case Deliver(job, found) =>
      && job.created.None? && job.rid in s.recs
      && s.recs[job.rid].word.loc == (if found.Some? then AtSlot(found.value) else AtRid(job.rid))
    case StorageInsert(job) =>
      && job.created.Some? && job.rid in s.recs
      && (s.recs[job.rid].word.loc.AtSlot? ==> PlacedAt(s, job, s.recs[job.rid].word.loc.slot))
    case _ => true
  }

  predicate TaskOk(s: State, t: nat)
    requires Shape(s) && t in s.pc
  {
    var pc := s.pc[t];
    && PcOk(s, t, pc)
    && (JobOf(pc).Some? ==> JobOk(s, t, JobOf(pc).value))
    && (Unplaced(pc) ==> pc.job.rid in s.recs && s.recs[pc.job.rid].word.loc == AtRid(pc.job.rid))
    && (VictimOf(pc).Some? ==>
          var v := VictimOf(pc).value;
          && Holds(s, t, v) && v != pc.job.rid
          && (Leaving(pc).Some? || Carried(pc).Some? || pc.DropVictim? ==> s.recs[v].word.loc == AtRid(v))
          && (Carried(pc).Some? ==> |Carried(pc).value.val| == |s.schema.fields|))
  }

  predicate TasksOk(s: State)
    requires Shape(s)
  {
    forall t | t in s.pc :: TaskOk(s, t)
  }

  /** A query result points at where its record is, as long as it lives. */
  predicate ViewOk(s: State, w: View) {
    && w.rid in s.recs && w.task in s.pc
    && (forall c | c in w.query :: c < s.schema.width)
    && (if w.guard.Some? then
          && w.guard.value in s.recs[w.rid].shared && w.guard.value.task == w.task
          && !(s.pc[w.task].UpgradeCas? && s.pc[w.task].guard == w.guard.value)
        else && s.recs[w.rid].excl == Some(w.task)
             && (JobOf(s.pc[w.task]).Some? ==> JobOf(s.pc[w.task]).value.rid != w.rid)
             && VictimOf(s.pc[w.task]) != Some(w.rid))
    && (match s.recs[w.rid].word.loc
        case AtSlot(i) =>
          w.slot == Some(i) && (if w.tuple.Some? then w.tuple.value == w.rid else Matches(s.schema, w.query))
        case AtRid(_) => w.slot == None && w.tuple == Some(w.rid))
  }

  predicate ViewsOk(s: State) {
    forall w | w in s.views :: ViewOk(s, w)
  }

  predicate Inv(s: State) {
    Shape(s) && LocksOk(s) && WordsOk(s) && SlotsOk(s) && ValuesOk(s) && TasksOk(s) && ViewsOk(s)
  }

  lemma InitInv(s: State)
    requires Init(s)
    ensures Inv(s)
  {}

  /** No record sits in two slots. */
  lemma NamedOnce(s: State, i: nat, j: nat)
    requires Inv(s) && i < |s.entries| && j < |s.entries|
    requires s.entries[i].rid == s.entries[j].rid != EMPTY
    ensures i == j
  {
    assert SlotOk(s, i) && SlotOk(s, j);
    var r := s.entries[i].rid;
    assert WordOk(s, r);
    if s.recs[r].excl.Some? { assert TaskOk(s, s.recs[r].excl.value); }
  }
}
