/** The attribute cache under any number of tasks, one atomic action at a time.

    Each task runs one operation of the cache at once; its program counter says
    which action comes next and holds the values it has loaded. Slots are probed
    in any order, coins may fall either way and a compare-and-swap may fail
    spuriously, so every schedule of the program is a run here. */
module Protocol {
  import opened Common
  import opened LockWord
  import opened Columns

  /** The record id that marks an empty slot. */
  const EMPTY: nat := 0xffff_ffff

  datatype ReadGuard = ReadGuard(task: nat, id: nat, rid: nat)

  /** The lock word of a record, with the guards that are live on it. */
  datatype Rec = Rec(word: Word, shared: set<ReadGuard>, excl: Option<nat>)

  datatype Entry = Entry(rid: nat, refd: bool, val: Cached)

  /** A node on its way into the cache: for a record read from storage, or for a
      new record whose tuple is not stored yet. */
  datatype Job = Job(rid: nat, node: Entry, created: Option<Tuple>, query: set<nat>)

  /** A query result in the hands of a client: it points at a slot, at a stored
      tuple or at both, and is bound to a read guard or to the write guard. */
  datatype View = View(task: nat, rid: nat, guard: Option<ReadGuard>, query: set<nat>,
                       slot: Option<nat>, tuple: Option<nat>)

  datatype Pc =
    | Idle
    // lock a record
    | ReadCas(rid: nat, seen: Word)
    | WriteCas(rid: nat, seen: Word)
    | UpgradeCas(guard: ReadGuard, seen: Word)
    // probe for a slot
    | Probe(job: Job)
    | CasEmpty(job: Job, slot: nat)
    | TestRef(job: Job, slot: nat, victim: nat)
    | ClearRef(job: Job, slot: nat)
    | LockLoad(job: Job, slot: nat, victim: nat)
    | LockCas(job: Job, slot: nat, victim: nat, seen: Word)
    | Validate(job: Job, slot: nat, victim: nat)
    | DropStale(job: Job, victim: nat)
    // take the victim out
    | ReloadRid(job: Job, slot: nat, victim: nat)
    | RidLoad(job: Job, slot: nat, victim: nat, rid: nat)
    | RidStore(job: Job, slot: nat, victim: nat, rid: nat, seen: Word)
    | ReadOld(job: Job, slot: nat, victim: nat)
    // put the new node in
    | WriteHead(job: Job, slot: nat, prev: Option<Entry>)
    | WriteVal(job: Job, slot: nat, prev: Option<Entry>)
    | IndexLoad(job: Job, slot: nat, prev: Option<Entry>)
    | IndexStore(job: Job, slot: nat, prev: Option<Entry>, seen: Word)
    | SetRef(job: Job, slot: nat, prev: Option<Entry>)
    // write the victim back
    | WriteOld(job: Job, slot: nat, evicted: Entry)
    | DropVictim(job: Job, slot: nat, victim: nat)
    // finish
    | Deliver(job: Job, found: Option<nat>)
    | StorageInsert(job: Job)

  datatype State = State(
    schema: Schema,
    recs: map<nat, Rec>,
    entries: seq<Entry>,
    storage: map<nat, Tuple>,
    pc: map<nat, Pc>,
    views: set<View>)

  datatype Action =
    | LockRead(rid: nat)
    | LockWrite(rid: nat)
    | Upgrade(guard: ReadGuard)
    | DropRead(guard: ReadGuard)
    | DropWrite(rid: nat)
    | Open(rid: nat, under: Option<ReadGuard>, query: set<nat>)
    | Touch(view: View)
    | Get(view: View, col: nat)
    | Set(view: View, col: nat, value: int)
    | Promote(rid: nat, query: set<nat>)
    | Insert(rid: nat, tuple: Tuple)
    | ProbeSlot(slot: nat)
    | GiveUp
    | Go(id: nat)
    | Fail

  /** What a client sees of an action. */
  datatype Label =
    | Tau
    | Inserted(rid: nat, tuple: Tuple)
    | Got(rid: nat, col: nat, value: int)
    | Put(rid: nat, col: nat, value: int)

  // Small updates.

  function Goto(s: State, t: nat, pc: Pc): State { s.(pc := s.pc[t := pc]) }

  function SetRec(s: State, r: nat, rec: Rec): State { s.(recs := s.recs[r := rec]) }

  function SetEntry(s: State, i: nat, e: Entry): State
    requires i < |s.entries|
  {
    s.(entries := s.entries[i := e])
  }

  function LocOf(s: State, r: nat): Loc
    requires r in s.recs
  {
    s.recs[r].word.loc
  }

  /** Release the write lock of `r` (a fetch_sub of the writer bit). */
  function Unlocked(rec: Rec): Rec { rec.(word := rec.word.(writer := false), excl := None) }

  function Locked(rec: Rec, t: nat): Rec { rec.(word := rec.word.(writer := true), excl := Some(t)) }

  predicate Free(w: Word) { !w.writer && w.readers == 0 }

  /** Where an operation continues once its node is placed or given up. */
  function Done(job: Job, found: Option<nat>): Pc {
    if job.created.Some? then StorageInsert(job) else Deliver(job, found)
  }

  function AfterIndex(job: Job, slot: nat, prev: Option<Entry>): Pc {
    if prev.Some? then WriteOld(job, slot, prev.value) else Done(job, Some(slot))
  }

  /** `read` on the word of a guarded record, and the tail of
      `read_and_promote`. */
  function MakeView(s: State, t: nat, r: nat, guard: Option<ReadGuard>, query: set<nat>, slot: Option<nat>): View {
    View(t, r, guard, query, slot,
         if slot.None? then Some(r)
         else if Matches(s.schema, query) then None
         else if slot.value < |s.entries| then Some(s.entries[slot.value].rid) else None)
  }

  function ViewsOf(s: State, t: nat, r: nat): set<View> {
    set w | w in s.views && w.task == t && w.rid == r && w.guard == None
  }

  function ViewsUnder(s: State, g: ReadGuard): set<View> {
    set w | w in s.views && w.guard == Some(g)
  }

  // The actions of a client that holds or wants guards.

  predicate ClientNext(s: State, s': State, t: nat, a: Action, l: Label)
    requires t in s.pc
  {
    s.pc[t] == Idle &&
    match a
    case LockRead(r) =>
      && r in s.recs && l == Tau
      && s' == Goto(s, t, if s.recs[r].word.writer then Idle else ReadCas(r, s.recs[r].word))
    case LockWrite(r) =>
      && r in s.recs && l == Tau
      && s' == Goto(s, t, if Free(s.recs[r].word) then WriteCas(r, s.recs[r].word) else Idle)
    case Upgrade(g) =>
      && g.rid in s.recs && g in s.recs[g.rid].shared && g.task == t && l == Tau
      && s' == Goto(s, t, if s.recs[g.rid].word.readers > 1 then Idle else UpgradeCas(g, s.recs[g.rid].word))
               .(views := s.views - ViewsUnder(s, g))
    case DropRead(g) =>
      && g.rid in s.recs && g in s.recs[g.rid].shared && g.task == t && l == Tau
      && s.recs[g.rid].word.readers > 0
      && var rec := s.recs[g.rid];
         s' == SetRec(s, g.rid, rec.(word := rec.word.(readers := rec.word.readers - 1), shared := rec.shared - {g}))
               .(views := s.views - ViewsUnder(s, g))
    case DropWrite(r) =>
      && r in s.recs && s.recs[r].excl == Some(t) && l == Tau
      && s' == SetRec(s, r, Unlocked(s.recs[r])).(views := s.views - ViewsOf(s, t, r))
    case Open(r, guard, query) =>
      && r in s.recs && l == Tau
      && (forall c | c in query :: c < s.schema.width)
      && (if guard.Some? then guard.value in s.recs[r].shared && guard.value.task == t && guard.value.rid == r
          else s.recs[r].excl == Some(t))
      && (match LocOf(s, r)
          case AtSlot(i) => s' == s.(views := s.views + {MakeView(s, t, r, guard, query, Some(i))})
          case AtRid(x) => s' == s.(views := s.views + {MakeView(s, t, x, guard, query, None)}))
    case Touch(w) =>
      && w in s.views && w.task == t && w.slot.Some? && w.slot.value < |s.entries| && l == Tau
      && s' == SetEntry(s, w.slot.value, s.entries[w.slot.value].(refd := true))
    case Get(w, c) =>
      && w in s.views && w.task == t && c in w.query && s' == s
      && (w.slot.Some? ==> w.slot.value < |s.entries| && |s.entries[w.slot.value].val| == |s.schema.fields|)
      && (w.tuple.Some? ==> w.tuple.value in s.storage && |s.storage[w.tuple.value]| == s.schema.width)
      && c < s.schema.width
      && var v := ViewValue(s, w, c);
         v.Some? && l == Got(w.rid, c, v.value)
    case Set(w, c, v) =>
      && w in s.views && w.task == t && w.guard == None && c in w.query && c < s.schema.width
      && Writable(s.schema, c) && l == Put(w.rid, c, v)
      && SetThrough(s, s', w, c, v)
    case Promote(r, query) =>
      && r in s.recs && s.recs[r].excl == Some(t) && LocOf(s, r).AtRid? && l == Tau
      && (forall c | c in query :: c < s.schema.width)
      && var x := LocOf(s, r).rid;
         && x in s.storage && |s.storage[x]| == s.schema.width && WfSchema(s.schema)
         && s' == Goto(s, t, Probe(Job(x, Entry(x, false, ToCached(s.schema, s.storage[x])), None, query)))
                  .(views := s.views - ViewsOf(s, t, r))
    case Insert(r, tuple) =>
      && r !in s.recs && r in s.storage && r < EMPTY && l == Tau
      && |tuple| == s.schema.width && WfSchema(s.schema)
      && s' == SetRec(Goto(s, t, Probe(Job(r, Entry(r, false, ToCached(s.schema, tuple)), Some(tuple), {}))), r,
                      Rec(Word(true, 0, AtRid(r)), {}, Some(t)))
    case _ => false
  }

  /** The value a view gives for column `c`; None is a failing `expect`. */
  function ViewValue(s: State, w: View, c: nat): Option<int>
    requires w.slot.Some? ==> w.slot.value < |s.entries| && |s.entries[w.slot.value].val| == |s.schema.fields|
    requires w.tuple.Some? ==> w.tuple.value in s.storage && |s.storage[w.tuple.value]| == s.schema.width
    requires c < s.schema.width
  {
    GetValue(s.schema,
             if w.slot.Some? then Some(s.entries[w.slot.value].val) else None,
             if w.tuple.Some? then Some(s.storage[w.tuple.value]) else None, c)
  }

  /** `get_value_mut`: write into the slot if the column is cached, else into
      the stored tuple. */
  predicate SetThrough(s: State, s': State, w: View, c: nat, v: int) {
    var p := Position(s.schema.fields, c);
    if p.Some? && w.slot.Some? then
      var i := w.slot.value;
      && i < |s.entries| && p.value < |s.entries[i].val|
      && s' == SetEntry(s, i, s.entries[i].(val := s.entries[i].val[p.value := v]))
    else
      && w.tuple.Some? && w.tuple.value in s.storage && c < |s.storage[w.tuple.value]|
      && s' == s.(storage := s.storage[w.tuple.value := s.storage[w.tuple.value][c := v]])
  }

  // The actions of an operation in progress.

  /** Actions of a lock attempt or a probe that only load, compare or decide. */
  function ProbeNext(s: State, t: nat, a: Action): Option<Pc>
    requires t in s.pc
  {
    match s.pc[t]
    case ReadCas(_, _) => if a == Fail then Some(Idle) else None
    case WriteCas(_, _) => if a == Fail then Some(Idle) else None
    case UpgradeCas(_, _) => if a == Fail then Some(Idle) else None
    case Probe(job) =>
      if a == GiveUp then Some(Done(job, None))
      else if a.ProbeSlot? && a.slot < |s.entries| then
        Some(if s.entries[a.slot].rid == EMPTY then CasEmpty(job, a.slot)
             else TestRef(job, a.slot, s.entries[a.slot].rid))
      else None
    case CasEmpty(job, _) => if a == Fail then Some(Probe(job)) else None
    case TestRef(job, i, v) =>
      if a.Go? && i < |s.entries| then
        Some(if s.entries[i].refd then ClearRef(job, i) else LockLoad(job, i, v))
      else None
    case LockLoad(job, i, v) =>
      if a.Go? && v in s.recs then
        Some(if Free(s.recs[v].word) then LockCas(job, i, v, s.recs[v].word) else Probe(job))
      else None
    case LockCas(job, _, _, _) => if a == Fail then Some(Probe(job)) else None
    case _ => None
  }

  /** Actions of an eviction or a placement that only load, compare or decide. */
  function MoveNext(s: State, t: nat, a: Action): Option<Pc>
    requires t in s.pc
  {
    match s.pc[t]
    case Validate(job, i, v) =>
      if a == Fail then Some(DropStale(job, v))
      else if a.Go? && i < |s.entries| && s.entries[i].rid == v then Some(ReloadRid(job, i, v))
      else None
    case ReloadRid(job, i, v) =>
      if a.Go? && i < |s.entries| then Some(RidLoad(job, i, v, s.entries[i].rid)) else None
    case RidLoad(job, i, v, rid) =>
      if a.Go? && v in s.recs then Some(RidStore(job, i, v, rid, s.recs[v].word)) else None
    case ReadOld(job, i, _) =>
      if a.Go? && i < |s.entries| then Some(WriteHead(job, i, Some(s.entries[i]))) else None
    case IndexLoad(job, i, p) =>
      if a.Go? && job.rid in s.recs then Some(IndexStore(job, i, p, s.recs[job.rid].word)) else None
    case SetRef(job, i, p) => if a == Fail then Some(AfterIndex(job, i, p)) else None
    case _ => None
  }

  /** A read lock is granted only while fewer than 126 read guards are live. */
  predicate LockGranted(s: State, s': State, t: nat, a: Action)
    requires t in s.pc
  {
    a.Go? &&
    match s.pc[t]
    case ReadCas(r, seen) =>
      && r in s.recs && s.recs[r].word == seen && seen.readers + 1 < MAX_READER
      && var rec := s.recs[r];
         var g := ReadGuard(t, a.id, r);
         && g !in rec.shared
         && s' == SetRec(Goto(s, t, Idle), r,
                         rec.(word := seen.(readers := seen.readers + 1), shared := rec.shared + {g}))
    case WriteCas(r, seen) =>
      && r in s.recs && s.recs[r].word == seen
      && s' == SetRec(Goto(s, t, Idle), r, Locked(s.recs[r], t))
    case UpgradeCas(g, seen) =>
      && g.rid in s.recs && s.recs[g.rid].word == seen
      && var rec := s.recs[g.rid];
         s' == SetRec(Goto(s, t, Idle), g.rid,
                      Rec(Word(true, 0, seen.loc), rec.shared - {g}, Some(t)))
    case LockCas(job, slot, v, seen) =>
      && v in s.recs && s.recs[v].word == seen
      && s' == SetRec(Goto(s, t, Validate(job, slot, v)), v, Locked(s.recs[v], t))
    case _ => false
  }

  /** Actions that change a slot. */
  predicate SlotNext(s: State, s': State, t: nat, a: Action)
    requires t in s.pc
  {
    a.Go? &&
    match s.pc[t]
    case CasEmpty(job, i) =>
      && i < |s.entries| && s.entries[i].rid == EMPTY
      && s' == SetEntry(Goto(s, t, WriteHead(job, i, None)), i, s.entries[i].(rid := job.rid))
    case ClearRef(job, i) =>
      && i < |s.entries|
      && s' == SetEntry(Goto(s, t, Probe(job)), i, s.entries[i].(refd := false))
    case WriteHead(job, i, prev) =>
      && i < |s.entries|
      && s' == SetEntry(Goto(s, t, WriteVal(job, i, prev)), i,
                        s.entries[i].(rid := job.node.rid, refd := job.node.refd))
    case WriteVal(job, i, prev) =>
      && i < |s.entries|
      && s' == SetEntry(Goto(s, t, IndexLoad(job, i, prev)), i, s.entries[i].(val := job.node.val))
    case SetRef(job, i, prev) =>
      && i < |s.entries|
      && s' == SetEntry(Goto(s, t, AfterIndex(job, i, prev)), i, s.entries[i].(refd := true))
    case _ => false
  }

  /** Actions that change the word of a record the task has write-locked. */
  predicate WordNext(s: State, s': State, t: nat, a: Action)
    requires t in s.pc
  {
    a.Go? &&
    match s.pc[t]
    case DropStale(job, v) =>
      && v in s.recs
      && s' == SetRec(Goto(s, t, Probe(job)), v, Unlocked(s.recs[v]))
    case RidStore(job, i, v, rid, seen) =>
      && v in s.recs
      && s' == SetRec(Goto(s, t, ReadOld(job, i, v)), v, s.recs[v].(word := seen.(loc := AtRid(rid))))
    case IndexStore(job, i, prev, seen) =>
      && job.rid in s.recs
      && s' == SetRec(Goto(s, t, if job.created.None? then SetRef(job, i, prev) else AfterIndex(job, i, prev)), job.rid,
                      s.recs[job.rid].(word := seen.(loc := AtSlot(i))))
    case DropVictim(job, i, v) =>
      && v in s.recs
      && s' == SetRec(Goto(s, t, Done(job, Some(i))), v, Unlocked(s.recs[v]))
    case _ => false
  }

  /** Actions on storage, and the delivery of a query result. */
  predicate FinishNext(s: State, s': State, t: nat, a: Action, l: Label)
    requires t in s.pc
  {
    a.Go? &&
    match s.pc[t]
    case WriteOld(job, i, prev) =>
      && l == Tau && prev.rid in s.storage
      && |prev.val| == |s.schema.fields| && |s.storage[prev.rid]| == s.schema.width
      && s' == Goto(s, t, DropVictim(job, i, prev.rid))
               .(storage := s.storage[prev.rid := WriteBack(s.schema, prev.val, s.storage[prev.rid])])
    case Deliver(job, found) =>
      && l == Tau
      && s' == Goto(s, t, Idle).(views := s.views + {MakeView(s, t, job.rid, None, job.query, found)})
    case StorageInsert(job) =>
      && job.created.Some? && l == Inserted(job.rid, job.created.value)
      && s' == Goto(s, t, Idle).(storage := s.storage[job.rid := job.created.value])
    case _ => false
  }

  /** One action of task `t`. */
  predicate Next(s: State, s': State, t: nat, a: Action, l: Label) {
    && t in s.pc
    && (|| ClientNext(s, s', t, a, l)
        || (l == Tau && ProbeNext(s, t, a).Some? && s' == Goto(s, t, ProbeNext(s, t, a).value))
        || (l == Tau && MoveNext(s, t, a).Some? && s' == Goto(s, t, MoveNext(s, t, a).value))
        || (l == Tau && LockGranted(s, s', t, a))
        || (l == Tau && SlotNext(s, s', t, a))
        || (l == Tau && WordNext(s, s', t, a))
        || FinishNext(s, s', t, a, l))
  }

  predicate Init(s: State) {
    && WfSchema(s.schema) && 0 < |s.entries| <= EMPTY
    && s.recs == map[] && s.views == {}
    && (forall i :: 0 <= i < |s.entries| ==> s.entries[i].rid == EMPTY && |s.entries[i].val| == |s.schema.fields|)
    && (forall r | r in s.storage :: |s.storage[r]| == s.schema.width)
    && (forall t | t in s.pc :: s.pc[t] == Idle)
  }
}
