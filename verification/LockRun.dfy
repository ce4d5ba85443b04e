/** Any number of tasks locking, unlocking, upgrading and re-addressing one
    record, interleaved at each load, compare-and-swap and store of its word. */
module LockRun {
  import opened LockWord

  /** A live guard: the `id`-th guard taken by `task`. */
  datatype Guard = Guard(task: nat, id: nat)

  /** What a task is in the middle of, with the word it loaded. */
  datatype Pc =
    | Idle
    | ReadCas(seen: bv64)
    | WriteCas(seen: bv64)
    | UpgradeCas(guard: Guard, seen: bv64)
    | Storing(guard: Guard, seen: bv64, cached: bool, id: bv64)

  datatype State = State(word: bv64, shared: set<Guard>, exclusive: set<Guard>, pc: map<nat, Pc>)

  datatype Action =
    | LoadForRead
    | CasRead(id: nat)
    | LoadForWrite
    | CasWrite(id: nat)
    | LoadForUpgrade(guard: Guard)
    | CasUpgrade
    | CasFails
    | DropShared(guard: Guard)
    | DropExclusive(guard: Guard)
    | LoadForStore(guard: Guard, cached: bool, payload: bv64)
    | Store

  predicate Fresh(s: State, g: Guard) { g !in s.shared && g !in s.exclusive }

  function Goto(s: State, t: nat, pc: Pc): State { s.(pc := s.pc[t := pc]) }

  /** One atomic action of task `t`. A failing compare-and-swap may be spurious.
      A read guard is granted only while fewer than 126 are live: the program
      asserts that the count plus one stays below MAX_READER. */
  predicate Next(s: State, s': State, t: nat, a: Action) {
    t in s.pc &&
    match a
    case LoadForRead =>
      s.pc[t] == Idle && s' == Goto(s, t, if WriteLocked(s.word) then Idle else ReadCas(s.word))
    case CasRead(id) =>
      var g := Guard(t, id);
      && s.pc[t] == ReadCas(s.word) && Fresh(s, g) && |s.shared| + 1 < MAX_READER
      && s' == Goto(s, t, Idle).(word := AddReader(s.word), shared := s.shared + {g})
    case LoadForWrite =>
      s.pc[t] == Idle && s' == Goto(s, t, if HasLock(s.word) then Idle else WriteCas(s.word))
    case CasWrite(id) =>
      var g := Guard(t, id);
      && s.pc[t] == WriteCas(s.word) && Fresh(s, g)
      && s' == Goto(s, t, Idle).(word := SetWriter(s.word), exclusive := s.exclusive + {g})
    case LoadForUpgrade(g) =>
      && s.pc[t] == Idle && g in s.shared && g.task == t
      && s' == Goto(s, t, if ReadLockCnt(s.word) > 1 then Idle else UpgradeCas(g, s.word))
    case CasUpgrade =>
      && s.pc[t].UpgradeCas? && s.pc[t].seen == s.word
      && var g := s.pc[t].guard;
         s' == Goto(s, t, Idle).(word := UpgradeWord(s.word), shared := s.shared - {g}, exclusive := s.exclusive + {g})
    case CasFails =>
      && (s.pc[t].ReadCas? || s.pc[t].WriteCas? || s.pc[t].UpgradeCas?)
      && s' == Goto(s, t, Idle)
    case DropShared(g) =>
      && s.pc[t] == Idle && g in s.shared && g.task == t
      && s' == s.(word := SubReader(s.word), shared := s.shared - {g})
    case DropExclusive(g) =>
      && s.pc[t] == Idle && g in s.exclusive && g.task == t
      && s' == s.(word := SubWriter(s.word), exclusive := s.exclusive - {g})
    case LoadForStore(g, cached, payload) =>
      && s.pc[t] == Idle && g in s.exclusive && g.task == t && payload <= ID_MASK
      && s' == Goto(s, t, Storing(g, s.word, cached, payload))
    case Store =>
      && s.pc[t].Storing?
      && var pc := s.pc[t];
         s' == Goto(s, t, Idle).(word := if pc.cached then StoreIndex(pc.seen, pc.id) else StoreRid(pc.seen, pc.id))
  }

  predicate Init(s: State) {
    && Wf(s.word) && !HasLock(s.word)
    && s.shared == {} && s.exclusive == {}
    && forall t | t in s.pc :: s.pc[t] == Idle
  }

  /** The word counts the guards. */
  predicate Counted(s: State) {
    && Wf(s.word)
    && Decode(s.word).readers == |s.shared| < MAX_READER
    && (Decode(s.word).writer <==> s.exclusive != {})
    && (forall g, h | g in s.exclusive && h in s.exclusive :: g == h)
    && (s.exclusive != {} ==> s.shared == {})
  }

  predicate PcOk(s: State, t: nat, pc: Pc) {
    match pc
    case Idle => true
    case ReadCas(seen) => !WriteLocked(seen)
    case WriteCas(seen) => !HasLock(seen)
    case UpgradeCas(g, seen) => g in s.shared && g.task == t && !(ReadLockCnt(seen) > 1)
    case Storing(g, seen, cached, id) => g in s.exclusive && g.task == t && seen == s.word && id <= ID_MASK
  }

  predicate Inv(s: State) {
    && Counted(s)
    && forall t | t in s.pc :: PcOk(s, t, s.pc[t])
  }

  lemma InitInv(s: State)
    requires Init(s)
    ensures Inv(s)
  {
    hide Decode, Wf, HasLock, WriteLocked, ReadLockCnt, AddReader, SubReader, SetWriter, SubWriter,
         UpgradeWord, StoreRid, StoreIndex, Num;
    DecodeTests(s.word);
  }

  /** A read grant finds no write guard and adds exactly one reader. */
  lemma ReadGrant(s: State, s': State, t: nat, id: nat)
    requires Inv(s) && Next(s, s', t, CasRead(id))
    ensures Counted(s') && s.exclusive == {}
    ensures Decode(s'.word) == Decode(s.word).(readers := Decode(s.word).readers + 1)
  {
    hide Decode, Wf, HasLock, WriteLocked, ReadLockCnt, AddReader, SubReader, SetWriter, SubWriter,
         UpgradeWord, StoreRid, StoreIndex, Num;
    DecodeTests(s.word);
    DecodeAddReader(s.word);
    WfReader(s.word);
  }

  /** A write grant finds no guard at all. */
  lemma WriteGrant(s: State, s': State, t: nat, id: nat)
    requires Inv(s) && Next(s, s', t, CasWrite(id))
    ensures Counted(s') && s.exclusive == {} && s.shared == {}
    ensures Decode(s'.word) == Decode(s.word).(writer := true)
  {
    hide Decode, Wf, HasLock, WriteLocked, ReadLockCnt, AddReader, SubReader, SetWriter, SubWriter,
         UpgradeWord, StoreRid, StoreIndex, Num;
    DecodeTests(s.word);
    DecodeWriter(s.word);
    WfWriter(s.word);
  }

  /** An upgrade turns the only guard into the write guard. */
  lemma UpgradeGrant(s: State, s': State, t: nat)
    requires Inv(s) && Next(s, s', t, CasUpgrade)
    ensures Counted(s') && s.shared == {s.pc[t].guard} && s'.exclusive == {s.pc[t].guard}
    ensures Decode(s'.word) == Decode(s.word).(writer := true, readers := 0)
  {
    hide Decode, Wf, HasLock, WriteLocked, ReadLockCnt, AddReader, SubReader, SetWriter, SubWriter,
         UpgradeWord, StoreRid, StoreIndex, Num;
    var g := s.pc[t].guard;
    DecodeTests(s.word);
    DecodeWriter(s.word);
    WfUpgrade(s.word);
    ReaderCountTest(s.word);
    OnlyMember(s.shared, g);
  }

  lemma OnlyMember(a: set<Guard>, g: Guard)
    requires g in a && |a| <= 1
    ensures a == {g}
  {
    assert |a - {g}| == 0;
    assert a == (a - {g}) + {g};
  }

  lemma Unlock(s: State, s': State, t: nat, a: Action)
    requires Inv(s) && Next(s, s', t, a) && (a.DropShared? || a.DropExclusive?)
    ensures Counted(s')
    ensures Decode(s'.word).loc == Decode(s.word).loc
  {
    hide Decode, Wf, HasLock, WriteLocked, ReadLockCnt, AddReader, SubReader, SetWriter, SubWriter,
         UpgradeWord, StoreRid, StoreIndex, Num;
    if a.DropShared? {
      assert |s.shared| == |s.shared - {a.guard}| + 1;
      DecodeSubReader(s.word);
      WfReader(s.word);
    } else {
      DecodeWriter(s.word);
      WfWriter(s.word);
    }
  }

  /** `store_rid` and `store_index` load and store separately, yet the stored
      word is the current one with a new payload: no change of another task
      happened in between. */
  lemma StoreLosesNothing(s: State, s': State, t: nat)
    requires Inv(s) && Next(s, s', t, Store)
    ensures Counted(s')
    ensures var pc := s.pc[t];
            Decode(s'.word) == Decode(s.word).(loc := if pc.cached then AtSlot(Num(pc.id)) else AtRid(Num(pc.id)))
  {
    hide Decode, Wf, HasLock, WriteLocked, ReadLockCnt, AddReader, SubReader, SetWriter, SubWriter,
         UpgradeWord, StoreRid, StoreIndex, Num;
    DecodeStore(s.word, s.pc[t].id);
    WfStore(s.word, s.pc[t].id);
  }

  lemma Stores(s: State, s': State, t: nat)
    requires Inv(s) && Next(s, s', t, Store)
    ensures Counted(s')
  {
    StoreLosesNothing(s, s', t);
  }

  /** Loads and failing compare-and-swaps change neither the word nor a guard. */
  predicate Quiet(a: Action) {
    a.LoadForRead? || a.LoadForWrite? || a.LoadForUpgrade? || a.CasFails? || a.LoadForStore?
  }

  lemma QuietCounted(s: State, s': State, t: nat, a: Action)
    requires Counted(s) && Next(s, s', t, a) && Quiet(a)
    ensures Counted(s') && s'.word == s.word
  {
    hide Decode, Wf, HasLock, WriteLocked, ReadLockCnt;
  }

  lemma NextCounted(s: State, s': State, t: nat, a: Action)
    requires Inv(s) && Next(s, s', t, a)
    ensures Counted(s')
    ensures a != Store ==> Decode(s'.word).loc == Decode(s.word).loc
  {
    hide Next, Counted, PcOk, Decode;
    if Quiet(a) {
      QuietCounted(s, s', t, a);
    } else {
      match a
      case CasRead(id) => ReadGrant(s, s', t, id);
      case CasWrite(id) => WriteGrant(s, s', t, id);
      case CasUpgrade => UpgradeGrant(s, s', t);
      case DropShared(_) => Unlock(s, s', t, a);
      case DropExclusive(_) => Unlock(s, s', t, a);
      case Store => Stores(s, s', t);
    }
  }

  /** No step takes a read guard away from another task. */
  lemma SharedKept(s: State, s': State, t: nat, a: Action, g: Guard)
    requires Inv(s) && Next(s, s', t, a) && g in s.shared && g.task != t
    ensures g in s'.shared
  {
    hide Counted, Decode, Wf, HasLock, WriteLocked, ReadLockCnt, AddReader, SubReader, SetWriter, SubWriter,
         UpgradeWord, StoreRid, StoreIndex, Num;
    if a == CasUpgrade { assert PcOk(s, t, s.pc[t]); }
  }

  /** While another task has the write guard, no step changes the guard or the word. */
  lemma ExclusiveKept(s: State, s': State, t: nat, a: Action, g: Guard)
    requires Inv(s) && Next(s, s', t, a) && g in s.exclusive && g.task != t
    ensures g in s'.exclusive && s'.word == s.word
  {
    hide Decode, Wf, HasLock, WriteLocked, ReadLockCnt, AddReader, SubReader, SetWriter, SubWriter,
         UpgradeWord, StoreRid, StoreIndex, Num;
    assert PcOk(s, t, s.pc[t]);
    match a
    case CasRead(id) => ReadGrant(s, s', t, id);
    case CasWrite(id) => WriteGrant(s, s', t, id);
    case CasUpgrade => UpgradeGrant(s, s', t);
    case _ =>
  }

  /** What another task is in the middle of stays right: in particular nobody
      changes the word between the load and the store of a payload. */
  lemma OthersUndisturbed(s: State, s': State, t: nat, a: Action, u: nat)
    requires Inv(s) && Next(s, s', t, a) && u in s.pc && u != t
    ensures PcOk(s', u, s.pc[u])
  {
    hide Next, Counted, HasLock, WriteLocked, ReadLockCnt;
    assert PcOk(s, u, s.pc[u]);
    match s.pc[u]
    case UpgradeCas(g, _) => SharedKept(s, s', t, a, g);
    case Storing(g, _, _, _) => ExclusiveKept(s, s', t, a, g);
    case _ =>
  }

  /** A step moves only its own task's program counter. */
  lemma OnlyOwnPc(s: State, s': State, t: nat, a: Action)
    requires Next(s, s', t, a)
    ensures t in s.pc && s'.pc.Keys == s.pc.Keys
    ensures forall u | u in s.pc && u != t :: s'.pc[u] == s.pc[u]
  {
    hide PcOk, Decode, Wf, HasLock, WriteLocked, ReadLockCnt, AddReader, SubReader, SetWriter, SubWriter,
         UpgradeWord, StoreRid, StoreIndex, Num;
  }

  /** What the task itself is in the middle of after its step. */
  lemma OwnPcOk(s: State, s': State, t: nat, a: Action)
    requires Next(s, s', t, a)
    ensures t in s'.pc && PcOk(s', t, s'.pc[t])
  {
    hide Decode, Wf, HasLock, WriteLocked, ReadLockCnt, AddReader, SubReader, SetWriter, SubWriter,
         UpgradeWord, StoreRid, StoreIndex, Num;
  }

  lemma NextInv(s: State, s': State, t: nat, a: Action)
    requires Inv(s) && Next(s, s', t, a)
    ensures Inv(s')
  {
    hide Next, Counted, PcOk;
    OnlyOwnPc(s, s', t, a);
    OwnPcOk(s, s', t, a);
    NextCounted(s, s', t, a);
    forall u | u in s'.pc
      ensures PcOk(s', u, s'.pc[u])
    {
      if u != t { OthersUndisturbed(s, s', t, a, u); }
    }
  }

  predicate IsRun(run: seq<State>, who: seq<nat>, what: seq<Action>) {
    && |run| == |who| + 1 == |what| + 1
    && Init(run[0])
    && forall i :: 0 <= i < |who| ==> Next(run[i], run[i + 1], who[i], what[i])
  }

  /** Over every run the writer bit says that exactly one write guard is live,
      the count field is the number of read guards, and never both; and only the
      payload stores change the payload. */
  lemma {:induction false} RunCountsGuards(run: seq<State>, who: seq<nat>, what: seq<Action>, n: nat)
    requires IsRun(run, who, what) && n < |run|
    ensures Inv(run[n])
    ensures Decode(run[n].word).writer <==> |run[n].exclusive| == 1
    ensures Decode(run[n].word).readers == |run[n].shared|
    ensures run[n].exclusive == {} || run[n].shared == {}
    ensures n > 0 && what[n - 1] != Store ==> Decode(run[n].word).loc == Decode(run[n - 1].word).loc
  {
    hide Decode, Next, Wf;
    if n == 0 {
      InitInv(run[0]);
    } else {
      RunCountsGuards(run, who, what, n - 1);
      NextInv(run[n - 1], run[n], who[n - 1], what[n - 1]);
      NextCounted(run[n - 1], run[n], who[n - 1], what[n - 1]);
    }
    var e := run[n].exclusive;
    if e != {} {
      var g :| g in e;
      assert e == {g};
    }
  }
}
