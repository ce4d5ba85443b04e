/** Any number of tasks taking blocks from the lock-free block allocator, one load
    or compare-and-swap at a time. Free blocks are linked through their own
    memory, which a client may overwrite once it has the block. */
module AllocRun {
  /** The null pointer. */
  const NULL: int := -1

  datatype Pc =
    | Idle
    | Loaded(node: nat)
    | Linked(node: nat, next: int)

  /** `next` is the first word of every block; `owner` says who was given it. */
  datatype State = State(cap: nat, head: int, next: map<nat, int>, owner: map<nat, nat>, pc: map<nat, Pc>)

  datatype Action =
    | LoadHead
    | LoadNext
    | Cas
    | Scribble(node: nat, value: int)

  datatype Label = Tau | Handed(node: nat) | OutOfMemory

  function Goto(s: State, t: nat, pc: Pc): State { s.(pc := s.pc[t := pc]) }

  /** Look at a value loaded from the head. */
  predicate Inspect(s: State, s': State, t: nat, l: Label) {
    if s.head < 0 then s' == Goto(s, t, Idle) && l == OutOfMemory
    else s' == Goto(s, t, Loaded(s.head)) && l == Tau
  }

  predicate Next(s: State, s': State, t: nat, a: Action, l: Label) {
    t in s.pc &&
    match a
    case LoadHead => s.pc[t] == Idle && Inspect(s, s', t, l)
    case LoadNext =>
      && s.pc[t].Loaded? && s.pc[t].node in s.next && l == Tau
      && s' == Goto(s, t, Linked(s.pc[t].node, s.next[s.pc[t].node]))
    case Cas =>
      && s.pc[t].Linked?
      && (if s.head == s.pc[t].node then
            && l == Handed(s.pc[t].node)
            && s' == Goto(s, t, Idle).(head := s.pc[t].next, owner := s.owner[s.pc[t].node := t])
          else Inspect(s, s', t, l))
    case Scribble(node, value) =>
      && node in s.owner && s.owner[node] == t && s.pc[t] == Idle && l == Tau
      && s' == s.(next := s.next[node := value])
  }

  ghost predicate Init(s: State) {
    && s.head == s.cap - 1 && s.owner == map[]
    && (forall i: nat :: i in s.next <==> i < s.cap)
    && (forall i: nat | i in s.next :: s.next[i] == i - 1)
    && (forall t | t in s.pc :: s.pc[t] == Idle)
  }

  /** The blocks up to the head are free and linked downwards; all others are out.
      A task that read a link either read a good one or looks at a block that is
      out, so that its compare-and-swap will fail. */
  ghost predicate Inv(s: State) {
    && NULL <= s.head < s.cap
    && (forall i: nat :: i in s.next <==> i < s.cap)
    && (forall i: nat :: i in s.owner <==> s.head < i < s.cap)
    && (forall i: nat | i in s.next && i <= s.head :: s.next[i] == i - 1)
    && (forall t | t in s.pc ::
          match s.pc[t]
          case Idle => true
          case Loaded(n) => n < s.cap
          case Linked(n, nx) => n < s.cap && (n <= s.head ==> nx == n - 1))
  }

  /** A block is given out only while it is free, and failure means that all
      blocks are out. */
  lemma NextInv(s: State, s': State, t: nat, a: Action, l: Label)
    requires Inv(s) && Next(s, s', t, a, l)
    ensures Inv(s') && s'.cap == s.cap
    ensures l.Handed? ==> l.node == s.head && s'.head == s.head - 1 && l.node !in s.owner
    ensures !l.Handed? ==> s'.head == s.head
    ensures l == OutOfMemory ==> s.head == NULL && forall i: nat :: i < s.cap ==> i in s.owner
  {}

  datatype Event = Event(task: nat, action: Action, shows: Label)

  ghost predicate IsRun(run: seq<State>, events: seq<Event>) {
    && |run| == |events| + 1
    && Init(run[0])
    && forall i :: 0 <= i < |events| ==> Next(run[i], run[i + 1], events[i].task, events[i].action, events[i].shows)
  }

  /** How many of the first `n` events hand out a block. */
  function Count(events: seq<Event>, n: nat): nat
    requires n <= |events|
  {
    if n == 0 then 0 else Count(events, n - 1) + (if events[n - 1].shows.Handed? then 1 else 0)
  }

  lemma {:induction false} RunInv(run: seq<State>, events: seq<Event>, n: nat)
    requires IsRun(run, events) && n < |run|
    ensures Inv(run[n]) && run[n].cap == run[0].cap && run[n].head == run[0].cap - 1 - Count(events, n)
  {
    if n == 0 {
    } else {
      hide Inv;
      RunInv(run, events, n - 1);
      var e := events[n - 1];
      NextInv(run[n - 1], run[n], e.task, e.action, e.shows);
    }
  }

  /** In every interleaving the k-th block handed out is the k-th from the end, so
      no block is handed out twice, and failure is reported only after all blocks
      are out. */
  lemma RunHandsOutOnce(run: seq<State>, events: seq<Event>, i: nat)
    requires IsRun(run, events) && i < |events|
    ensures events[i].shows.Handed? ==> events[i].shows.node == run[0].cap - 1 - Count(events, i)
    ensures events[i].shows == OutOfMemory ==> Count(events, i) == run[0].cap
  {
    hide Next;
    RunInv(run, events, i);
    var e := events[i];
    NextInv(run[i], run[i + 1], e.task, e.action, e.shows);
  }

  lemma {:induction false} CountMonotone(events: seq<Event>, i: nat, j: nat)
    requires i <= j <= |events|
    ensures Count(events, i) <= Count(events, j)
  {
    if i == j {
    } else {
      CountMonotone(events, i, j - 1);
    }
  }

  lemma BlocksDistinct(run: seq<State>, events: seq<Event>, i: nat, j: nat)
    requires IsRun(run, events) && i < j < |events|
    requires events[i].shows.Handed? && events[j].shows.Handed?
    ensures events[i].shows.node != events[j].shows.node
  {
    RunHandsOutOnce(run, events, i);
    RunHandsOutOnce(run, events, j);
    CountMonotone(events, i + 1, j);
  }
}
