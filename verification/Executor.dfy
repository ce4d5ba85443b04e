/** The round-robin executor against running each task on its own. */
module Executor {
  import opened Common

  /** A future that answers `pending` polls with Pending and then gives its output. */
  datatype Task<T> = Task(pending: nat, output: T)

  /** Run one task to its end. */
  method BlockOn<T>(task: Task<T>) returns (out: T, polls: nat)
    ensures out == task.output && polls == task.pending + 1
  {
    var rest := task;
    polls := 1;
    while rest.pending > 0
      invariant rest.output == task.output && polls + rest.pending == task.pending + 1
    {
      rest := rest.(pending := rest.pending - 1);
      polls := polls + 1;
    }
    out := rest.output;
  }

  /** How often the task of a slot will answer Pending; None for an empty slot. */
  function Pendings<T>(slots: seq<Option<Task<T>>>): (p: seq<Option<nat>>)
    ensures |p| == |slots|
    ensures forall i :: 0 <= i < |p| ==> p[i] == if slots[i].Some? then Some(slots[i].value.pending) else None
  {
    seq(|slots|, i requires 0 <= i < |slots| => if slots[i].Some? then Some(slots[i].value.pending) else None)
  }

  /** The longest task. */
  function Max(p: seq<Option<nat>>): (m: nat)
    ensures forall i :: 0 <= i < |p| && p[i].Some? ==> p[i].value <= m
    ensures m == 0 || exists i :: 0 <= i < |p| && p[i] == Some(m)
  {
    if p == [] then 0 else
      var m := Max(p[..|p| - 1]);
      assert forall i :: 0 <= i < |p| - 1 ==> p[..|p| - 1][i] == p[i];
      if p[|p| - 1].Some? && m < p[|p| - 1].value then p[|p| - 1].value else m
  }

  /** How many of the first `n` slots hold a task. */
  function Filled(p: seq<Option<nat>>, n: nat): (m: nat)
    requires n <= |p|
    ensures m <= n
    ensures m == n <==> forall i :: 0 <= i < n ==> p[i].Some?
  {
    if n == 0 then 0 else Filled(p, n - 1) + (if p[n - 1].Some? then 1 else 0)
  }

  /** Slot `i` has a task that is still alive in a lap. */
  predicate Alive(p: seq<Option<nat>>, lap: nat, i: nat)
    requires i < |p|
  {
    p[i].Some? && p[i].value >= lap
  }

  /** The tasks before `pos` that are still alive in a lap, in order. */
  function Row(p: seq<Option<nat>>, lap: nat, pos: nat): seq<nat>
    requires pos <= |p|
  {
    if pos == 0 then []
    else Row(p, lap, pos - 1) + (if Alive(p, lap, pos - 1) then [pos - 1] else [])
  }

  /** The polls of the first `laps` laps: each lap polls every live task once. */
  function Laps(p: seq<Option<nat>>, laps: nat): seq<nat> {
    if laps == 0 then [] else Laps(p, laps - 1) + Row(p, laps - 1, |p|)
  }

  /** How often a task in slot `i` has been polled when lap `lap` has reached `pos`. */
  function Polled(lap: nat, pos: nat, i: nat): nat {
    lap + (if i < pos then 1 else 0)
  }

  /** Slot `i` had a task, which has finished by then. */
  predicate Over(p: seq<Option<nat>>, lap: nat, pos: nat, i: nat)
    requires i < |p|
  {
    p[i].Some? && p[i].value < Polled(lap, pos, i)
  }

  /** How many of the first `n` slots have finished by then. */
  function Done(p: seq<Option<nat>>, lap: nat, pos: nat, n: nat): (d: nat)
    requires n <= |p|
    ensures d <= Filled(p, n)
    ensures d == Filled(p, n) <==> forall i :: 0 <= i < n && p[i].Some? ==> Over(p, lap, pos, i)
  {
    if n == 0 then 0
    else Done(p, lap, pos, n - 1) + (if Over(p, lap, pos, n - 1) then 1 else 0)
  }

  lemma {:induction false} DoneStep(p: seq<Option<nat>>, lap: nat, pos: nat, n: nat)
    requires pos < |p| && n <= |p|
    ensures Done(p, lap, pos + 1, n) == Done(p, lap, pos, n) + (if pos < n && p[pos] == Some(lap) then 1 else 0)
  {
    if n == 0 {
    } else {
      DoneStep(p, lap, pos, n - 1);
    }
  }

  lemma {:induction false} DoneWrap(p: seq<Option<nat>>, lap: nat, n: nat)
    requires n <= |p|
    ensures Done(p, lap, |p|, n) == Done(p, lap + 1, 0, n)
  {
    if n == 0 {
    } else {
      DoneWrap(p, lap, n - 1);
    }
  }

  lemma {:induction false} DoneNone(p: seq<Option<nat>>, n: nat)
    requires n <= |p|
    ensures Done(p, 0, 0, n) == 0
  {
    if n == 0 {
    } else {
      DoneNone(p, n - 1);
    }
  }

  lemma {:induction false} DoneSome(p: seq<Option<nat>>, lap: nat, pos: nat, n: nat)
    requires 0 < n <= |p| && Over(p, lap, pos, 0)
    ensures Done(p, lap, pos, n) > 0
  {
    if n == 1 {
    } else {
      DoneSome(p, lap, pos, n - 1);
    }
  }

  lemma {:induction false} RowCut(p: seq<Option<nat>>, lap: nat, pos: nat, n: nat)
    requires pos <= n <= |p| && forall i :: pos <= i < n ==> !Alive(p, lap, i)
    ensures Row(p, lap, n) == Row(p, lap, pos)
  {
    if pos == n {
    } else {
      RowCut(p, lap, pos, n - 1);
    }
  }

  lemma {:induction false} RowPrefix(p: seq<Option<nat>>, lap: nat, pos: nat, n: nat)
    requires pos <= n <= |p|
    ensures Row(p, lap, pos) <= Row(p, lap, n)
  {
    if pos == n {
    } else {
      RowPrefix(p, lap, pos, n - 1);
    }
  }

  lemma {:induction false} LapsPrefix(p: seq<Option<nat>>, laps: nat, n: nat)
    requires laps <= n
    ensures Laps(p, laps) <= Laps(p, n)
  {
    if laps == n {
    } else {
      LapsPrefix(p, laps, n - 1);
    }
  }

  /** How often `x` occurs. */
  function Times(s: seq<nat>, x: nat): nat {
    if s == [] then 0
    else Times(s[..|s| - 1], x) + (if s[|s| - 1] == x then 1 else 0)
  }

  lemma TimesSnoc(s: seq<nat>, y: nat, x: nat)
    ensures Times(s + [y], x) == Times(s, x) + (if x == y then 1 else 0)
  {
    assert (s + [y])[..|s|] == s;
  }

  lemma {:induction false} TimesConcat(a: seq<nat>, b: seq<nat>, x: nat)
    ensures Times(a + b, x) == Times(a, x) + Times(b, x)
  {
    if b == [] {
      assert a + b == a;
    } else {
      assert (a + b)[..|a + b| - 1] == a + b[..|b| - 1];
      TimesConcat(a, b[..|b| - 1], x);
    }
  }

  lemma RowNext(p: seq<Option<nat>>, lap: nat, pos: nat)
    requires pos < |p|
    ensures Row(p, lap, pos + 1) == if Alive(p, lap, pos) then Row(p, lap, pos) + [pos] else Row(p, lap, pos)
  {
    assert Row(p, lap, pos) + [] == Row(p, lap, pos);
  }

  lemma {:induction false} RowCount(p: seq<Option<nat>>, lap: nat, pos: nat, i: nat)
    requires i < |p| && pos <= |p|
    ensures Times(Row(p, lap, pos), i) == if i < pos && Alive(p, lap, i) then 1 else 0
  {
    hide Alive;
    if pos == 0 {
    } else {
      hide Row, Times;
      RowCount(p, lap, pos - 1, i);
      RowNext(p, lap, pos - 1);
      TimesSnoc(Row(p, lap, pos - 1), pos - 1, i);
    }
  }

  /** Over enough laps every task is polled as often as it would be on its own. */
  lemma {:induction false} LapsCount(p: seq<Option<nat>>, laps: nat, i: nat)
    requires i < |p| && p[i].Some?
    ensures Times(Laps(p, laps), i) == if p[i].value < laps then p[i].value + 1 else laps
  {
    if laps == 0 {
    } else {
      LapsCount(p, laps - 1, i);
      LapAdds(p, laps, i);
    }
  }

  lemma LapAdds(p: seq<Option<nat>>, laps: nat, i: nat)
    requires i < |p| && laps > 0
    ensures Times(Laps(p, laps), i) == Times(Laps(p, laps - 1), i) + (if Alive(p, laps - 1, i) then 1 else 0)
  {
    hide Row, Times;
    RowCount(p, laps - 1, |p|, i);
    TimesConcat(Laps(p, laps - 1), Row(p, laps - 1, |p|), i);
  }

  /** All polls so far, when lap `lap` has reached `pos`. */
  function Trace(p: seq<Option<nat>>, lap: nat, pos: nat): seq<nat>
    requires pos <= |p|
  {
    Laps(p, lap) + Row(p, lap, pos)
  }

  lemma TraceStep(p: seq<Option<nat>>, lap: nat, pos: nat)
    requires pos < |p|
    ensures Trace(p, lap, pos + 1) == Trace(p, lap, pos) + (if Alive(p, lap, pos) then [pos] else [])
    ensures pos + 1 == |p| ==> Trace(p, lap, pos + 1) == Trace(p, lap + 1, 0)
  {
    hide Laps;
    if Alive(p, lap, pos) {
      assert Laps(p, lap) + (Row(p, lap, pos) + [pos]) == (Laps(p, lap) + Row(p, lap, pos)) + [pos];
    } else {
      assert Row(p, lap, pos) + [] == Row(p, lap, pos);
    }
    if pos + 1 == |p| { LapEnds(p, lap); }
  }

  lemma LapEnds(p: seq<Option<nat>>, lap: nat)
    ensures Trace(p, lap, |p|) == Trace(p, lap + 1, 0)
  {
    hide Row;
    assert Row(p, lap + 1, 0) == [] by { RowEmpty(p, lap + 1); }
    assert Laps(p, lap + 1) + [] == Laps(p, lap + 1);
  }

  lemma RowEmpty(p: seq<Option<nat>>, lap: nat)
    ensures Row(p, lap, 0) == []
  {}

  /** What has been polled is the beginning of all laps, and all of them once every
      task is done. */
  lemma TraceInLaps(p: seq<Option<nat>>, lap: nat, pos: nat)
    requires pos <= |p| && lap <= Max(p)
    ensures Trace(p, lap, pos) <= Laps(p, Max(p) + 1)
    ensures Done(p, lap, pos, |p|) == Filled(p, |p|) ==> Trace(p, lap, pos) == Laps(p, Max(p) + 1)
  {
    hide Row, Max, Done, Filled;
    RowPrefix(p, lap, pos, |p|);
    assert Laps(p, lap + 1) == Laps(p, lap) + Row(p, lap, |p|);
    LapsPrefix(p, lap + 1, Max(p) + 1);
    if Done(p, lap, pos, |p|) == Filled(p, |p|) { AllDone(p, lap, pos); }
  }

  lemma AllDone(p: seq<Option<nat>>, lap: nat, pos: nat)
    requires pos <= |p| && lap <= Max(p) && Done(p, lap, pos, |p|) == Filled(p, |p|)
    ensures Trace(p, lap, pos) == Laps(p, Max(p) + 1)
  {
    hide Row, Laps;
    if Max(p) > 0 {
      var m :| 0 <= m < |p| && p[m] == Some(Max(p));
      assert Over(p, lap, pos, m);
    }
    assert lap == Max(p);
    forall i | pos <= i < |p|
      ensures !Alive(p, lap, i)
    {
      if p[i].Some? { assert Over(p, lap, pos, i); }
    }
    RowCut(p, lap, pos, |p|);
    LapEnds(p, lap);
    RowEmpty(p, lap + 1);
  }

  // The eight-bit counter.

  /** The number of finished tasks at which the counter first meets its target. */
  function Target(p: seq<Option<nat>>): nat
    requires p != []
  {
    if |p| % 256 != 0 then |p| % 256 else if p[0] == Some(0) then 256 else 0
  }

  /** There are enough tasks for the loop to end. */
  predicate Halts(p: seq<Option<nat>>)
    requires p != []
  {
    Target(p) <= Filled(p, |p|)
  }

  /** All slots are filled, and the target is met only when all are finished. */
  predicate Fits(p: seq<Option<nat>>) {
    (forall i :: 0 <= i < |p| ==> p[i].Some?) && (|p| <= 255 || (|p| == 256 && p[0] == Some(0)))
  }

  /** What holds of the number of finished tasks while the run goes on. */
  predicate Short(p: seq<Option<nat>>, started: bool, done: nat)
    requires p != []
  {
    if started then done < Target(p) && (|p| % 256 == 0 ==> done >= 1) else done == 0
  }

  /** The counter is compared after the visit of a slot. */
  predicate Meets(p: seq<Option<nat>>, lap: nat, pos: nat)
    requires pos <= |p|
  {
    Done(p, lap, pos, |p|) % 256 == |p| % 256
  }

  /** The count grows by at most one, so it cannot jump over its target. */
  lemma First(p: seq<Option<nat>>, lap: nat, pos: nat)
    requires pos < |p| && Short(p, lap > 0 || pos > 0, Done(p, lap, pos, |p|))
    ensures var done := Done(p, lap, pos + 1, |p|);
            if Meets(p, lap, pos + 1) then done == Target(p) else Short(p, true, done)
  {
    DoneStep(p, lap, pos, |p|);
    if lap == 0 && pos == 0 { DoneNone(p, |p|); }
  }

  lemma NotAllDone(p: seq<Option<nat>>, lap: nat)
    requires Done(p, lap + 1, 0, |p|) < Filled(p, |p|)
    ensures lap + 1 <= Max(p)
  {}

  /** With enough tasks some visit meets the target. */
  lemma {:induction false} Reach(p: seq<Option<nat>>, lap: nat, pos: nat) returns (l: nat, q: nat)
    requires pos < |p| && lap <= Max(p) && Halts(p)
    requires Short(p, lap > 0 || pos > 0, Done(p, lap, pos, |p|))
    ensures 0 < q <= |p| && Meets(p, l, q)
    decreases Max(p) - lap, |p| - pos
  {
    First(p, lap, pos);
    hide Max, Done, Filled;
    if Meets(p, lap, pos + 1) {
      return lap, pos + 1;
    } else if pos + 1 < |p| {
      l, q := Reach(p, lap, pos + 1);
    } else {
      DoneWrap(p, lap, |p|);
      NotAllDone(p, lap);
      l, q := Reach(p, lap + 1, 0);
    }
  }

  /** The loop ever meets its target if and only if there are enough tasks. With at
      most 255 slots that means that every slot is filled. */
  lemma CounterMeetsIff(p: seq<Option<nat>>)
    requires p != []
    ensures (exists lap: nat, pos: nat :: 0 < pos <= |p| && Meets(p, lap, pos)) <==> Halts(p)
    ensures |p| <= 255 ==> (Halts(p) <==> forall i :: 0 <= i < |p| ==> p[i].Some?)
  {
    if lap: nat, pos: nat :| 0 < pos <= |p| && Meets(p, lap, pos) {
      if p[0] == Some(0) { DoneSome(p, lap, pos, |p|); }
    }
    if Halts(p) {
      DoneNone(p, |p|);
      var l, q := Reach(p, 0, 0);
    }
  }

  // One run.

  /** What is left of a task after `k` polls, and what it has put out. */
  function After<T>(task: Task<T>, k: nat): Option<Task<T>> {
    if task.pending < k then None else Some(task.(pending := task.pending - k))
  }

  function SlotAfter<T>(slot: Option<Task<T>>, k: nat): Option<Task<T>> {
    if slot.Some? then After(slot.value, k) else None
  }

  function Output<T>(slot: Option<Task<T>>, k: nat): Option<T> {
    if slot.Some? && slot.value.pending < k then Some(slot.value.output) else None
  }

  /** Queue and outputs when lap `lap` has reached `pos`. */
  ghost predicate At<T>(given: seq<Option<Task<T>>>, queue: seq<Option<Task<T>>>, outs: seq<Option<T>>,
                        lap: nat, pos: nat)
  {
    && |queue| == |outs| == |given|
    && (forall i :: 0 <= i < |given| ==> queue[i] == SlotAfter(given[i], Polled(lap, pos, i)))
    && (forall i :: 0 <= i < |given| ==> outs[i] == Output(given[i], Polled(lap, pos, i)))
  }

  /** One visit of a slot. */
  lemma AtStep<T>(given: seq<Option<Task<T>>>, queue: seq<Option<Task<T>>>, outs: seq<Option<T>>, lap: nat, pos: nat)
    requires At(given, queue, outs, lap, pos) && pos < |given|
    ensures |queue| == |outs| == |given|
    ensures queue[pos].Some? <==> Alive(Pendings(given), lap, pos)
    ensures queue[pos] == None ==> At(given, queue, outs, lap, pos + 1)
    ensures queue[pos].Some? ==>
              && (queue[pos].value.pending == 0 <==> Pendings(given)[pos] == Some(lap))
              && var t := queue[pos].value;
                 At(given, queue[pos := After(t, 1)],
                    if t.pending == 0 then outs[pos := Some(t.output)] else outs, lap, pos + 1)
  {}

  lemma AtWrap<T>(given: seq<Option<Task<T>>>, queue: seq<Option<Task<T>>>, outs: seq<Option<T>>, lap: nat)
    requires At(given, queue, outs, lap, |given|)
    ensures At(given, queue, outs, lap + 1, 0)
  {
    forall i | 0 <= i < |given|
      ensures Polled(lap, |given|, i) == Polled(lap + 1, 0, i)
    {}
  }

  lemma AtStop<T>(given: seq<Option<Task<T>>>, queue: seq<Option<Task<T>>>, outs: seq<Option<T>>, lap: nat, pos: nat)
    requires At(given, queue, outs, lap, pos)
    ensures forall i :: 0 <= i < |given| ==> (outs[i].Some? <==> Over(Pendings(given), lap, pos, i))
    ensures forall i :: 0 <= i < |given| && outs[i].Some? ==>
              given[i].Some? && outs[i].value == given[i].value.output && queue[i] == None
  {}

  class Queue<T(0)> {
    const tasks: array<Option<Task<T>>>

    constructor (n: nat)
      ensures tasks.Length == n && fresh(tasks)
      ensures forall i :: 0 <= i < n ==> tasks[i] == None
    {
      tasks := new Option<Task<T>>[n](_ => None);
    }

    /** The first empty slot takes the task; false is the panic of a full queue. */
    method Spawn(task: Task<T>) returns (ok: bool)
      modifies tasks
      ensures ok <==> exists i :: 0 <= i < tasks.Length && old(tasks[i]) == None
      ensures !ok ==> tasks[..] == old(tasks[..])
      ensures ok ==> exists i ::
                && 0 <= i < tasks.Length && old(tasks[i]) == None && None !in old(tasks[..i])
                && tasks[..] == old(tasks[..])[i := Some(task)]
    {
      var i := 0;
      while i < tasks.Length
        invariant 0 <= i <= tasks.Length && tasks[..] == old(tasks[..])
        invariant None !in tasks[..i]
      {
        if tasks[i] == None {
          assert old(tasks[i]) == None && None !in old(tasks[..i]);
          tasks[i] := Some(task);
          return true;
        }
        i := i + 1;
      }
      assert forall j :: 0 <= j < tasks.Length ==> tasks[..i][j] == tasks[j];
      return false;
    }

    /** An output slot that was never written is None. The loop is entered only where
        it ends. All outputs are written exactly when the counter fits; whatever is
        written is what running the task alone gives; and the polls follow the laps. */
    method RunReadyTasks() returns (output: array<Option<T>>, polls: seq<nat>)
      requires tasks.Length >= 1 && Halts(Pendings(tasks[..]))
      modifies tasks
      ensures fresh(output) && output.Length == tasks.Length
      ensures (forall i :: 0 <= i < tasks.Length ==> output[i].Some?) <==> Fits(Pendings(old(tasks[..])))
      ensures forall i :: 0 <= i < tasks.Length && output[i].Some? ==>
                old(tasks[i]).Some? && output[i].value == old(tasks[i]).value.output && tasks[i] == None
      ensures polls <= Laps(Pendings(old(tasks[..])), Max(Pendings(old(tasks[..]))) + 1)
      ensures Fits(Pendings(old(tasks[..]))) ==>
                polls == Laps(Pendings(old(tasks[..])), Max(Pendings(old(tasks[..]))) + 1)
    {
      hide Running, Proceeds, Finished, After, Max, Fits, Laps, Halts;
      ghost var given := tasks[..];
      var n := tasks.Length;
      output := new Option<T>[n](_ => None);
      polls := [];
      var pos, ready: nat := 0, 0;
      ghost var lap: nat := 0;
      Starts(given, output[..]);
      while true
        invariant 0 <= pos < n
        invariant Running(given, tasks[..], output[..], polls, ready, lap, pos)
        decreases Max(Pendings(given)) - lap, n - pos
      {
        ghost var queue, outs := tasks[..], output[..];
        var polled, result := Poll(pos);
        Visit(given, queue, outs, polls, ready, lap, pos);
        if polled { polls := polls + [pos]; }
        if result.Some? {
          ready := (ready + 1) % 256;
          output[pos] := result;
        }
        Decide(given, tasks[..], output[..], polls, ready, lap, pos);
        pos := pos + 1;
        if ready == n % 256 {
          Ends(given, tasks[..], output[..], polls);
          return;
        }
        if pos == n {
          pos := 0;
          lap := lap + 1;
        }
      }
    }

    /** Poll one slot if it holds a task. */
    method Poll(pos: nat) returns (polled: bool, result: Option<T>)
      requires pos < tasks.Length
      modifies tasks
      ensures polled <==> old(tasks[pos]).Some?
      ensures !polled ==> result == None && tasks[..] == old(tasks[..])
      ensures polled ==>
                && var t := old(tasks[pos]).value;
                && tasks[..] == old(tasks[..])[pos := After(t, 1)]
                && result == if t.pending == 0 then Some(t.output) else None
    {
      var slot := tasks[pos];
      polled := slot.Some?;
      result := None;
      if polled {
        if slot.value.pending == 0 {
          result := Some(slot.value.output);
          tasks[pos] := None;
        } else {
          tasks[pos] := Some(slot.value.(pending := slot.value.pending - 1));
        }
      }
    }
  }

  /** The state of a run between two visits. */
  ghost predicate Running<T>(given: seq<Option<Task<T>>>, queue: seq<Option<Task<T>>>, outs: seq<Option<T>>,
                             polls: seq<nat>, ready: nat, lap: nat, pos: nat)
  {
    var p := Pendings(given);
    && pos < |given| && lap <= Max(p) && Halts(p)
    && At(given, queue, outs, lap, pos)
    && polls == Trace(p, lap, pos)
    && ready == Done(p, lap, pos, |p|) % 256
    && Short(p, lap > 0 || pos > 0, Done(p, lap, pos, |p|))
  }

  ghost predicate Finished<T>(given: seq<Option<Task<T>>>, queue: seq<Option<Task<T>>>, outs: seq<Option<T>>,
                              polls: seq<nat>)
  {
    var p := Pendings(given);
    && |outs| == |queue| == |given|
    && ((forall i :: 0 <= i < |given| ==> outs[i].Some?) <==> Fits(p))
    && (forall i :: 0 <= i < |given| && outs[i].Some? ==>
          given[i].Some? && outs[i].value == given[i].value.output && queue[i] == None)
    && polls <= Laps(p, Max(p) + 1)
    && (Fits(p) ==> polls == Laps(p, Max(p) + 1))
  }

  lemma Starts<T>(given: seq<Option<Task<T>>>, outs: seq<Option<T>>)
    requires given != [] && |outs| == |given| && Halts(Pendings(given))
    requires forall i :: 0 <= i < |given| ==> outs[i] == None
    ensures Running(given, given, outs, [], 0, 0, 0)
  {
    DoneNone(Pendings(given), |given|);
  }

  lemma Ends<T>(given: seq<Option<Task<T>>>, queue: seq<Option<Task<T>>>, outs: seq<Option<T>>, polls: seq<nat>)
    requires Finished(given, queue, outs, polls)
    ensures |outs| == |queue| == |given|
    ensures (forall i :: 0 <= i < |given| ==> outs[i].Some?) <==> Fits(Pendings(given))
    ensures forall i :: 0 <= i < |given| && outs[i].Some? ==>
              given[i].Some? && outs[i].value == given[i].value.output && queue[i] == None
    ensures polls <= Laps(Pendings(given), Max(Pendings(given)) + 1)
    ensures Fits(Pendings(given)) ==> polls == Laps(Pendings(given), Max(Pendings(given)) + 1)
  {}

  /** The state just after a visit, before the counter is compared. */
  ghost predicate Proceeds<T>(given: seq<Option<Task<T>>>, queue: seq<Option<Task<T>>>, outs: seq<Option<T>>,
                              polls: seq<nat>, ready: nat, lap: nat, pos: nat)
  {
    var p := Pendings(given);
    && pos < |given| && lap <= Max(p) && Halts(p)
    && At(given, queue, outs, lap, pos + 1)
    && polls == Trace(p, lap, pos + 1)
    && ready == Done(p, lap, pos + 1, |p|) % 256
    && Short(p, lap > 0 || pos > 0, Done(p, lap, pos, |p|))
  }

  /** When the target is met, all slots have finished exactly if the counter fits. */
  lemma Stopped(p: seq<Option<nat>>, lap: nat, pos: nat)
    requires 0 < pos <= |p| && lap <= Max(p) && Done(p, lap, pos, |p|) == Target(p)
    ensures Fits(p) <==> forall i :: 0 <= i < |p| ==> Over(p, lap, pos, i)
    ensures Fits(p) ==> Trace(p, lap, pos) == Laps(p, Max(p) + 1)
    ensures Trace(p, lap, pos) <= Laps(p, Max(p) + 1)
  {
    TraceInLaps(p, lap, pos);
    hide Trace, Laps, Max;
    var all := Filled(p, |p|);
    if forall i :: 0 <= i < |p| ==> Over(p, lap, pos, i) {
      forall i | 0 <= i < |p|
        ensures p[i].Some?
      {
        assert Over(p, lap, pos, i);
      }
      assert Target(p) == all == |p|;
    }
    if Fits(p) {
      assert Target(p) == all == |p|;
      forall i | 0 <= i < |p|
        ensures Over(p, lap, pos, i)
      {
        assert p[i].Some?;
      }
    }
  }

  /** Either the counter has its target and the run is over, or it goes on. */
  lemma Decide<T>(given: seq<Option<Task<T>>>, queue: seq<Option<Task<T>>>, outs: seq<Option<T>>,
                  polls: seq<nat>, ready: nat, lap: nat, pos: nat)
    requires Proceeds(given, queue, outs, polls, ready, lap, pos)
    ensures if ready == |given| % 256 then Finished(given, queue, outs, polls)
            else if pos + 1 < |given| then Running(given, queue, outs, polls, ready, lap, pos + 1)
            else Running(given, queue, outs, polls, ready, lap + 1, 0)
  {
    hide SlotAfter, Output, Trace, Done, Filled, Target, Max, Laps, Fits, Over;
    var p := Pendings(given);
    First(p, lap, pos);
    if ready == |given| % 256 {
      Stopped(p, lap, pos + 1);
      AtStop(given, queue, outs, lap, pos + 1);
    } else if pos + 1 == |given| {
      DoneWrap(p, lap, |p|);
      NotAllDone(p, lap);
      AtWrap(given, queue, outs, lap);
      TraceStep(p, lap, pos);
    }
  }

  /** What polling the slot does in its three cases. */
  lemma Visit<T>(given: seq<Option<Task<T>>>, queue: seq<Option<Task<T>>>, outs: seq<Option<T>>,
                 polls: seq<nat>, ready: nat, lap: nat, pos: nat)
    requires Running(given, queue, outs, polls, ready, lap, pos)
    ensures |queue| == |outs| == |given| && lap <= Max(Pendings(given))
    ensures queue[pos] == None ==> Proceeds(given, queue, outs, polls, ready, lap, pos)
    ensures queue[pos].Some? && queue[pos].value.pending > 0 ==>
              Proceeds(given, queue[pos := After(queue[pos].value, 1)], outs, polls + [pos], ready, lap, pos)
    ensures queue[pos].Some? && queue[pos].value.pending == 0 ==>
              Proceeds(given, queue[pos := After(queue[pos].value, 1)], outs[pos := Some(queue[pos].value.output)],
                       polls + [pos], (ready + 1) % 256, lap, pos)
  {
    hide At, After, Trace, Short, Done, Finished, Max, Halts;
    var p := Pendings(given);
    AtStep(given, queue, outs, lap, pos);
    DoneStep(p, lap, pos, |p|);
    TraceStep(p, lap, pos);
  }
}
