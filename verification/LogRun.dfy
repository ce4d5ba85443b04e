/** The one flushing thread, one load or write at a time, with appends in between. */
module LogRun {
  import opened Arithmetic
  import opened LogRing

  /** The steps of `try_flush_logs`. */
  datatype Pc = Idle | Loaded(cur: nat) | Checked | Written | Panicked

  /** `log` is everything appended so far; `file` is what has been written. */
  datatype State = State(size: nat, ring: seq<Byte>, flushed: nat, file: seq<Byte>, log: seq<Byte>, pc: Pc)

  datatype Step = Append(entry: seq<Byte>) | Load | Check | Write | Advance

  predicate Next(s: State, s': State, step: Step)
    requires s.size > 0 && |s.ring| == 2 * s.size
  {
    match step
    case Append(entry) =>
      && Whole(s.size, |s.log|, entry) && Slot(s.size, |s.log|) + |entry| <= |s.ring|
      && s' == s.(ring := Splice(s.ring, Slot(s.size, |s.log|), entry), log := s.log + entry)
    case Load => s.pc == Idle && s' == s.(pc := Loaded(|s.log|))
    case Check =>
      && s.pc.Loaded?
      && s' == s.(pc :=
                    var distance := s.pc.cur - s.flushed;
                    if distance < s.size then Idle
                    else if distance < 2 * s.size then Checked
                    else Panicked)
    case Write => s.pc == Checked && s' == s.(file := s.file + Chunk(s.size, s.ring, s.flushed), pc := Written)
    case Advance => s.pc == Written && s' == s.(flushed := s.flushed + s.size, pc := Idle)
  }

  predicate Init(s: State) {
    s.size > 0 && |s.ring| == 2 * s.size && s.flushed == 0 && s.file == [] && s.log == [] && s.pc == Idle
  }

  /** How much the file holds. */
  function WrittenTo(s: State): nat {
    if s.pc == Written then s.flushed + s.size else s.flushed
  }

  ghost predicate Inv(s: State) {
    && Window(s.size, s.ring, s.log)
    && s.flushed % s.size == 0
    && |s.file| == WrittenTo(s) <= |s.log|
    && (s.pc.Loaded? ==> s.flushed <= s.pc.cur <= |s.log|)
    && (s.pc == Checked ==> s.flushed + s.size <= |s.log|)
  }

  lemma NextInv(s: State, s': State, step: Step)
    requires Inv(s) && Next(s, s', step)
    ensures Inv(s') && s'.size == s.size
    ensures s.log <= s'.log && s.file <= s'.file
  {
    match step
    case Append(entry) => AppendKeeps(s.size, s.ring, s.log, entry);
    case Advance =>
      assert s.flushed == s.size * (s.flushed / s.size);
      DivUnique(s.flushed + s.size, s.size, s.flushed / s.size + 1, 0);
    case _ =>
  }

  /** No append has gone more than two buffers past the flushed offset. */
  predicate NoLap(s: State) { |s.log| <= s.flushed + 2 * s.size }

  predicate IsRun(run: seq<State>, steps: seq<Step>) {
    && |run| == |steps| + 1 && Init(run[0])
    && forall i :: 0 <= i < |steps| ==> StepsTo(run[i], run[i + 1], steps[i])
  }

  predicate StepsTo(s: State, s': State, step: Step) {
    s.size > 0 && |s.ring| == 2 * s.size && Next(s, s', step)
  }

  lemma InitInv(s: State)
    requires Init(s)
    ensures Inv(s)
  {
    DivUnique(0, s.size, 0, 0);
  }

  lemma {:induction false} RunInv(run: seq<State>, steps: seq<Step>, k: nat)
    requires IsRun(run, steps) && k < |run|
    ensures Inv(run[k]) && run[k].size == run[0].size
  {
    hide Next, Inv;
    if k == 0 {
      InitInv(run[0]);
    } else {
      RunInv(run, steps, k - 1);
      NextInv(run[k - 1], run[k], steps[k - 1]);
    }
  }

  /** The file is the part of the log that has been written. */
  ghost predicate Right(s: State) {
    WrittenTo(s) <= |s.log| && s.file == s.log[..WrittenTo(s)]
  }

  /** The buffer about to be written still has the bytes it should. */
  ghost predicate Intact(s: State)
    requires Inv(s) && s.pc == Checked
  {
    Survives(s.size, s.log, s.flushed)
  }

  /** Only a write can make the file wrong, and it does so exactly when the buffer is
      not intact; a wrong file stays wrong. */
  lemma StepRightIff(s: State, s': State, step: Step)
    requires Inv(s) && StepsTo(s, s', step)
    ensures Right(s') <==> Right(s) && (step == Write ==> Intact(s))
  {
    NextInv(s, s', step);
    hide Window, Survives;
    if step == Write {
      ChunkRightIff(s.size, s.ring, s.log, s.flushed);
      var chunk, right := Chunk(s.size, s.ring, s.flushed), s.log[s.flushed..s.flushed + s.size];
      assert s.log[..s.flushed + s.size] == s.log[..s.flushed] + right;
      assert s'.file[..s.flushed] == s.file && s'.file[s.flushed..] == chunk;
      assert s.log[..s.flushed + s.size][..s.flushed] == s.log[..s.flushed];
      assert s.log[..s.flushed + s.size][s.flushed..] == right;
    } else if step.Append? {
      assert s'.log[..WrittenTo(s)] == s.log[..WrittenTo(s)];
    }
  }

  /** In every run the file is right if and only if every buffer was intact when it
      was written. */
  lemma {:induction false} RunRightIff(run: seq<State>, steps: seq<Step>, k: nat)
    requires IsRun(run, steps) && k < |run|
    ensures forall i :: 0 <= i < |run| ==> Inv(run[i])
    ensures forall i :: 0 <= i < |steps| && steps[i] == Write ==> run[i].pc == Checked
    ensures Right(run[k]) <==> forall i :: 0 <= i < k && steps[i] == Write ==> Intact(run[i])
  {
    AllInv(run, steps);
    hide Next, Inv, Right, Intact;
    if k == 0 {
      NothingWritten(run[0]);
    } else {
      RunRightIff(run, steps, k - 1);
      StepRightIff(run[k - 1], run[k], steps[k - 1]);
    }
  }

  lemma AllInv(run: seq<State>, steps: seq<Step>)
    requires IsRun(run, steps)
    ensures forall i :: 0 <= i < |run| ==> Inv(run[i])
    ensures forall i :: 0 <= i < |steps| && steps[i] == Write ==> run[i].pc == Checked
  {
    forall i | 0 <= i < |run|
      ensures Inv(run[i])
    {
      RunInv(run, steps, i);
    }
    hide Inv;
    forall i | 0 <= i < |steps| && steps[i] == Write
      ensures run[i].pc == Checked
    {
      assert StepsTo(run[i], run[i + 1], steps[i]);
    }
  }

  lemma NothingWritten(s: State)
    requires Init(s)
    ensures Right(s)
  {}

  /** A buffer that has not been lapped is intact. */
  lemma NoLapIsIntact(s: State)
    requires Inv(s) && s.pc == Checked && NoLap(s)
    ensures Intact(s)
  {}

  // What a scheduler can see.

  /** The last load of the current offset before step `k`. */
  function LoadOf(steps: seq<Step>, k: nat): nat
    requires k <= |steps|
  {
    if k == 0 then 0 else if steps[k - 1] == Load then k - 1 else LoadOf(steps, k - 1)
  }

  lemma {:induction false} SinceLoad(run: seq<State>, steps: seq<Step>, k: nat)
    requires IsRun(run, steps) && k < |run| && (run[k].pc.Loaded? || run[k].pc == Checked)
    ensures var l := LoadOf(steps, k);
            && l < k && steps[l] == Load && run[l].flushed == run[k].flushed && run[l].size == run[k].size
            && run[l].log <= run[k].log
            && (run[k].pc.Loaded? ==> run[k].pc.cur == |run[l].log|)
            && (run[k].pc == Checked ==> |run[l].log| < run[l].flushed + 2 * run[l].size)
  {
    if k == 0 {
    } else {
      assert StepsTo(run[k - 1], run[k], steps[k - 1]);
      RunInv(run, steps, k - 1);
      NextInv(run[k - 1], run[k], steps[k - 1]);
      hide Inv, Splice, Slot, Chunk;
      if steps[k - 1] != Load { SinceLoad(run, steps, k - 1); }
    }
  }

  /** The bytes appended since the offset was loaded are no more than two buffers less
      the distance that was loaded. */
  predicate Calm(run: seq<State>, steps: seq<Step>, i: nat)
    requires i < |run| == |steps| + 1 && LoadOf(steps, i) <= i
  {
    var l := run[LoadOf(steps, i)];
    |run[i].log| - |l.log| <= 2 * l.size - (|l.log| - l.flushed)
  }

  lemma {:induction false} LoadBefore(steps: seq<Step>, k: nat)
    requires k <= |steps|
    ensures LoadOf(steps, k) <= k
  {
    if k == 0 {
    } else {
      LoadBefore(steps, k - 1);
    }
  }

  /** How many flushes have been carried out. */
  function Flushes(steps: seq<Step>, k: nat): nat
    requires k <= |steps|
  {
    if k == 0 then 0 else Flushes(steps, k - 1) + (if steps[k - 1] == Advance then 1 else 0)
  }

  /** The flushed offset counts the flushes. */
  lemma {:induction false} FlushedCounts(run: seq<State>, steps: seq<Step>, k: nat)
    requires IsRun(run, steps) && k < |run|
    ensures run[k].flushed == Flushes(steps, k) * run[0].size
  {
    hide StepsTo;
    if k == 0 {
    } else {
      FlushedCounts(run, steps, k - 1);
      RunInv(run, steps, k - 1);
      FlushedStep(run[k - 1], run[k], steps[k - 1]);
      hide Inv;
      OneMore(Flushes(steps, k - 1), run[0].size);
    }
  }

  lemma FlushedStep(s: State, s': State, step: Step)
    requires StepsTo(s, s', step)
    ensures s'.flushed == if step == Advance then s.flushed + s.size else s.flushed
  {
    hide Splice, Slot, Chunk;
  }

  lemma OneMore(n: nat, size: nat)
    ensures (n + 1) * size == n * size + size
  {}

  /** If every flush was calm, the file is the log up to the flushes carried out. */
  lemma RunRefinesLog(run: seq<State>, steps: seq<Step>, k: nat)
    requires IsRun(run, steps) && k < |run|
    requires forall i :: 0 <= i < k && steps[i] == Write ==> LoadOf(steps, i) <= i && Calm(run, steps, i)
    ensures run[k].flushed == Flushes(steps, k) * run[0].size && Right(run[k])
  {
    RunRightIff(run, steps, k);
    FlushedCounts(run, steps, k);
    hide Next, Inv, Right, Intact, IsRun;
    forall i | 0 <= i < k && steps[i] == Write
      ensures Intact(run[i])
    {
      SinceLoad(run, steps, i);
      NoLapIsIntact(run[i]);
    }
  }

  /** In particular if nothing is appended between the load and the write of a flush:
      the check alone rules a lap out. */
  lemma UninterruptedIsCalm(run: seq<State>, steps: seq<Step>, i: nat)
    requires IsRun(run, steps) && i < |steps| && steps[i] == Write
    requires forall m :: LoadOf(steps, i) < m < i ==> !steps[m].Append?
    ensures LoadOf(steps, i) < i && Calm(run, steps, i)
  {
    assert StepsTo(run[i], run[i + 1], steps[i]);
    SinceLoad(run, steps, i);
    SameLog(run, steps, LoadOf(steps, i), i);
  }

  lemma {:induction false} SameLog(run: seq<State>, steps: seq<Step>, l: nat, i: nat)
    requires IsRun(run, steps) && l < i < |run| && steps[l] == Load
    requires forall m :: l < m < i ==> !steps[m].Append?
    ensures run[i].log == run[l].log
  {
    assert StepsTo(run[i - 1], run[i], steps[i - 1]);
    hide Splice, Slot, Chunk;
    if l == i - 1 {
    } else {
      SameLog(run, steps, l, i - 1);
    }
  }

  // A lap, for every size.

  lemma Extend(run: seq<State>, steps: seq<Step>, s: State, step: Step)
    requires IsRun(run, steps) && StepsTo(run[|steps|], s, step)
    ensures IsRun(run + [s], steps + [step])
  {
    hide StepsTo;
    var run', steps' := run + [s], steps + [step];
    forall i | 0 <= i < |steps'|
      ensures StepsTo(run'[i], run'[i + 1], steps'[i])
    {
      if i < |steps| { assert StepsTo(run[i], run[i + 1], steps[i]); }
    }
  }

  function Repeat(b: Byte, n: nat): (r: seq<Byte>)
    ensures |r| == n && forall i :: 0 <= i < n ==> r[i] == b
  {
    seq(n, _ => b)
  }

  /** Append a byte `n` times. */
  lemma {:induction false} AppendBytes(run: seq<State>, steps: seq<Step>, b: Byte, n: nat)
    returns (run': seq<State>, steps': seq<Step>)
    requires IsRun(run, steps)
    ensures IsRun(run', steps') && |steps'| == |steps| + n
    ensures var s, s' := run[|steps|], run'[|steps'|];
            && s'.size == s.size && s'.flushed == s.flushed && s'.file == s.file && s'.pc == s.pc
            && s'.log == s.log + Repeat(b, n)
    ensures run <= run' && steps <= steps' && forall i :: |steps| <= i < |steps'| ==> steps'[i].Append?
  {
    if n == 0 {
      run', steps' := run, steps;
    } else {
      var r, t := AppendBytes(run, steps, b, n - 1);
      RunInv(r, t, |t|);
      var s := r[|t|];
      var at := Slot(s.size, |s.log|);
      var s' := s.(ring := Splice(s.ring, at, [b]), log := s.log + [b]);
      assert StepsTo(s, s', Append([b]));
      hide StepsTo, Inv;
      Extend(r, t, s', Append([b]));
      run', steps' := r + [s'], t + [Append([b])];
      assert Repeat(b, n - 1) + [b] == Repeat(b, n);
    }
  }

  lemma {:induction false} LoadStays(steps: seq<Step>, l: nat, k: nat)
    requires l < k <= |steps| && steps[l] == Load && forall i :: l < i < k ==> steps[i] != Load
    ensures LoadOf(steps, k) == l
  {
    if l == k - 1 {
    } else {
      LoadStays(steps, l, k - 1);
    }
  }

  /** Load and check, with exactly one buffer to flush. */
  lemma LoadAndCheck(run: seq<State>, steps: seq<Step>) returns (run': seq<State>, steps': seq<Step>)
    requires IsRun(run, steps) && run[|steps|].pc == Idle
    requires |run[|steps|].log| == run[|steps|].flushed + run[|steps|].size
    ensures IsRun(run', steps') && run <= run' && steps' == steps + [Load, Check]
    ensures run'[|steps'|] == run[|steps|].(pc := Checked)
  {
    RunInv(run, steps, |steps|);
    var s := run[|steps|];
    var loaded, checked := s.(pc := Loaded(|s.log|)), s.(pc := Checked);
    assert StepsTo(s, loaded, Load) && StepsTo(loaded, checked, Check);
    hide StepsTo, Inv;
    Extend(run, steps, loaded, Load);
    Extend(run + [loaded], steps + [Load], checked, Check);
    assert steps + [Load, Check] == steps + [Load] + [Check];
    run', steps' := run + [loaded] + [checked], steps + [Load, Check];
  }

  /** A log whose first byte differs from all others is wrong once it is lapped. */
  lemma LappedIsWrong(s: State, s': State)
    requires Inv(s) && StepsTo(s, s', Write) && s.flushed == 0 && |s.log| > 2 * s.size
    requires s.log[0] != 0 && forall i :: 0 < i < |s.log| ==> s.log[i] == 0
    ensures !Right(s')
  {
    StepRightIff(s, s', Write);
    hide Inv, Right;
    assert Latest(s.size, |s.log|, 0) >= 2 * s.size;
    assert s.log[Latest(s.size, |s.log|, 0)] != s.log[0];
  }

  /** For every buffer size and every excess over what is calm, there is a run whose
      write puts wrong bytes into the file. */
  lemma LapRun(size: nat, excess: nat) returns (run: seq<State>, steps: seq<Step>)
    requires size > 0 && excess > 0
    ensures IsRun(run, steps) && |steps| > 0 && steps[|steps| - 1] == Write && run[0].size == size
    ensures var w := |steps| - 1;
            var l := LoadOf(steps, w);
            l < w && |run[w].log| - |run[l].log| == 2 * size - (|run[l].log| - run[l].flushed) + excess
    ensures !Right(run[|steps|])
  {
    var s0 := State(size, Repeat(0, 2 * size), 0, [], [], Idle);
    var r1, t1 := AppendBytes([s0], [], 1, 1);
    var r2, t2 := AppendBytes(r1, t1, 0, size - 1);
    hide Init, StepsTo, LoadOf;
    var r3, t3 := LoadAndCheck(r2, t2);
    var r4, t4 := AppendBytes(r3, t3, 0, size + excess);
    RunInv(r4, t4, |t4|);
    var l, w := |t2|, r4[|t4|];
    var s' := w.(file := w.file + Chunk(size, w.ring, 0), pc := Written);
    Writes(w, s');
    LappedIsWrong(w, s');
    Extend(r4, t4, s', Write);
    run, steps := r4 + [s'], t4 + [Write];
    assert steps[..|t4|] == t4;
    LoadStays(steps, l, |t4|);
    assert r4[l] == r2[l];
  }

  lemma Writes(s: State, s': State)
    requires Inv(s) && s.pc == Checked
    requires s' == s.(file := s.file + Chunk(s.size, s.ring, s.flushed), pc := Written)
    ensures StepsTo(s, s', Write)
  {}
}
