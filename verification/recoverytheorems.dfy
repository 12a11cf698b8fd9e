/**
 The recovery of a stalled GP job over whole runs, told by the steps that were taken: when it is
 scheduled, which heap it is growing, when it is done with it, and what size a heap has reached.
 */
module RecoveryTheorems {
  import opened Wrappers
  import opened VmSpec
  import opened HeapSize
  import opened JobSystem
  import opened DeviceTheorems
  import opened PipeTheorems
  import opened RefTheorems

  // ----- the steps that matter, in their own terms

  /** The handler asks for a recovery. */
  predicate Schedules(st: Step) { st.ScheduleWork? }

  /** The work runs: for that once, it is no longer scheduled. */
  predicate RunsWork(st: Step) { st.BeginRecover? }

  /** The heap of the current GP task. */
  function HeapOf(s: State): Option<BoId> { if HeapTask(s) then HolderAt(s, s.hw.pipes[0].task.value).heap else None }

  /** The recovery starts to grow a heap that has a page left. */
  predicate StartsGrowth(s: State, st: Step) {
    && st.BeginRecover? && st.grow && HeapOf(s).Some? && HeapOf(s).value in s.mem.bos
    && s.mem.bos[HeapOf(s).value].populated < |s.mem.bos[HeapOf(s).value].backing|
  }

  /** It stops: without a page, without memory for the first table, after the failure, or at its end. */
  predicate EndsGrowth(s: State, st: Step) {
    && st.Recovery?
    && match st.g
       case GiveUp => true
       case DropTable(ok) => !ok && s.mem.work.b in s.mem.bos && !s.mem.bos[s.mem.work.b].sgt.Lists?
       case ClearTable => true
       case EndRecover => true
       case _ => false
  }

  // ----- the work

  predicate Growing(s: State) { !s.mem.work.stage.Idle? }

  /** What the work is recorded to be for. */
  predicate WorksFor(s: State, s0: State) {
    && HeapTask(s0) && s.mem.work.job == s0.hw.pipes[0].task.value
    && s.mem.work.v == HolderAt(s0, s.mem.work.job).vm && HeapOf(s0) == Some(s.mem.work.b)
  }

  /** Step `i` moves the work on. */
  ghost predicate WorkMoves(ss: seq<State>, sts: seq<Step>, i: nat)
    requires i < |sts| < |ss|
  {
    var s, s' := ss[i], ss[i + 1];
    && s'.mem.work.pending == (Schedules(sts[i]) || (s.mem.work.pending && !RunsWork(sts[i])))
    && (StartsGrowth(s, sts[i]) ==> !Growing(s) && WorksFor(s', s))
    && (EndsGrowth(s, sts[i]) ==> Growing(s))
    && Growing(s') == (StartsGrowth(s, sts[i]) || (Growing(s) && !EndsGrowth(s, sts[i])))
    && (!StartsGrowth(s, sts[i]) ==>
          s'.mem.work.job == s.mem.work.job && s'.mem.work.v == s.mem.work.v && s'.mem.work.b == s.mem.work.b)
  }

  lemma FileKeepsWork(m: Mem, st: Step)
    requires FileStep(st) && FileEnabled(m, st) && FileDefined(m, st)
    ensures FileNext(m, st).work == m.work
  {}

  lemma JobKeepsWork(m: Mem, hw: Hw, st: Step)
    requires JobStep(st) && JobEnabled(m, hw, st) && JobDefined(m, hw, st)
    ensures JobNext(m, hw, st).work == m.work
  {}

  lemma PipeKeepsWork(s: State, st: Step)
    requires PipeEnabled(s, st) && PipeDefined(s, st) && !st.ScheduleWork? && !st.BeginRecover? && !st.Recovery?
    ensures PipeNext(s, st).work == s.mem.work
  {}

  lemma WorkKept(s: State, st: Step)
    requires Outcome(s, st).Some? && !st.ScheduleWork? && !st.BeginRecover? && !st.Recovery?
    ensures MemAfter(s, st).work == s.mem.work
  {
    if FileStep(st) { FileKeepsWork(s.mem, st); }
    else if JobStep(st) { JobKeepsWork(s.mem, s.hw, st); }
    else { PipeKeepsWork(s, st); }
  }

  lemma GrowthMoves(s: State, st: Step, m: Mem)
    requires Outcome(s, st).Some? && m == MemAfter(s, st) && st.Recovery?
    ensures Growing(s) && m.work.stage.Idle? == EndsGrowth(s, st)
    ensures m.work == Work(s.mem.work.pending, s.mem.work.job, s.mem.work.v, s.mem.work.b, m.work.stage)
  {}

  lemma BeginMoves(s: State, st: Step, m: Mem)
    requires Outcome(s, st).Some? && m == MemAfter(s, st) && st.BeginRecover?
    ensures !Growing(s) && HeapTask(s) && !m.work.pending && m.work.stage.Idle? == !StartsGrowth(s, st)
    ensures if StartsGrowth(s, st)
            then m.work.job == s.hw.pipes[0].task.value && m.work.v == HolderAt(s, m.work.job).vm &&
                 HeapOf(s) == Some(m.work.b)
            else m.work.job == s.mem.work.job && m.work.v == s.mem.work.v && m.work.b == s.mem.work.b
  {}

  lemma WorkInRun(ss: seq<State>, sts: seq<Step>, i: nat)
    requires IsRun(ss, sts) && i < |sts|
    ensures WorkMoves(ss, sts, i)
  {
    StateInRun(ss, sts, i);
    if sts[i].Recovery? { GrowthMoves(ss[i], sts[i], ss[i + 1].mem); }
    else if sts[i].BeginRecover? { BeginMoves(ss[i], sts[i], ss[i + 1].mem); }
    else if !sts[i].ScheduleWork? { WorkKept(ss[i], sts[i]); }
  }

  // ----- over a run

  predicate NoneRuns(sts: seq<Step>, from: nat, k: nat)
    requires k <= |sts|
  {
    forall j | from <= j < k :: !RunsWork(sts[j])
  }

  predicate ScheduledSince(sts: seq<Step>, k: nat)
    requires k <= |sts|
  {
    exists i :: 0 <= i < k && Schedules(sts[i]) && NoneRuns(sts, i + 1, k)
  }

  lemma ScheduledStep(sts: seq<Step>, k: nat)
    requires k < |sts|
    ensures ScheduledSince(sts, k + 1) <==> Schedules(sts[k]) || (ScheduledSince(sts, k) && !RunsWork(sts[k]))
  {
    if Schedules(sts[k]) {
      assert NoneRuns(sts, k + 1, k + 1);
    } else if ScheduledSince(sts, k) && !RunsWork(sts[k]) {
      var i :| 0 <= i < k && Schedules(sts[i]) && NoneRuns(sts, i + 1, k);
      assert NoneRuns(sts, i + 1, k + 1);
    }
  }

  predicate NoneEnds(ss: seq<State>, sts: seq<Step>, from: nat, k: nat)
    requires k <= |sts| < |ss|
  {
    forall j | from <= j < k :: !EndsGrowth(ss[j], sts[j])
  }

  /** Step `i` started the growth that is still going on after `k` steps. */
  predicate GrowsFrom(ss: seq<State>, sts: seq<Step>, i: nat, k: nat)
    requires i < k <= |sts| < |ss|
  {
    StartsGrowth(ss[i], sts[i]) && NoneEnds(ss, sts, i + 1, k)
  }

  /** The work after `k` steps is the one they tell of. */
  ghost predicate WorkTold(ss: seq<State>, sts: seq<Step>, k: nat)
    requires k <= |sts| < |ss|
  {
    && (ss[k].mem.work.pending <==> ScheduledSince(sts, k))
    && (Growing(ss[k]) <==> exists i :: 0 <= i < k && GrowsFrom(ss, sts, i, k))
    && (forall i | 0 <= i < k && GrowsFrom(ss, sts, i, k) :: WorksFor(ss[k], ss[i]))
  }

  lemma {:induction false} WorkTrace(ss: seq<State>, sts: seq<Step>, k: nat)
    requires k <= |sts| < |ss| && !ss[0].mem.work.pending && !Growing(ss[0])
    requires forall i | 0 <= i < |sts| :: WorkMoves(ss, sts, i)
    ensures WorkTold(ss, sts, k)
  {
    if k > 0 {
      WorkTrace(ss, sts, k - 1);
      assert WorkMoves(ss, sts, k - 1);
      ScheduledStep(sts, k - 1);
      forall i | 0 <= i < k
        ensures GrowsFrom(ss, sts, i, k) <==>
                  if i == k - 1 then StartsGrowth(ss[i], sts[i])
                  else GrowsFrom(ss, sts, i, k - 1) && !EndsGrowth(ss[k - 1], sts[k - 1])
      {}
      if Growing(ss[k]) {
        if StartsGrowth(ss[k - 1], sts[k - 1]) {
          assert GrowsFrom(ss, sts, k - 1, k);
        } else {
          var i :| 0 <= i < k - 1 && GrowsFrom(ss, sts, i, k - 1);
          assert GrowsFrom(ss, sts, i, k);
        }
      }
    }
  }

  /**
   The recovery is scheduled exactly if an interrupt asked for it since the work last ran.  It is growing
   a heap exactly if a run of the work found a page left in the heap of the task it found, and has not
   come to an end since; and until then the task, the address space and the heap are those it found.
   */
  lemma WorkIff(ss: seq<State>, sts: seq<Step>, k: nat)
    requires IsRun(ss, sts) && k < |ss|
    ensures ss[k].mem.work.pending <==> ScheduledSince(sts, k)
    ensures Growing(ss[k]) <==> exists i :: 0 <= i < k && GrowsFrom(ss, sts, i, k)
    ensures forall i | 0 <= i < k && GrowsFrom(ss, sts, i, k) :: WorksFor(ss[k], ss[i])
  {
    forall i | 0 <= i < |sts| ensures WorkMoves(ss, sts, i) {
      WorkInRun(ss, sts, i);
    }
    WorkTrace(ss, sts, k);
  }

  // ----- the size of a heap

  /** The pages of buffer `b`, and how many of them are populated. */
  function Extent(m: Mem, b: BoId): (seq<nat>, nat)
    requires b in m.bos
  {
    (m.bos[b].backing, m.bos[b].populated)
  }

  /** Where `b` is in both, it has kept its pages and its populated size. */
  predicate SameSize(m: Mem, m': Mem, b: BoId) { b in m.bos && b in m'.bos ==> Extent(m', b) == Extent(m, b) }

  lemma OpensKeepSize(m: Mem, st: Step, b: BoId)
    requires FileEnabled(m, st) && FileDefined(m, st)
    requires st.OpenFile? || st.OpenHandle? || st.FailedOpen? || st.BeginOpen? || st.MapUser? || st.CreateBo?
    ensures SameSize(m, FileNext(m, st), b)
  {}

  lemma ClosesKeepSize(m: Mem, st: Step, b: BoId)
    requires FileEnabled(m, st) && FileDefined(m, st)
    requires st.CloseFile? || st.CloseHandle? || st.DropCreated? || st.UnmapUser? || st.EndOpen?
    ensures SameSize(m, FileNext(m, st), b)
  {}

  lemma SubmitsKeepSize(m: Mem, hw: Hw, st: Step, b: BoId)
    requires JobEnabled(m, hw, st) && JobDefined(m, hw, st)
    requires st.BeginSubmit? || st.AddToSubmit? || st.EndSubmit? || st.JobInitFails? || st.Queue? || st.BeginFree?
    ensures SameSize(m, JobNext(m, hw, st), b)
  {}

  lemma ReleasesKeepSize(m: Mem, hw: Hw, st: Step, b: BoId)
    requires JobEnabled(m, hw, st) && JobDefined(m, hw, st) && (st.UnwindSubmit? || st.FreeOne? || st.EndFree?)
    ensures SameSize(m, JobNext(m, hw, st), b)
  {}

  lemma PipeKeepsSize(s: State, st: Step, b: BoId)
    requires PipeEnabled(s, st) && PipeDefined(s, st) && !Grows(s, st, b)
    ensures SameSize(s.mem, PipeNext(s, st), b)
  {}

  /** The step stores a new size of heap `b`. */
  predicate Grows(s: State, st: Step, b: BoId) { st == Recovery(StoreSize) && s.mem.work.b == b }

  /** The pages stay, and the size grows `n` times. */
  function Grew(e: (seq<nat>, nat), n: nat): (seq<nat>, nat) { (e.0, GrownSize(e.1, n, |e.0|)) }

  lemma GrewMore(e: (seq<nat>, nat), n: nat, more: bool)
    ensures Grew(e, n).0 == e.0
    ensures Grew(Grew(e, n), Bit(more)) == Grew(e, n + Bit(more))
    ensures Grew(e, Bit(more)) == (e.0, if more then NextSize(e.1, 0, |e.0|) else e.1)
  {
    assert GrownSize(e.1, 0, |e.0|) == e.1;
    assert GrownSize(Grew(e, n).1, 0, |e.0|) == Grew(e, n).1;
  }

  lemma SizeStep(s: State, st: Step, m: Mem, b: BoId)
    requires Outcome(s, st).Some? && m == MemAfter(s, st) && b in s.mem.bos && b in m.bos
    ensures Extent(m, b) == Grew(Extent(s.mem, b), Bit(Grows(s, st, b)))
  {
    GrewMore(Extent(s.mem, b), 0, Grows(s, st, b));
    if !Grows(s, st, b) {
      if st.CloseFile? || st.CloseHandle? || st.DropCreated? || st.UnmapUser? || st.EndOpen? {
        ClosesKeepSize(s.mem, st, b);
      } else if FileStep(st) { OpensKeepSize(s.mem, st, b); }
      else if st.UnwindSubmit? || st.FreeOne? || st.EndFree? { ReleasesKeepSize(s.mem, s.hw, st, b); }
      else if JobStep(st) { SubmitsKeepSize(s.mem, s.hw, st, b); }
      else { PipeKeepsSize(s, st, b); }
    }
  }

  /** Buffer `b` exists in all states from `i` to `k`. */
  predicate ExistsFrom(ss: seq<State>, i: nat, k: nat, b: BoId)
    requires k < |ss|
  {
    forall j | i <= j <= k :: b in ss[j].mem.bos
  }

  /** How many of the steps from `i` to `k` store a new size of it. */
  function Growths(ss: seq<State>, sts: seq<Step>, i: nat, k: nat, b: BoId): nat
    requires i <= k <= |sts| < |ss|
  {
    if k == i then 0 else Growths(ss, sts, i, k - 1, b) + Bit(Grows(ss[k - 1], sts[k - 1], b))
  }

  /** Step `i` moves the size of buffer `b` on. */
  ghost predicate SizeMoves(ss: seq<State>, sts: seq<Step>, i: nat, b: BoId)
    requires i < |sts| < |ss|
  {
    b in ss[i].mem.bos && b in ss[i + 1].mem.bos ==>
      Extent(ss[i + 1].mem, b) == Grew(Extent(ss[i].mem, b), Bit(Grows(ss[i], sts[i], b)))
  }

  lemma SizeInRun(ss: seq<State>, sts: seq<Step>, i: nat, b: BoId)
    requires IsRun(ss, sts) && i < |sts|
    ensures SizeMoves(ss, sts, i, b)
  {
    StateInRun(ss, sts, i);
    if b in ss[i].mem.bos && b in ss[i + 1].mem.bos { SizeStep(ss[i], sts[i], ss[i + 1].mem, b); }
  }

  lemma {:induction false} SizeTrace(ss: seq<State>, sts: seq<Step>, i: nat, k: nat, b: BoId)
    requires i <= k <= |sts| < |ss| && ExistsFrom(ss, i, k, b)
    requires forall j | i <= j < k :: SizeMoves(ss, sts, j, b)
    ensures Extent(ss[k].mem, b) == Grew(Extent(ss[i].mem, b), Growths(ss, sts, i, k, b))
  {
    if i < k {
      SizeTrace(ss, sts, i, k - 1, b);
      assert SizeMoves(ss, sts, k - 1, b);
      GrewMore(Extent(ss[i].mem, b), Growths(ss, sts, i, k - 1, b), Grows(ss[k - 1], sts[k - 1], b));
    }
  }

  /**
   As long as a buffer exists it keeps its pages, and its populated size is the one it had, doubled for
   each size stored by a recovery of its heap, up to the whole buffer; nothing else moves it.
   */
  lemma SizeIsCounted(ss: seq<State>, sts: seq<Step>, i: nat, k: nat, b: BoId)
    requires IsRun(ss, sts) && i <= k < |ss| && ExistsFrom(ss, i, k, b)
    ensures ss[k].mem.bos[b].backing == ss[i].mem.bos[b].backing
    ensures ss[k].mem.bos[b].populated ==
            Min(ss[i].mem.bos[b].populated * Pow2(Growths(ss, sts, i, k, b)), |ss[i].mem.bos[b].backing|)
  {
    forall j | i <= j < k ensures SizeMoves(ss, sts, j, b) {
      SizeInRun(ss, sts, j, b);
    }
    SizeTrace(ss, sts, i, k, b);
    RunInv(ss, sts, i);
    GrowthIsBounded(ss[i].mem.bos[b].populated, Growths(ss, sts, i, k, b), |ss[i].mem.bos[b].backing|);
  }
}
