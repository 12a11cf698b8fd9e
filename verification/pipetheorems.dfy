/**
 What becomes of the pipes and their fences over whole runs, told by the steps that were taken: which
 fences are signalled, in which order, and which of them failed; when pipe->error is set; what the PM
 count amounts to; and that a parked pipe starts nothing.
 */
module PipeTheorems {
  import opened Wrappers
  import opened Claims
  import opened JobSystem
  import opened PipeSafety
  import opened JobRuns
  import opened DeviceTheorems

  // ----- the steps that matter, in their own terms

  /** The step starts job `t`. */
  predicate Begins(st: Step, t: nat) { st.StartRun? && st.i == t }

  predicate OnPipe(s: State, p: nat, t: nat) { p < |s.hw.pipes| && s.hw.pipes[p].task == Some(t) }

  /** It completes job `t` without an error. */
  predicate Completes(s: State, st: Step, t: nat) { st.Done? && OnPipe(s, st.p, t) }

  /** It tears down the pipe of job `t` while the job is pending, or with fake_wedge on. */
  predicate Fails(s: State, st: Step, t: nat) {
    st.Stop? && OnPipe(s, st.p, t) && t in s.hw.fences && (st.fakeWedge || !s.hw.fences[t].signaled)
  }

  /** It signals the fence of the job on pipe `p`: a teardown signals none that is signalled already. */
  predicate Signals(s: State, st: Step, p: nat) {
    || (st.Done? && st.p == p)
    || (st.Stop? && st.p == p && p < |s.hw.pipes| && InFlight(s.hw, p))
  }

  /** What it stores in pipe->error of pipe `p`, if anything. */
  function Stores(s: State, st: Step, p: nat): Option<bool> {
    if st.StartRun? && st.i < |s.mem.holders| && s.mem.holders[st.i].Job? && s.mem.holders[st.i].pipe == p
    then Some(false)
    else if st.Interrupt? && st.p == p then Some(st.error)
    else if st.Stop? && st.p == p && p < |s.hw.pipes| && s.hw.pipes[p].task.Some? &&
            Fails(s, st, s.hw.pipes[p].task.value) then Some(true)
    else None
  }

  predicate NotBegun(sts: seq<Step>, t: nat, from: nat, k: nat)
    requires k <= |sts|
  {
    forall j | from <= j < k :: !Begins(sts[j], t)
  }

  lemma NotBegunStep(sts: seq<Step>, t: nat, from: nat, k: nat)
    requires from <= k < |sts|
    ensures NotBegun(sts, t, from, k + 1) <==> NotBegun(sts, t, from, k) && !Begins(sts[k], t)
  {}

  // ----- fences

  /** The hardware side after the step. */
  ghost function HwAfter(s: State, st: Step): Hw {
    if Enabled(s, st) && Defined(s, st) then NextHw(s, st) else s.hw
  }

  lemma HwInRun(ss: seq<State>, sts: seq<Step>, i: nat)
    requires IsRun(ss, sts) && i < |sts|
    ensures Outcome(ss[i], sts[i]) == Some(ss[i + 1]) && ss[i + 1].hw == HwAfter(ss[i], sts[i])
  {
    NextInRun(ss, sts, i);
  }

  /** Only these steps change the hardware side's fences. */
  lemma FencesKept(s: State, st: Step)
    requires !st.StartRun? && !st.Done? && !st.Stop?
    ensures HwAfter(s, st).fences == s.hw.fences
  {}

  lemma FenceBegins(s: State, st: Step, hw: Hw, t: nat)
    requires Outcome(s, st).Some? && hw == HwAfter(s, st) && st.StartRun?
    ensures t in hw.fences <==> t in s.hw.fences || Begins(st, t)
    ensures t in hw.fences ==>
              if Begins(st, t) then !hw.fences[t].signaled && !hw.fences[t].error
              else hw.fences[t] == s.hw.fences[t]
  {}

  lemma FenceCompletes(s: State, st: Step, hw: Hw, t: nat)
    requires Outcome(s, st).Some? && hw == HwAfter(s, st) && st.Done?
    ensures Completes(s, st, t) ==> t in s.hw.fences
    ensures Completes(s, st, t) ==>
              var f := s.hw.fences[t];
              hw.fences == s.hw.fences[t := Fence(f.pipe, f.ordinal, true, f.error)]
    ensures (t in hw.fences <==> t in s.hw.fences) &&
            (t in s.hw.fences && !Completes(s, st, t) ==> hw.fences[t] == s.hw.fences[t])
  {}

  lemma FenceFails(s: State, st: Step, hw: Hw, t: nat)
    requires Outcome(s, st).Some? && hw == HwAfter(s, st) && st.Stop?
    ensures t in hw.fences <==> t in s.hw.fences
    ensures t in s.hw.fences ==>
              hw.fences[t] == if Fails(s, st, t) then Fence(s.hw.fences[t].pipe, s.hw.fences[t].ordinal, true, true)
                                 else s.hw.fences[t]
  {}

  /** What one step does to the fence of job `t`. */
  lemma FenceStep(s: State, st: Step, hw: Hw, t: nat)
    requires Outcome(s, st).Some? && hw == HwAfter(s, st)
    ensures t in hw.fences <==> t in s.hw.fences || Begins(st, t)
    ensures Begins(st, t) ==> !hw.fences[t].signaled && !hw.fences[t].error
    ensures !Begins(st, t) && t in s.hw.fences ==>
              && hw.fences[t].signaled == (s.hw.fences[t].signaled || Completes(s, st, t) || Fails(s, st, t))
              && hw.fences[t].error == (s.hw.fences[t].error || Fails(s, st, t))
    ensures Completes(s, st, t) || Fails(s, st, t) ==> t in s.hw.fences
  {
    if st.StartRun? { FenceBegins(s, st, hw, t); }
    else if st.Done? { FenceCompletes(s, st, hw, t); }
    else if st.Stop? { FenceFails(s, st, hw, t); }
    else { FencesKept(s, st); }
  }

  /** Some step since the job's last start has completed it, or failed it. */
  ghost predicate EndedSince(ss: seq<State>, sts: seq<Step>, k: nat, t: nat)
    requires k <= |sts| < |ss|
  {
    exists i :: 0 <= i < k && (Completes(ss[i], sts[i], t) || Fails(ss[i], sts[i], t)) && NotBegun(sts, t, i + 1, k)
  }

  ghost predicate FailedSince(ss: seq<State>, sts: seq<Step>, k: nat, t: nat)
    requires k <= |sts| < |ss|
  {
    exists i :: 0 <= i < k && Fails(ss[i], sts[i], t) && NotBegun(sts, t, i + 1, k)
  }

  lemma EndedStep(ss: seq<State>, sts: seq<Step>, k: nat, t: nat)
    requires k < |sts| < |ss| && !(Begins(sts[k], t) && (Completes(ss[k], sts[k], t) || Fails(ss[k], sts[k], t)))
    ensures EndedSince(ss, sts, k + 1, t) <==>
              || Completes(ss[k], sts[k], t) || Fails(ss[k], sts[k], t)
              || (EndedSince(ss, sts, k, t) && !Begins(sts[k], t))
  {
    if Completes(ss[k], sts[k], t) || Fails(ss[k], sts[k], t) {
      assert NotBegun(sts, t, k + 1, k + 1);
    } else if EndedSince(ss, sts, k, t) && !Begins(sts[k], t) {
      var i :| 0 <= i < k && (Completes(ss[i], sts[i], t) || Fails(ss[i], sts[i], t)) && NotBegun(sts, t, i + 1, k);
      NotBegunStep(sts, t, i + 1, k);
    }
  }

  lemma FailedStep(ss: seq<State>, sts: seq<Step>, k: nat, t: nat)
    requires k < |sts| < |ss| && !(Begins(sts[k], t) && Fails(ss[k], sts[k], t))
    ensures FailedSince(ss, sts, k + 1, t) <==>
              Fails(ss[k], sts[k], t) || (FailedSince(ss, sts, k, t) && !Begins(sts[k], t))
  {
    if Fails(ss[k], sts[k], t) {
      assert NotBegun(sts, t, k + 1, k + 1);
    } else if FailedSince(ss, sts, k, t) && !Begins(sts[k], t) {
      var i :| 0 <= i < k && Fails(ss[i], sts[i], t) && NotBegun(sts, t, i + 1, k);
      NotBegunStep(sts, t, i + 1, k);
    }
  }

  /** What step `i` does to the fence of job `t`. */
  ghost predicate FenceMoves(ss: seq<State>, sts: seq<Step>, i: nat, t: nat)
    requires i < |sts| < |ss|
  {
    var f, f' := ss[i].hw.fences, ss[i + 1].hw.fences;
    && (t in f' <==> t in f || Begins(sts[i], t))
    && (Completes(ss[i], sts[i], t) || Fails(ss[i], sts[i], t) ==> t in f && !Begins(sts[i], t))
    && (t in f' ==>
          if Begins(sts[i], t) then !f'[t].signaled && !f'[t].error
          else f'[t].signaled == (f[t].signaled || Completes(ss[i], sts[i], t) || Fails(ss[i], sts[i], t)) &&
               f'[t].error == (f[t].error || Fails(ss[i], sts[i], t)))
  }

  lemma FenceInRun(ss: seq<State>, sts: seq<Step>, i: nat, t: nat)
    requires IsRun(ss, sts) && i < |sts|
    ensures FenceMoves(ss, sts, i, t)
  {
    HwInRun(ss, sts, i);
    FenceStep(ss[i], sts[i], ss[i + 1].hw, t);
  }

  /** The fence of job `t` after `k` steps is the one they tell of. */
  ghost predicate FenceTold(ss: seq<State>, sts: seq<Step>, k: nat, t: nat)
    requires k <= |sts| < |ss|
  {
    && (t in ss[k].hw.fences <==> exists i :: 0 <= i < k && Begins(sts[i], t))
    && (t in ss[k].hw.fences ==> (ss[k].hw.fences[t].signaled <==> EndedSince(ss, sts, k, t)))
    && (t in ss[k].hw.fences ==> (ss[k].hw.fences[t].error <==> FailedSince(ss, sts, k, t)))
    && (t !in ss[k].hw.fences ==> !EndedSince(ss, sts, k, t) && !FailedSince(ss, sts, k, t))
  }

  lemma {:induction false} FenceTrace(ss: seq<State>, sts: seq<Step>, k: nat, t: nat)
    requires k <= |sts| < |ss| && t !in ss[0].hw.fences && forall i | 0 <= i < |sts| :: FenceMoves(ss, sts, i, t)
    ensures FenceTold(ss, sts, k, t)
  {
    if k > 0 {
      FenceTrace(ss, sts, k - 1, t);
      assert FenceMoves(ss, sts, k - 1, t);
      EndedStep(ss, sts, k - 1, t);
      FailedStep(ss, sts, k - 1, t);
    }
  }

  /**
   A job has a fence exactly if it has been started.  The fence of its latest run is signalled exactly if
   the job has completed, or been failed by a teardown, since that start; and it carries an error exactly
   if a teardown has failed it since: one that found it pending, or that had fake_wedge on.
   */
  lemma FenceIff(ss: seq<State>, sts: seq<Step>, k: nat, t: nat)
    requires IsRun(ss, sts) && k < |ss|
    ensures t in ss[k].hw.fences <==> exists i :: 0 <= i < k && Begins(sts[i], t)
    ensures t in ss[k].hw.fences ==> (ss[k].hw.fences[t].signaled <==> EndedSince(ss, sts, k, t))
    ensures t in ss[k].hw.fences ==> (ss[k].hw.fences[t].error <==> FailedSince(ss, sts, k, t))
  {
    forall i | 0 <= i < |sts| ensures FenceMoves(ss, sts, i, t) {
      FenceInRun(ss, sts, i, t);
    }
    FenceTrace(ss, sts, k, t);
  }

  /**
   Completion is clean: the job's fence, and no other, is signalled, and without an error.
   */
  lemma CompletionIsClean(ss: seq<State>, sts: seq<Step>, i: nat, t: nat)
    requires IsRun(ss, sts) && i < |sts| && Completes(ss[i], sts[i], t)
    ensures t in ss[i].hw.fences && !ss[i].hw.fences[t].signaled
    ensures var f := ss[i].hw.fences[t];
            ss[i + 1].hw.fences == ss[i].hw.fences[t := Fence(f.pipe, f.ordinal, true, false)]
  {
    HwInRun(ss, sts, i);
    FenceIff(ss, sts, i, t);
    FenceCompletes(ss[i], sts[i], ss[i + 1].hw, t);
  }

  // ----- the order of signals

  /** The ordinal of the fence of the job recorded on pipe `p`. */
  function Current(s: State, p: nat): nat {
    if p < |s.hw.pipes| && s.hw.pipes[p].task.Some? && s.hw.pipes[p].task.value in s.hw.fences
    then s.hw.fences[s.hw.pipes[p].task.value].ordinal else 0
  }

  function SignalledBy(s: State, st: Step, p: nat): seq<nat> { if Signals(s, st, p) then [Current(s, p)] else [] }

  /** The ordinals of the fences the first `k` steps signal on pipe `p`. */
  ghost function Signalled(ss: seq<State>, sts: seq<Step>, k: nat, p: nat): seq<nat>
    requires k <= |sts| < |ss|
  {
    if k == 0 then []
    else Signalled(ss, sts, k - 1, p) + SignalledBy(ss[k - 1], sts[k - 1], p)
  }

  lemma LogKept(s: State, st: Step, p: nat)
    requires p < |s.hw.pipes| && !st.Done? && !st.Stop?
    ensures p < |HwAfter(s, st).pipes| && HwAfter(s, st).pipes[p].log == s.hw.pipes[p].log
  {}

  lemma LogStep(s: State, st: Step, p: nat)
    requires Outcome(s, st).Some? && p < |s.hw.pipes|
    ensures p < |HwAfter(s, st).pipes|
    ensures HwAfter(s, st).pipes[p].log == s.hw.pipes[p].log + SignalledBy(s, st, p)
  {
    if !st.Done? && !st.Stop? { LogKept(s, st, p); }
  }

  function LogOf(s: State, p: nat): seq<nat> { if p < |s.hw.pipes| then s.hw.pipes[p].log else [] }

  ghost predicate LogMoves(ss: seq<State>, sts: seq<Step>, i: nat, p: nat)
    requires i < |sts| < |ss|
  {
    LogOf(ss[i + 1], p) == LogOf(ss[i], p) + SignalledBy(ss[i], sts[i], p)
  }

  lemma LogInRun(ss: seq<State>, sts: seq<Step>, i: nat, p: nat)
    requires IsRun(ss, sts) && i < |sts| && p < 2
    ensures LogMoves(ss, sts, i, p)
  {
    PipesInEveryState(ss, sts, i, p);
    HwInRun(ss, sts, i);
    LogStep(ss[i], sts[i], p);
  }

  lemma LogTrace(ss: seq<State>, sts: seq<Step>, k: nat, p: nat)
    requires k <= |sts| < |ss| && LogOf(ss[0], p) == [] && forall i | 0 <= i < |sts| :: LogMoves(ss, sts, i, p)
    ensures LogOf(ss[k], p) == Signalled(ss, sts, k, p)
  {
    for i := 0 to k
      invariant LogOf(ss[i], p) == Signalled(ss, sts, i, p)
    {
      assert LogMoves(ss, sts, i, p);
    }
  }

  /** The log is what has been signalled, in that order: by completions, and by teardowns of pending jobs. */
  lemma LogIsExact(ss: seq<State>, sts: seq<Step>, k: nat, p: nat)
    requires IsRun(ss, sts) && k < |ss| && p < 2
    ensures LogOf(ss[k], p) == Signalled(ss, sts, k, p)
  {
    forall i | 0 <= i < |sts| ensures LogMoves(ss, sts, i, p) {
      LogInRun(ss, sts, i, p);
    }
    LogTrace(ss, sts, k, p);
  }

  // ----- numbering

  /** The step creates a fence on pipe `p`: the job is started, or given up after its fence was made. */
  predicate Numbers(s: State, st: Step, p: nat) {
    && (st.StartRun? || (st.SkipRun? && st.fenced))
    && st.i < |s.mem.holders| && s.mem.holders[st.i].Job? && s.mem.holders[st.i].pipe == p
  }

  /** How many fences the first `k` steps create on pipe `p`. */
  function Numbered(ss: seq<State>, sts: seq<Step>, k: nat, p: nat): nat
    requires k <= |sts| < |ss|
  {
    if k == 0 then 0 else Numbered(ss, sts, k - 1, p) + Bit(Numbers(ss[k - 1], sts[k - 1], p))
  }

  function SeqnoOf(s: State, p: nat): nat { if p < |s.hw.pipes| then s.hw.pipes[p].seqno else 0 }

  lemma SeqnoKept(s: State, st: Step, p: nat)
    requires p < |s.hw.pipes| && !st.StartRun? && !st.SkipRun?
    ensures p < |HwAfter(s, st).pipes| && HwAfter(s, st).pipes[p].seqno == s.hw.pipes[p].seqno
  {}

  lemma SeqnoStep(s: State, st: Step, p: nat)
    requires Outcome(s, st).Some? && p < |s.hw.pipes|
    ensures p < |HwAfter(s, st).pipes|
    ensures HwAfter(s, st).pipes[p].seqno == s.hw.pipes[p].seqno + Bit(Numbers(s, st, p))
  {
    if !st.StartRun? && !st.SkipRun? { SeqnoKept(s, st, p); }
  }

  lemma SeqnoInRun(ss: seq<State>, sts: seq<Step>, i: nat, p: nat)
    requires IsRun(ss, sts) && i < |sts| && p < 2
    ensures SeqnoOf(ss[i + 1], p) == SeqnoOf(ss[i], p) + Bit(Numbers(ss[i], sts[i], p))
  {
    PipesInEveryState(ss, sts, i, p);
    HwInRun(ss, sts, i);
    SeqnoStep(ss[i], sts[i], p);
  }

  /** The numbers of a pipe's fences are consecutive, those of jobs given up included. */
  lemma {:induction false} SeqnoIsCounted(ss: seq<State>, sts: seq<Step>, k: nat, p: nat)
    requires IsRun(ss, sts) && k < |ss| && p < 2
    ensures SeqnoOf(ss[k], p) == SeqnoOf(ss[0], p) + Numbered(ss, sts, k, p)
  {
    if k > 0 {
      SeqnoIsCounted(ss, sts, k - 1, p);
      SeqnoInRun(ss, sts, k - 1, p);
    }
  }

  /** And a job that is started gets the next of them. */
  lemma StartIsNumbered(ss: seq<State>, sts: seq<Step>, i: nat, t: nat)
    requires IsRun(ss, sts) && i < |sts| && Begins(sts[i], t)
    ensures t < |ss[i].mem.holders| && ss[i].mem.holders[t].Job? && ss[i].mem.holders[t].pipe < 2
    ensures t in ss[i + 1].hw.fences && ss[i + 1].hw.fences[t].pipe == ss[i].mem.holders[t].pipe
    ensures var p := ss[i].mem.holders[t].pipe;
            ss[i + 1].hw.fences[t].ordinal == SeqnoOf(ss[0], p) + Numbered(ss, sts, i, p) + 1
  {
    PipesInEveryState(ss, sts, i, 0);
    HwInRun(ss, sts, i);
    SeqnoIsCounted(ss, sts, i, ss[i].mem.holders[t].pipe);
  }

  // ----- pipe->error

  lemma ErrorKept(s: State, st: Step, p: nat)
    requires p < |s.hw.pipes| && !st.StartRun? && !st.Interrupt? && !st.Stop?
    ensures p < |HwAfter(s, st).pipes| && HwAfter(s, st).pipes[p].error == s.hw.pipes[p].error
  {}

  lemma ErrorStep(s: State, st: Step, p: nat)
    requires Outcome(s, st).Some? && p < |s.hw.pipes|
    ensures p < |HwAfter(s, st).pipes|
    ensures HwAfter(s, st).pipes[p].error ==
            if Stores(s, st, p).Some? then Stores(s, st, p).value else s.hw.pipes[p].error
  {
    if !st.StartRun? && !st.Interrupt? && !st.Stop? { ErrorKept(s, st, p); }
  }

  ghost predicate NoneStores(ss: seq<State>, sts: seq<Step>, p: nat, from: nat, k: nat)
    requires k <= |sts| < |ss|
  {
    forall j | from <= j < k :: Stores(ss[j], sts[j], p).None?
  }

  ghost predicate SetSince(ss: seq<State>, sts: seq<Step>, p: nat, k: nat)
    requires k <= |sts| < |ss|
  {
    exists i :: 0 <= i < k && Stores(ss[i], sts[i], p) == Some(true) && NoneStores(ss, sts, p, i + 1, k)
  }

  lemma SetStep(ss: seq<State>, sts: seq<Step>, p: nat, k: nat)
    requires k < |sts| < |ss|
    ensures NoneStores(ss, sts, p, 0, k + 1) <==> NoneStores(ss, sts, p, 0, k) && Stores(ss[k], sts[k], p).None?
    ensures SetSince(ss, sts, p, k + 1) <==>
              || Stores(ss[k], sts[k], p) == Some(true)
              || (SetSince(ss, sts, p, k) && Stores(ss[k], sts[k], p).None?)
  {
    if Stores(ss[k], sts[k], p) == Some(true) {
      assert NoneStores(ss, sts, p, k + 1, k + 1);
    } else if SetSince(ss, sts, p, k) && Stores(ss[k], sts[k], p).None? {
      var i :| 0 <= i < k && Stores(ss[i], sts[i], p) == Some(true) && NoneStores(ss, sts, p, i + 1, k);
      assert NoneStores(ss, sts, p, i + 1, k + 1);
    }
  }

  function ErrorOf(s: State, p: nat): bool { p < |s.hw.pipes| && s.hw.pipes[p].error }

  ghost predicate ErrorMoves(ss: seq<State>, sts: seq<Step>, i: nat, p: nat)
    requires i < |sts| < |ss|
  {
    ErrorOf(ss[i + 1], p) ==
      if Stores(ss[i], sts[i], p).Some? then Stores(ss[i], sts[i], p).value else ErrorOf(ss[i], p)
  }

  lemma ErrorInRun(ss: seq<State>, sts: seq<Step>, i: nat, p: nat)
    requires IsRun(ss, sts) && i < |sts| && p < 2
    ensures ErrorMoves(ss, sts, i, p)
  {
    PipesInEveryState(ss, sts, i, p);
    HwInRun(ss, sts, i);
    ErrorStep(ss[i], sts[i], p);
  }

  lemma {:induction false} ErrorTrace(ss: seq<State>, sts: seq<Step>, k: nat, p: nat)
    requires k <= |sts| < |ss| && forall i | 0 <= i < |sts| :: ErrorMoves(ss, sts, i, p)
    ensures ErrorOf(ss[k], p) <==> (ErrorOf(ss[0], p) && NoneStores(ss, sts, p, 0, k)) || SetSince(ss, sts, p, k)
  {
    if k > 0 {
      ErrorTrace(ss, sts, k - 1, p);
      assert ErrorMoves(ss, sts, k - 1, p);
      SetStep(ss, sts, p, k - 1);
    }
  }

  /**
   pipe->error is set exactly if it was set from the start, or by an interrupt or the teardown of a pending
   job, and has not been cleared since: by the start of a job, or an interrupt of the GP without an error.
   */
  lemma ErrorFlagIff(ss: seq<State>, sts: seq<Step>, k: nat, p: nat)
    requires IsRun(ss, sts) && k < |ss| && p < 2
    ensures ErrorOf(ss[k], p) <==> (ErrorOf(ss[0], p) && NoneStores(ss, sts, p, 0, k)) || SetSince(ss, sts, p, k)
  {
    forall i | 0 <= i < |sts| ensures ErrorMoves(ss, sts, i, p) {
      ErrorInRun(ss, sts, i, p);
    }
    ErrorTrace(ss, sts, k, p);
  }

  ghost predicate NoneClears(ss: seq<State>, sts: seq<Step>, p: nat, from: nat, k: nat)
    requires k <= |sts| < |ss|
  {
    forall j | from <= j < k :: Stores(ss[j], sts[j], p) != Some(false)
  }

  lemma {:induction false} StaysSet(ss: seq<State>, sts: seq<Step>, p: nat, i: nat, k: nat)
    requires i < k <= |sts| < |ss| && Stores(ss[i], sts[i], p) == Some(true) && NoneClears(ss, sts, p, i + 1, k)
    ensures SetSince(ss, sts, p, k)
  {
    SetStep(ss, sts, p, k - 1);
    if i < k - 1 {
      StaysSet(ss, sts, p, i, k - 1);
    }
  }

  /** So a job completes only if every error before it has been cleared, as the start of a job does. */
  lemma CompletesOnlyCleared(ss: seq<State>, sts: seq<Step>, i: nat, j: nat, p: nat)
    requires IsRun(ss, sts) && i < j < |sts| && p < 2 && sts[j] == Done(p) && Stores(ss[i], sts[i], p) == Some(true)
    ensures !NoneClears(ss, sts, p, i + 1, j)
  {
    ErrorFlagIff(ss, sts, j, p);
    HwInRun(ss, sts, j);
    if NoneClears(ss, sts, p, i + 1, j) {
      StaysSet(ss, sts, p, i, j);
    }
  }

  // ----- power and parking

  /** How many of the first `k` steps start a job; how many end one; how many teardowns find one in flight. */
  function StartCount(sts: seq<Step>, k: nat): nat
    requires k <= |sts|
  {
    if k == 0 then 0 else StartCount(sts, k - 1) + Bit(sts[k - 1].StartRun?)
  }

  function EndCount(sts: seq<Step>, k: nat): nat
    requires k <= |sts|
  {
    if k == 0 then 0 else EndCount(sts, k - 1) + Bit(sts[k - 1].Done? || sts[k - 1].TimedOut?)
  }

  function ForcedCount(ss: seq<State>, sts: seq<Step>, k: nat): nat
    requires k <= |sts| < |ss|
  {
    if k == 0 then 0
    else ForcedCount(ss, sts, k - 1) +
         Bit(sts[k - 1].Stop? && sts[k - 1].p < |ss[k - 1].hw.pipes| && InFlight(ss[k - 1].hw, sts[k - 1].p))
  }

  lemma PowerStep(s: State, st: Step)
    requires Outcome(s, st).Some?
    ensures HwAfter(s, st).pm == s.hw.pm + Bit(st.StartRun?) - Bit(st.Done? || st.TimedOut?)
    ensures HwAfter(s, st).forced ==
            s.hw.forced + Bit(st.Stop? && st.p < |s.hw.pipes| && InFlight(s.hw, st.p))
  {}

  ghost predicate PowerMoves(ss: seq<State>, sts: seq<Step>, i: nat)
    requires i < |sts| < |ss|
  {
    && ss[i + 1].hw.pm == ss[i].hw.pm + Bit(sts[i].StartRun?) - Bit(sts[i].Done? || sts[i].TimedOut?)
    && ss[i + 1].hw.forced ==
       ss[i].hw.forced + Bit(sts[i].Stop? && sts[i].p < |ss[i].hw.pipes| && InFlight(ss[i].hw, sts[i].p))
  }

  lemma PowerInRun(ss: seq<State>, sts: seq<Step>, i: nat)
    requires IsRun(ss, sts) && i < |sts|
    ensures PowerMoves(ss, sts, i)
  {
    HwInRun(ss, sts, i);
    PowerStep(ss[i], sts[i]);
  }

  lemma {:induction false} PowerTrace(ss: seq<State>, sts: seq<Step>, k: nat)
    requires k <= |sts| < |ss| && ss[0].hw.pm == 0 == ss[0].hw.forced
    requires forall i | 0 <= i < |sts| :: PowerMoves(ss, sts, i)
    ensures ss[k].hw.pm == StartCount(sts, k) - EndCount(sts, k) && ss[k].hw.forced == ForcedCount(ss, sts, k)
  {
    if k > 0 {
      PowerTrace(ss, sts, k - 1);
      assert PowerMoves(ss, sts, k - 1);
    }
  }

  /**
   lima_pm_busy is called once for each start, lima_pm_idle once for each completion and each timeout, and
   for nothing else; what is left is one for each job in flight and each teardown that found one.
   */
  lemma PowerIsBalanced(ss: seq<State>, sts: seq<Step>, k: nat)
    requires IsRun(ss, sts) && k < |ss|
    ensures |ss[k].hw.pipes| == 2 && ss[k].hw.pm == StartCount(sts, k) - EndCount(sts, k)
    ensures ss[k].hw.forced == ForcedCount(ss, sts, k)
    ensures StartCount(sts, k) - EndCount(sts, k) ==
            Bit(InFlight(ss[k].hw, 0)) + Bit(InFlight(ss[k].hw, 1)) + ForcedCount(ss, sts, k)
  {
    forall i | 0 <= i < |sts| ensures PowerMoves(ss, sts, i) {
      PowerInRun(ss, sts, i);
    }
    PowerTrace(ss, sts, k);
    PipesInEveryState(ss, sts, k, 0);
  }

  lemma StoppedKept(s: State, st: Step, p: nat)
    requires Outcome(s, st).Some? && p < |s.hw.pipes|
    ensures p < |HwAfter(s, st).pipes| && HwAfter(s, st).pipes[p].stopped == (s.hw.pipes[p].stopped || st == Park(p))
  {}

  lemma ParkedStartsNone(s: State, st: Step, p: nat)
    requires Outcome(s, st).Some? && p < |s.hw.pipes| && s.hw.pipes[p].stopped && st.StartRun?
    ensures st.i < |s.mem.holders| && s.mem.holders[st.i].Job? && s.mem.holders[st.i].pipe != p
  {}

  predicate StoppedAt(s: State, p: nat) { p < |s.hw.pipes| && s.hw.pipes[p].stopped }

  /** The step starts no job on pipe `p`. */
  predicate StartsNone(s: State, st: Step, p: nat) {
    st.StartRun? ==>
      st.i < |s.mem.holders| && s.mem.holders[st.i].Job? && s.mem.holders[st.i].pipe != p
  }

  ghost predicate StoppedMoves(ss: seq<State>, sts: seq<Step>, i: nat, p: nat)
    requires i < |sts| < |ss|
  {
    && StoppedAt(ss[i + 1], p) == (StoppedAt(ss[i], p) || sts[i] == Park(p))
    && (StoppedAt(ss[i], p) ==> StartsNone(ss[i], sts[i], p))
  }

  lemma StoppedInRun(ss: seq<State>, sts: seq<Step>, i: nat, p: nat)
    requires IsRun(ss, sts) && i < |sts| && p < 2
    ensures StoppedMoves(ss, sts, i, p)
  {
    PipesInEveryState(ss, sts, i, p);
    HwInRun(ss, sts, i);
    StoppedKept(ss[i], sts[i], p);
    if StoppedAt(ss[i], p) && sts[i].StartRun? {
      ParkedStartsNone(ss[i], sts[i], p);
    }
  }

  lemma {:induction false} StoppedTrace(ss: seq<State>, sts: seq<Step>, i: nat, k: nat, p: nat)
    requires i < k <= |sts| < |ss| && sts[i] == Park(p)
    requires forall j | 0 <= j < |sts| :: StoppedMoves(ss, sts, j, p)
    ensures StoppedAt(ss[k], p)
  {
    assert StoppedMoves(ss, sts, k - 1, p);
    if i < k - 1 {
      StoppedTrace(ss, sts, i, k - 1, p);
    }
  }

  /** Once drm_sched_stop has parked a pipe no job is ever started on it. */
  lemma ParkedForGood(ss: seq<State>, sts: seq<Step>, i: nat, k: nat, p: nat)
    requires IsRun(ss, sts) && i < k < |ss| && p < 2 && sts[i] == Park(p)
    ensures StoppedAt(ss[k], p) && (k < |sts| ==> StartsNone(ss[k], sts[k], p))
  {
    forall j | 0 <= j < |sts| ensures StoppedMoves(ss, sts, j, p) {
      StoppedInRun(ss, sts, j, p);
    }
    StoppedTrace(ss, sts, i, k, p);
    assert k < |sts| ==> StoppedMoves(ss, sts, k, p);
  }
}
