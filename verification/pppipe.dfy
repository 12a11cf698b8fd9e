/**
 The pixel processors (lima_pp.c): counting the cores' reports until a job is complete, on the
 per-core and on the broadcast interrupt path, and the reset handshake that arms a core's
 interrupts before it is started.
 */
module PpPipe {
  import opened Wrappers

  /** One core's answer to a job: an interrupt, or a page fault of its MMU. */
  datatype Report = Finished | Failed | PageFault

  /** LIMA_PP_INT_STATUS of a core, as the handler tells it apart. */
  datatype Irq = Quiet | DoneBits | ErrorBits

  /** A report as it comes in, with the core it comes from. */
  datatype Arrival = Arrival(core: nat, report: Report)

  predicate Bad(r: Report) { r != Finished }

  predicate AnyBad(rs: seq<Arrival>) { exists i | 0 <= i < |rs| :: Bad(rs[i].report) }

  /** The number of cores below `n` in a set. */
  function CountBelow(s: set<nat>, n: nat): nat {
    if n == 0 then 0 else CountBelow(s, n - 1) + if n - 1 in s then 1 else 0
  }

  lemma {:induction false} CountBound(s: set<nat>, n: nat)
    ensures CountBelow(s, n) <= n
    ensures CountBelow(s, n) == n <==> forall i | 0 <= i < n :: i in s
  {
    if n > 0 {
      CountBound(s, n - 1);
    }
  }

  lemma {:induction false} CountAdd(s: set<nat>, i: nat, n: nat)
    requires i !in s
    ensures CountBelow(s + {i}, n) == CountBelow(s, n) + if i < n then 1 else 0
  {
    if n > 0 {
      CountAdd(s, i, n - 1);
    }
  }

  class Pipe {
    const numProcessor: nat
    const bcast: bool                  // pipe->bcast_processor is set (Mali-450)
    const used: array<bool>            // each core's interrupt mask is LIMA_PP_IRQ_MASK_USED
    const asyncReset: array<bool>
    var task: int                      // atomic: reports still missing
    var done: set<nat>                 // pipe->done
    var error: bool
    var numPp: nat                     // the running frame's num_pp
    ghost var completions: seq<bool>   // calls of lima_sched_pipe_task_done: did each take the error branch

    ghost predicate Shape()
    {
      used != asyncReset && used.Length == asyncReset.Length == numProcessor
    }

    constructor (n: nat, bcast: bool)
      ensures Shape() && numProcessor == n && this.bcast == bcast && fresh(used) && fresh(asyncReset)
      ensures forall c | 0 <= c < n :: !asyncReset[c] && !used[c]
    {
      numProcessor, this.bcast := n, bcast;
      used, asyncReset := new bool[n](_ => false), new bool[n](_ => false);
      task, done, error, numPp, completions := 0, {}, false, 0, [];
    }

    // ----- validation

    /** lima_pp_task_validate: only core counts the device has are accepted, and no padding bits. */
    method TaskValidate(num: nat, pad: nat) returns (err: Errno)
      ensures err in {Ok, EINVAL}
      ensures err == Ok <==> 1 <= num <= numProcessor && (bcast ==> pad == 0)
    {
      if bcast && pad != 0 {
        return EINVAL;
      }
      if num == 0 || num > numProcessor {
        return EINVAL;
      }
      err := Ok;
    }

    // ----- counting reports

    /** `if (atomic_dec_and_test(&pipe->task)) lima_sched_pipe_task_done(pipe);` */
    method CountDown()
      modifies `task, `completions
      ensures task == old(task) - 1
      ensures completions == if task == 0 then old(completions) + [error] else old(completions)
    {
      task := task - 1;
      if task == 0 {
        completions := completions + [error];
      }
    }

    /** lima_pp_handle_irq: an error marks the pipe and masks the core. */
    method HandleIrq(core: nat, state: Irq)
      requires Shape() && core < numProcessor
      modifies used, `error
      ensures error == (old(error) || state == ErrorBits)
      ensures forall c | 0 <= c < numProcessor :: used[c] == (old(used[c]) && !(c == core && state == ErrorBits))
    {
      if state == ErrorBits {
        error := true;
        used[core] := false;
      }
    }

    /** lima_pp_irq_handler; false is IRQ_NONE. */
    method IrqHandler(core: nat, state: Irq) returns (handled: bool)
      requires Shape() && core < numProcessor
      modifies `task, `error, `completions, used
      ensures handled <==> state != Quiet
      ensures !handled ==> task == old(task) && error == old(error) && completions == old(completions)
      ensures handled ==> task == old(task) - 1 && error == (old(error) || state == ErrorBits)
      ensures handled ==> completions == if task == 0 then old(completions) + [error] else old(completions)
      ensures forall c | 0 <= c < numProcessor :: used[c] == (old(used[c]) && !(c == core && state == ErrorBits))
    {
      if state == Quiet {
        return false;
      }
      HandleIrq(core, state);
      CountDown();
      handled := true;
    }

    /** lima_sched_pipe_mmu_error with lima_pp_task_mmu_error. */
    method MmuError()
      modifies `task, `error, `completions
      ensures task == old(task) - 1 && error
      ensures completions == if task == 0 then old(completions) + [true] else old(completions)
    {
      error := true;
      CountDown();
    }

    /** One report of a core, on the per-core path. */
    method Deliver(core: nat, r: Report)
      requires Shape() && core < numProcessor
      modifies `task, `error, `completions, used
      ensures task == old(task) - 1 && error == (old(error) || Bad(r))
      ensures completions == if task == 0 then old(completions) + [error] else old(completions)
      ensures r != Failed ==> used[..] == old(used[..])
    {
      match r
      case Finished => var handled := IrqHandler(core, DoneBits);
      case Failed => var handled := IrqHandler(core, ErrorBits);
      case PageFault => MmuError();
    }

    /**
     A whole job on the per-core path, in whatever order its cores report and however it goes: once each
     of the num_pp cores has, the job has been completed exactly once, at the last report, and took the
     error branch if and only if some report was bad.  With a report missing it has not been completed.
     */
    method CollectReports(rs: seq<Arrival>)
      requires Shape() && |rs| <= numPp && 0 < numPp
      requires task == numPp && !error && forall i | 0 <= i < |rs| :: rs[i].core < numProcessor
      modifies `task, `error, `completions, used
      ensures task == numPp - |rs| && error == AnyBad(rs)
      ensures completions == old(completions) + if |rs| == numPp then [AnyBad(rs)] else []
      ensures !AnyBad(rs) ==> used[..] == old(used[..])
    {
      var k := 0;
      while k < |rs|
        invariant k <= |rs| && task == numPp - k && error == AnyBad(rs[..k])
        invariant completions == if k < numPp then old(completions) else old(completions) + [AnyBad(rs)]
        invariant !AnyBad(rs[..k]) ==> used[..] == old(used[..])
      {
        AnyBadStep(rs, k);
        Deliver(rs[k].core, rs[k].report);
        k := k + 1;
        assert k == |rs| ==> rs[..k] == rs;
      }
      assert rs[..k] == rs;
    }

    /** The counter is num_pp less the cores marked done: what the broadcast path keeps. */
    ghost predicate BcastExact()
      reads this
    {
      numPp <= numProcessor && task == numPp - CountBelow(done, numPp)
    }

    /**
     lima_pp_bcast_irq_handler: `active` and `states` are what the status registers read.  Repeated
     and spurious interrupts count no core twice; the job is completed exactly when the last core
     is first seen done.
     */
    method BcastIrq(busy: bool, active: seq<bool>, states: seq<Irq>) returns (handled: bool)
      requires Shape() && BcastExact() && |active| == |states| == numProcessor
      modifies this, used
      ensures BcastExact() && numPp == old(numPp)
      ensures forall c: nat :: c in done <==>
                c in old(done) || (busy && c < numPp && (states[c] != Quiet || !active[c]))
      ensures completions == old(completions) + (if old(task) > 0 && task == 0 then [error] else [])
      ensures error == (old(error) || (busy && exists c :: 0 <= c < numPp && c !in old(done) && states[c] == ErrorBits))
    {
      handled := false;
      if !busy {
        assert forall c: nat :: c in done <==> c in old(done);
        return;
      }
      ghost var done0, error0, task0, had := done, error, task, completions;
      var i := 0;
      CountBound(done, numPp);
      while i < numPp
        invariant i <= numPp == old(numPp) && BcastExact()
        invariant forall c: nat :: c in done <==> c in done0 || (c < i && (states[c] != Quiet || !active[c]))
        invariant error == (error0 || exists c :: 0 <= c < i && c !in done0 && states[c] == ErrorBits)
        invariant 0 <= task <= task0
        invariant completions == had + (if task0 > 0 && task == 0 then [error] else [])
        invariant task == 0 ==> forall c | 0 <= c < numPp :: c in done
      {
        if i in done {
          i := i + 1;
          continue;
        }
        if states[i] != Quiet {
          HandleIrq(i, states[i]);
          handled := true;
        } else if active[i] {
          i := i + 1;
          continue;
        }
        MarkDone(i);
        i := i + 1;
      }
    }

    /** `pipe->done |= 1 << i`, and one report less is missing. */
    method MarkDone(i: nat)
      requires BcastExact() && i < numPp && i !in done
      modifies `done, `task, `completions
      ensures BcastExact() && done == old(done) + {i} && 0 <= task == old(task) - 1
      ensures completions == if task == 0 then old(completions) + [error] else old(completions)
      ensures task == 0 ==> forall c | 0 <= c < numPp :: c in done
    {
      CountAdd(done, i, numPp);
      CountBound(done + {i}, numPp);
      done := done + {i};
      CountDown();
    }

    // ----- the reset handshake (per-core path)

    /** Between jobs: a core has a soft reset pending, or its interrupts armed. */
    ghost predicate Rested()
      requires Shape()
      reads used, asyncReset
    {
      forall c | 0 <= c < numProcessor :: asyncReset[c] || used[c]
    }

    /** lima_pp_soft_reset_async: masks the core and asks for a reset, unless one is pending. */
    method SoftResetAsync(c: nat)
      requires Shape() && c < numProcessor
      modifies used, asyncReset
      ensures asyncReset[..] == old(asyncReset[..])[c := true]
      ensures used[..] == if old(asyncReset[c]) then old(used[..]) else old(used[..])[c := false]
    {
      if asyncReset[c] {
        return;
      }
      used[c] := false;
      asyncReset[c] := true;
    }

    /** lima_pp_soft_reset_async_wait on a core; `poll` is whether the reset completes in time. */
    method SoftResetWait(c: nat, poll: bool) returns (err: Errno)
      requires Shape() && c < numProcessor
      modifies used, asyncReset
      ensures err == Ok <==> !old(asyncReset[c]) || poll
      ensures asyncReset[..] == old(asyncReset[..])[c := false]
      ensures used[..] == if old(asyncReset[c]) && poll then old(used[..])[c := true] else old(used[..])
    {
      if !asyncReset[c] {
        return Ok;
      }
      if poll {
        used[c] := true;
      }
      asyncReset[c] := false;
      err := if poll then Ok else EIO;
    }

    /** lima_pp_hard_reset: the mask is armed only if the core answers. */
    method HardReset(c: nat, poll: bool)
      requires Shape() && c < numProcessor
      modifies used
      ensures used[..] == old(used[..])[c := poll]
    {
      used[c] := false;
      if poll {
        used[c] := true;
      }
    }

    /** lima_pp_hw_init */
    method HwInit(c: nat, poll: bool) returns (err: Errno)
      requires Shape() && c < numProcessor
      modifies used, asyncReset
      ensures err == Ok <==> poll
      ensures used[..] == old(used[..])[c := poll] && asyncReset[..] == old(asyncReset[..])[c := false]
    {
      asyncReset[c] := false;
      SoftResetAsync(c);
      err := SoftResetWait(c, poll);
    }

    /** lima_pp_task_run on the per-core path: waits for each core's reset, then starts it. */
    method TaskRun(num: nat, polls: seq<bool>)
      requires Shape() && 1 <= num <= numProcessor && |polls| == numProcessor
      modifies this, used, asyncReset
      ensures numPp == num && task == num && done == old(done) && error == old(error) && completions == old(completions)
      ensures forall c | 0 <= c < num :: !asyncReset[c] && used[c] == (old(used[c]) || (old(asyncReset[c]) && polls[c]))
      ensures forall c | num <= c < numProcessor :: asyncReset[c] == old(asyncReset[c]) && used[c] == old(used[c])
    {
      numPp := num;
      task := num;
      var i := 0;
      while i < num
        invariant i <= num == numPp == task && done == old(done) && error == old(error)
        invariant completions == old(completions)
        invariant forall c | 0 <= c < i ::
                    !asyncReset[c] && used[c] == (old(used[c]) || (old(asyncReset[c]) && polls[c]))
        invariant forall c | i <= c < numProcessor :: asyncReset[c] == old(asyncReset[c]) && used[c] == old(used[c])
      {
        var err := SoftResetWait(i, polls[i]);
        i := i + 1;
      }
    }

    /** lima_pp_task_fini: every core of the device is reset, also those the job did not use. */
    method TaskFini()
      requires Shape()
      modifies used, asyncReset
      ensures forall c | 0 <= c < numProcessor :: asyncReset[c] && used[c] == (old(used[c]) && old(asyncReset[c]))
    {
      var i := 0;
      while i < numProcessor
        invariant i <= numProcessor
        invariant forall c | 0 <= c < i :: asyncReset[c] && used[c] == (old(used[c]) && old(asyncReset[c]))
        invariant forall c | i <= c < numProcessor :: asyncReset[c] == old(asyncReset[c]) && used[c] == old(used[c])
      {
        SoftResetAsync(i);
        i := i + 1;
      }
    }

    /** lima_pp_task_error */
    method TaskError(polls: seq<bool>)
      requires Shape() && |polls| == numProcessor
      modifies used
      ensures forall c | 0 <= c < numProcessor :: used[c] == polls[c]
    {
      var i := 0;
      while i < numProcessor
        invariant i <= numProcessor && forall c | 0 <= c < i :: used[c] == polls[c]
      {
        HardReset(i, polls[i]);
        i := i + 1;
      }
    }

    /** The scheduler's part between two jobs: a failed job is reset hard, a finished one softly. */
    method EndJob(failed: bool, resets: seq<bool>)
      requires Shape() && |resets| == numProcessor
      modifies `error, used, asyncReset
      ensures !error
      ensures forall c | 0 <= c < numProcessor :: State(c) == AtEnd(old(State(c)), failed, resets[c])
    {
      if failed {
        TaskError(resets);
      } else {
        TaskFini();
      }
      error := false;
    }

    /** The two flags of a core. */
    ghost function State(c: nat): CoreState
      requires Shape() && c < numProcessor
      reads used, asyncReset
    {
      CoreState(used[c], asyncReset[c])
    }

    /** The cores' flags, all together. */
    ghost predicate Is(cores: seq<CoreState>)
      requires Shape()
      reads used, asyncReset
    {
      |cores| == numProcessor && forall c | 0 <= c < numProcessor :: State(c) == cores[c]
    }

    /** One job from start to reset.  `armed`: no core was started with its interrupts masked. */
    method RunJob(w: Work, ghost before: seq<CoreState>) returns (armed: bool)
      requires Shape() && !error && w.Fits(numProcessor) && Is(before)
      modifies this, used, asyncReset
      ensures !error && completions == old(completions) + w.Completion()
      ensures Is(w.After(before)) && (armed <==> w.AllArmed(before))
      ensures armed <==> forall c | 0 <= c < w.size :: old(used[c]) || (old(asyncReset[c]) && w.polls[c])
      ensures |w.reports| < w.size || (exists i :: 0 <= i < |w.reports| && w.reports[i].report != Finished) ==>
                forall c | 0 <= c < numProcessor ::
                  used[c] == w.resets[c] && asyncReset[c] == (c >= w.size && old(asyncReset[c]))
      ensures |w.reports| == w.size && (forall i | 0 <= i < |w.reports| :: w.reports[i].report == Finished) ==>
                forall c | 0 <= c < numProcessor :: asyncReset[c]
    {
      TaskRun(w.size, w.polls);
      forall c | 0 <= c < w.size ensures used[c] == AtStart(before[c], w.polls[c]).used {
        assert old(State(c)) == before[c];
      }
      armed := forall c | 0 <= c < w.size :: used[c];
      CollectReports(w.reports);
      EndJob(w.Failed(), w.resets);
      forall c | 0 <= c < numProcessor
        ensures CoreState(used[c], asyncReset[c]) == w.CoreAfter(CoreState(old(used[c]), old(asyncReset[c])), c)
      {
        assert State(c) == w.CoreAfter(before[c], c) && before[c] == old(State(c));
      }
    }

    /**
     No lost completions.  Over any run of jobs of any sizes, with any outcomes, lost reports and reset
     polls: a job is completed exactly once, with its own outcome, if all its cores report, and not at
     all otherwise; the cores' flags are as `CoresAfter` says, so that `ArmedIff` says when a job's cores
     are started armed.
     */
    method RunJobs(jobs: seq<Work>, ghost start: seq<CoreState>) returns (armed: seq<bool>)
      requires Shape() && !error && Is(start) && forall i | 0 <= i < |jobs| :: jobs[i].Fits(numProcessor)
      modifies this, used, asyncReset
      ensures !error && completions == old(completions) + Completions(jobs, |jobs|)
      ensures Is(CoresAfter(start, jobs, |jobs|))
      ensures |armed| == |jobs| && ArmedTells(start, jobs, armed)
    {
      ghost var had := completions;
      armed := [];
      while |armed| < |jobs|
        invariant |armed| <= |jobs| && !error && completions == had + Completions(jobs, |armed|)
        invariant Is(CoresAfter(start, jobs, |armed|)) && ArmedTells(start, jobs, armed)
      {
        var ok := RunJob(jobs[|armed|], CoresAfter(start, jobs, |armed|));
        ArmedMore(start, jobs, armed, ok);
        armed := armed + [ok];
      }
    }

    /** Power-up or resume of all cores. */
    method PowerUp(inits: seq<bool>) returns (ok: bool)
      requires Shape() && |inits| == numProcessor
      modifies used, asyncReset
      ensures ok <==> forall c | 0 <= c < numProcessor :: inits[c]
      ensures forall c | 0 <= c < numProcessor :: State(c) == CoreState(inits[c], false)
    {
      ok := true;
      var i := 0;
      while i < numProcessor
        invariant i <= numProcessor && (ok <==> forall c | 0 <= c < i :: inits[c])
        invariant forall c | 0 <= c < i :: State(c) == CoreState(inits[c], false)
      {
        var err := HwInit(i, inits[i]);
        ok := ok && err == Ok;
        i := i + 1;
      }
    }

    /** If all came up, the first job is started armed, whatever the polls say. */
    method FirstJobs(inits: seq<bool>, jobs: seq<Work>) returns (ok: bool, armed: seq<bool>)
      requires Shape() && !error && |inits| == numProcessor
      requires forall i | 0 <= i < |jobs| :: jobs[i].Fits(numProcessor)
      modifies this, used, asyncReset
      ensures (ok <==> forall c | 0 <= c < |inits| :: inits[c]) && (ok ==> |armed| == |jobs|)
      ensures ok ==> !error && completions == old(completions) + Completions(jobs, |jobs|)
      ensures ok && |jobs| > 0 ==> armed[0]
    {
      armed := [];
      ok := PowerUp(inits);
      if ok {
        ghost var start := seq(numProcessor, _ => CoreState(true, false));
        armed := RunJobs(jobs, start);
        assert |jobs| > 0 ==> (armed[0] <==> ArmedAt(start, jobs, 0));
      }
    }
  }

  /** A core between jobs: its interrupts are armed; a soft reset is pending. */
  datatype CoreState = CoreState(used: bool, pending: bool)

  /** Waiting for a pending reset arms the core if the poll succeeds, and ends the waiting. */
  function AtStart(s: CoreState, poll: bool): CoreState { CoreState(s.used || (s.pending && poll), false) }

  /** A hard reset arms a core that answers, and leaves a pending soft reset pending. */
  function AtEnd(s: CoreState, failed: bool, reset: bool): CoreState {
    if failed then CoreState(reset, s.pending) else CoreState(s.used && s.pending, true)
  }

  /**
   A job as its cores answer it: how many it uses, the reports that arrive, in order, and whether each
   core's soft reset completes in time before the job and its hard reset after it, if there is one.
   */
  datatype Work = Work(size: nat, reports: seq<Arrival>, polls: seq<bool>, resets: seq<bool>) {
    predicate Fits(n: nat) {
      && 1 <= size <= n && |reports| <= size && |polls| == |resets| == n
      && forall i | 0 <= i < |reports| :: reports[i].core < n
    }

    /** Some core reports an error, or does not report before the timeout. */
    predicate Failed() { |reports| < size || AnyBad(reports) }

    /** What lima_sched_pipe_task_done is called with. */
    function Completion(): seq<bool> { if |reports| == size then [AnyBad(reports)] else [] }

    predicate Poll(c: nat) { c < |polls| && polls[c] }

    predicate Reset(c: nat) { c < |resets| && resets[c] }

    /** Every core the job uses is started with its interrupts armed. */
    predicate AllArmed(cores: seq<CoreState>) {
      forall c | 0 <= c < size && c < |cores| :: AtStart(cores[c], Poll(c)).used
    }

    /** Core `c` after the job. */
    function CoreAfter(s: CoreState, c: nat): CoreState {
      AtEnd(if c < size then AtStart(s, Poll(c)) else s, Failed(), Reset(c))
    }

    function After(cores: seq<CoreState>): (r: seq<CoreState>)
      ensures |r| == |cores| && forall c | 0 <= c < |cores| :: r[c] == CoreAfter(cores[c], c)
    {
      seq(|cores|, c requires 0 <= c < |cores| => CoreAfter(cores[c], c))
    }
  }

  function Completions(jobs: seq<Work>, n: nat): seq<bool>
    requires n <= |jobs|
  {
    if n == 0 then [] else Completions(jobs, n - 1) + jobs[n - 1].Completion()
  }

  /** The cores after the first `n` jobs. */
  function CoresAfter(cores: seq<CoreState>, jobs: seq<Work>, n: nat): (r: seq<CoreState>)
    requires n <= |jobs|
    ensures |r| == |cores|
  {
    if n == 0 then cores else jobs[n - 1].After(CoresAfter(cores, jobs, n - 1))
  }

  /** The k-th job's cores are all started armed. */
  predicate ArmedAt(start: seq<CoreState>, jobs: seq<Work>, k: nat)
    requires k < |jobs|
  {
    jobs[k].AllArmed(CoresAfter(start, jobs, k))
  }

  predicate ArmedTells(start: seq<CoreState>, jobs: seq<Work>, armed: seq<bool>) {
    |armed| <= |jobs| && forall k {:trigger armed[k]} | 0 <= k < |armed| :: armed[k] <==> ArmedAt(start, jobs, k)
  }

  lemma ArmedMore(start: seq<CoreState>, jobs: seq<Work>, armed: seq<bool>, ok: bool)
    requires ArmedTells(start, jobs, armed) && |armed| < |jobs| && (ok <==> ArmedAt(start, jobs, |armed|))
    ensures ArmedTells(start, jobs, armed + [ok])
  {
    forall k | 0 <= k < |armed + [ok]| ensures (armed + [ok])[k] <==> ArmedAt(start, jobs, k) {
      if k < |armed| {
        assert (armed + [ok])[k] == armed[k];
      }
    }
  }

  /**
   How a job leaves a core.  If a report is missing or bad, the timeout has reset every core hard: it is
   armed exactly if it answered, and its soft reset is as pending as it was once the job was started.  If
   all reports are in and good, every core has a soft reset pending, and is masked unless it had been
   started with one pending already.
   */
  lemma CoreAfterJob(start: seq<CoreState>, jobs: seq<Work>, k: nat, c: nat)
    requires 0 < k <= |jobs| && c < |start| && |jobs[k - 1].reports| <= jobs[k - 1].size
    ensures var w, s, t := jobs[k - 1], CoresAfter(start, jobs, k - 1)[c], CoresAfter(start, jobs, k)[c];
            if |w.reports| < w.size || exists i :: 0 <= i < |w.reports| && w.reports[i].report != Finished
            then t == CoreState(c < |w.resets| && w.resets[c], c >= w.size && s.pending)
            else t == CoreState(c >= w.size && s.used && s.pending, true)
  {}

  /**
   When a job's core is started armed.  Unless a report of the job before was missing or bad, and the hard
   reset after it not answered, the core is started with its interrupts masked if and only if it has been
   reset softly since it was last armed and that reset does not complete in time.  A core that a hard
   reset has armed needs no poll, although its soft reset may still be pending, in which case the hard
   reset has cleared the bit the poll waits for.
   */
  lemma ArmedIff(start: seq<CoreState>, jobs: seq<Work>, k: nat, c: nat)
    requires k < |jobs| && c < |start|
    requires k == 0 ==> start[c].used || start[c].pending
    requires k > 0 ==>
               var w := jobs[k - 1];
               || (|w.reports| >= w.size && forall i | 0 <= i < |w.reports| :: w.reports[i].report == Finished)
               || (c < |w.resets| && w.resets[c])
    ensures var s := CoresAfter(start, jobs, k)[c];
            && (AtStart(s, jobs[k].Poll(c)).used <==> s.used || (c < |jobs[k].polls| && jobs[k].polls[c]))
            && (s.used || s.pending)
    ensures k > 0 ==>
              var w := jobs[k - 1];
              (|w.reports| < w.size || exists i :: 0 <= i < |w.reports| && w.reports[i].report != Finished) ==>
                CoresAfter(start, jobs, k)[c].used
  {}

  lemma AnyBadStep(rs: seq<Arrival>, k: nat)
    requires k < |rs|
    ensures AnyBad(rs[..k + 1]) <==> AnyBad(rs[..k]) || Bad(rs[k].report)
  {}
}
