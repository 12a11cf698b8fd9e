/**
 One scheduler pipe in place (lima_sched.c): the callbacks that change current_task, current_vm,
 the fences and the reference counts, and the bounded wait of lima_sched_pipe_fini.  The value
 functions of JobSystem are their specification.

 Outside decisions are parameters: whether an allocation succeeds, and what interrupts, timeouts
 and resubmissions arrive while the teardown sleeps.
 */
module SchedPipe {
  import opened Wrappers
  import opened Claims
  import opened JobSystem

  const FINI_TIMEOUT_MS := 2000   // LIMA_SCHED_PIPE_FINI_TIMEOUT_MS
  const FINI_POLL_MS := 10        // LIMA_SCHED_PIPE_FINI_POLL_MS
  const FINI_POLLS := FINI_TIMEOUT_MS / FINI_POLL_MS

  /** What lima_sched_pipe_task_done asks for. */
  datatype Outcome = Completed | RecoverLater | FaultNow

  /** What can happen to the pipe while another thread sleeps. */
  datatype Event =
    | Complete                         // task_done without error
    | Error                            // the interrupt handler sets pipe->error
    | Expire(mmus: seq<Mmu>)           // timedout_job; the MMU resume leaves these registers
    | Restart(i: nat, vm: VmId)        // run_job, for a resubmitted or another pending job

  /** Apply one event, if the scheduler and the hardware could deliver it in this state. */
  function After(hw: Hw, ev: Event): (r: Hw)
    requires |hw.pipes| == 1
    ensures |r.pipes| == 1
  {
    var pipe := hw.pipes[0];
    match ev
    case Complete => if InFlight(hw, 0) && !pipe.error then Signal(hw, 0, false, pipe, Less(hw.pm), hw.forced) else hw
    case Error => SetPipe(hw, 0, Pipe(pipe.task, pipe.vm, true, pipe.seqno, pipe.log, pipe.mmus, pipe.stopped))
    case Expire(mmus) => if InFlight(hw, 0) then Expired(hw, mmus) else hw
    case Restart(i, vm) => if InFlight(hw, 0) then hw else Started(hw, 0, i, vm)
  }

  function Less(n: nat): nat { if n > 0 then n - 1 else 0 }

  function Expired(hw: Hw, mmus: seq<Mmu>): (r: Hw)
    requires |hw.pipes| == 1
    ensures |r.pipes| == 1
  {
    var pipe := hw.pipes[0];
    Hw([Pipe(None, None, pipe.error, pipe.seqno, pipe.log, mmus, pipe.stopped)], hw.fences, Less(hw.pm), hw.forced)
  }

  /** The state after the first `n` events. */
  function AfterAll(hw: Hw, evs: seq<Event>, n: nat): (r: Hw)
    requires |hw.pipes| == 1 && n <= |evs|
    ensures |r.pipes| == 1
  {
    if n == 0 then hw else After(AfterAll(hw, evs, n - 1), evs[n - 1])
  }

  /** The state after the first `n` polls of a teardown, each with the events of its sleep. */
  function AfterPolls(hw: Hw, schedule: seq<seq<Event>>, n: nat): (r: Hw)
    requires |hw.pipes| == 1 && n <= |schedule|
    ensures |r.pipes| == 1
  {
    if n == 0 then hw else AfterAll(AfterPolls(hw, schedule, n - 1), schedule[n - 1], |schedule[n - 1]|)
  }

  predicate IsRestart(ev: Event) { ev.Restart? }

  predicate AnyRestart(evs: seq<Event>, n: nat)
    requires n <= |evs|
  {
    exists e | 0 <= e < n :: IsRestart(evs[e])
  }

  /** The e-th event starts a job; the e-th event is a timeout of the job in flight. */
  predicate Starts(hw: Hw, evs: seq<Event>, e: nat)
    requires |hw.pipes| == 1 && e < |evs|
  {
    evs[e].Restart? && !InFlight(AfterAll(hw, evs, e), 0)
  }

  predicate Expires(hw: Hw, evs: seq<Event>, e: nat)
    requires |hw.pipes| == 1 && e < |evs|
  {
    evs[e].Expire? && InFlight(AfterAll(hw, evs, e), 0)
  }

  predicate NoneExpires(hw: Hw, evs: seq<Event>, from: nat, n: nat)
    requires |hw.pipes| == 1 && n <= |evs|
  {
    forall f | from <= f < n :: !Expires(hw, evs, f)
  }

  /** Some of the first `n` events starts a job, and none after it is a timeout of the job in flight. */
  predicate StartsForGood(hw: Hw, evs: seq<Event>, n: nat)
    requires |hw.pipes| == 1 && n <= |evs|
  {
    exists e | 0 <= e < n :: Starts(hw, evs, e) && NoneExpires(hw, evs, e + 1, n)
  }

  /** The e-th event ends the job in flight: it completes without an error, or times out. */
  predicate Ends(hw: Hw, evs: seq<Event>, e: nat)
    requires |hw.pipes| == 1 && e < |evs|
  {
    var now := AfterAll(hw, evs, e);
    InFlight(now, 0) && (evs[e].Expire? || (evs[e].Complete? && !now.pipes[0].error))
  }

  predicate NoneEnds(hw: Hw, evs: seq<Event>, from: nat, n: nat)
    requires |hw.pipes| == 1 && n <= |evs|
  {
    forall f | from <= f < n :: !Ends(hw, evs, f)
  }

  predicate NoneStarts(hw: Hw, evs: seq<Event>, from: nat, n: nat)
    requires |hw.pipes| == 1 && n <= |evs|
  {
    forall f | from <= f < n :: !Starts(hw, evs, f)
  }

  predicate IsError(ev: Event) { ev.Error? }

  /** pipe_task_in_flight */
  predicate Pending(hw: Hw, fakeWedge: bool)
    requires |hw.pipes| == 1
  {
    var pipe := hw.pipes[0];
    pipe.task.Some? && pipe.task.value in hw.fences && (fakeWedge || !hw.fences[pipe.task.value].signaled)
  }

  function RefsOf(refs: map<VmId, nat>, v: VmId): nat { if v in refs then refs[v] else 0 }

  /** Every counter is what the others hold (`base`), plus one for the address space the pipe names. */
  ghost predicate RefsMatch(refs: map<VmId, nat>, base: map<VmId, nat>, vm: Option<VmId>) {
    && (forall v | v in refs :: refs[v] > 0)
    && forall v: VmId {:trigger RefsOf(refs, v)} :: RefsOf(refs, v) == RefsOf(base, v) + Bit(vm == Some(v))
  }

  /** lima_vm_put, NULL included; the counter disappears with the address space. */
  function PutRef(refs: map<VmId, nat>, vm: Option<VmId>): map<VmId, nat>
    requires vm.Some? ==> vm.value in refs
  {
    match vm
    case None => refs
    case Some(v) => if refs[v] > 1 then refs[v := refs[v] - 1] else refs - {v}
  }

  lemma PutMatches(refs: map<VmId, nat>, base: map<VmId, nat>, vm: Option<VmId>)
    requires RefsMatch(refs, base, vm)
    ensures vm.Some? ==> vm.value in refs
    ensures RefsMatch(PutRef(refs, vm), base, None)
  {
    if vm.Some? {
      assert RefsOf(refs, vm.value) > 0;
      forall v: VmId ensures RefsOf(PutRef(refs, vm), v) == RefsOf(base, v) {
        assert RefsOf(refs, v) == RefsOf(base, v) + Bit(vm == Some(v));
      }
    }
  }

  lemma GetMatches(refs: map<VmId, nat>, base: map<VmId, nat>, v: VmId)
    requires RefsMatch(refs, base, None) && RefsOf(base, v) > 0
    ensures v in refs && RefsMatch(refs[v := refs[v] + 1], base, Some(v))
  {
    assert RefsOf(refs, v) > 0;
    forall w: VmId ensures RefsOf(refs[v := refs[v] + 1], w) == RefsOf(base, w) + Bit(v == w) {
      assert RefsOf(refs, w) == RefsOf(base, w);
    }
  }

  /** Jobs started by an event hold a reference on their address space. */
  predicate Backed(evs: seq<Event>, base: map<VmId, nat>) {
    forall e | 0 <= e < |evs| && evs[e].Restart? :: RefsOf(base, evs[e].vm) > 0
  }

  /** A run given up before the hardware was touched: a fence number may have been used. */
  function Fenced(hw: Hw, fenced: bool): Hw
    requires |hw.pipes| == 1
  {
    var pipe := hw.pipes[0];
    var seqno := if fenced then pipe.seqno + 1 else pipe.seqno;
    SetPipe(hw, 0, Pipe(pipe.task, pipe.vm, pipe.error, seqno, pipe.log, pipe.mmus, pipe.stopped))
  }

  class LimaPipe {
    var task: Option<nat>
    var vm: Option<VmId>
    var error: bool
    var seqno: nat
    var mmus: seq<Mmu>
    var stopped: bool
    var fences: map<nat, Fence>          // the latest fence of each task that has run
    var pm: nat                          // runtime-PM use count
    var vmRefs: map<VmId, nat>           // the refcounts of the address spaces
    const bcast: bool                    // pipe->bcast_mmu is set
    ghost var log: seq<nat>
    ghost var forced: nat
    ghost var base: map<VmId, nat>       // the references the pipe does not hold

    ghost function Abs(): (hw: Hw)
      reads this
      ensures |hw.pipes| == 1
    {
      Hw([Pipe(task, vm, error, seqno, log, mmus, stopped)], fences, pm, forced)
    }

    ghost predicate Valid()
      reads this
    {
      && (task.None? <==> vm.None?) && (task.Some? ==> task.value in fences)
      && RefsMatch(vmRefs, base, vm)
    }

    /** Drops the pipe's own reference. */
    method PutCurrent()
      requires RefsMatch(vmRefs, base, vm)
      modifies `vmRefs, `vm
      ensures vm == None && RefsMatch(vmRefs, base, None)
    {
      PutMatches(vmRefs, base, vm);
      if vm.Some? {
        if vmRefs[vm.value] > 1 {
          vmRefs := vmRefs[vm.value := vmRefs[vm.value] - 1];
        } else {
          vmRefs := vmRefs - {vm.value};
        }
      }
      vm := None;
    }

    /** lima_mmu_switch_vm on each MMU of the pipe, or on the broadcast unit that reaches them all. */
    method SwitchMmus(v: VmId)
      modifies `mmus
      ensures mmus == Zapped(old(mmus), Some(v))
    {
      if bcast {
        mmus := seq(|mmus|, _ => Mmu(Some(v), map[]));
      } else {
        var k := 0;
        while k < |mmus|
          invariant |mmus| == |old(mmus)| && k <= |mmus|
          invariant forall j | 0 <= j < k :: mmus[j] == Mmu(Some(v), map[])
        {
          mmus := mmus[k := Mmu(Some(v), map[])];
          k := k + 1;
        }
      }
    }

    /** lima_sched_run_job */
    method RunJob(i: nat, v: VmId, finishedError: bool, fenceOk: bool, pmOk: bool) returns (started: bool)
      requires Valid() && !InFlight(Abs(), 0) && !stopped && RefsOf(base, v) > 0
      modifies this
      ensures Valid() && base == old(base) && !stopped
      ensures started <==> !finishedError && fenceOk && pmOk
      ensures Abs() == if started then Started(old(Abs()), 0, i, v) else Fenced(old(Abs()), !finishedError && fenceOk)
      ensures started ==> task == Some(i) && vm == Some(v) && !error && seqno == old(seqno) + 1 && pm == old(pm) + 1
      ensures started ==> fences == old(fences)[i := Fence(0, seqno, false, false)] && log == old(log)
      ensures started ==> |mmus| == |old(mmus)| && forall j | 0 <= j < |mmus| :: mmus[j] == Mmu(Some(v), map[])
      ensures !started ==> task == old(task) && vm == old(vm) && error == old(error) && mmus == old(mmus)
      ensures !started ==> fences == old(fences) && pm == old(pm) && log == old(log)
      ensures !started ==> seqno == old(seqno) + Bit(!finishedError && fenceOk)
    {
      if finishedError {
        return false;
      }
      if !fenceOk {
        return false;
      }
      seqno := seqno + 1;
      if !pmOk {
        return false;
      }
      Launch(i, v);
      started := true;
    }

    /** What follows lima_pm_busy. */
    method Launch(i: nat, v: VmId)
      requires RefsMatch(vmRefs, base, vm) && RefsOf(base, v) > 0
      modifies `pm, `fences, `task, `vm, `vmRefs, `mmus, `error
      ensures task == Some(i) && vm == Some(v) && !error && pm == old(pm) + 1 && RefsMatch(vmRefs, base, vm)
      ensures fences == old(fences)[i := Fence(0, seqno, false, false)] && mmus == Zapped(old(mmus), Some(v))
    {
      Enlist(i);
      MoveTo(v);
      SwitchMmus(v);
      error := false;
    }

    /** lima_pm_busy has succeeded: the task and its fence. */
    method Enlist(i: nat)
      modifies `pm, `fences, `task
      ensures pm == old(pm) + 1 && task == Some(i) && fences == old(fences)[i := Fence(0, seqno, false, false)]
    {
      pm := pm + 1;
      fences := fences[i := Fence(0, seqno, false, false)];
      task := Some(i);
    }

    /** `lima_vm_put(pipe->current_vm); pipe->current_vm = lima_vm_get(task->vm)` */
    method MoveTo(v: VmId)
      requires RefsMatch(vmRefs, base, vm) && RefsOf(base, v) > 0
      modifies `vmRefs, `vm
      ensures vm == Some(v) && RefsMatch(vmRefs, base, vm)
    {
      PutCurrent();
      GetMatches(vmRefs, base, v);
      vmRefs := vmRefs[v := vmRefs[v] + 1];
      vm := Some(v);
    }

    /** lima_sched_pipe_task_done.  `recoverable` is the task's flag. */
    method TaskDone(recoverable: bool) returns (r: Outcome)
      requires Valid() && InFlight(Abs(), 0)
      modifies this
      ensures Valid() && base == old(base) && stopped == old(stopped)
      ensures r == Completed <==> !old(error)
      ensures old(error) ==> Abs() == old(Abs()) && r == if recoverable then RecoverLater else FaultNow
      ensures !old(error) ==> Abs() == Signal(old(Abs()), 0, false, old(Abs()).pipes[0], Less(old(pm)), old(forced))
      ensures task == old(task) && vm == old(vm) && error == old(error) && mmus == old(mmus) && seqno == old(seqno)
      ensures !old(error) ==>
                var f := old(fences)[task.value];
                && fences == old(fences)[task.value := Fence(f.pipe, f.ordinal, true, f.error)]
                && log == old(log) + [f.ordinal] && pm == (if old(pm) > 0 then old(pm) - 1 else 0)
    {
      if error {
        return if recoverable then RecoverLater else FaultNow;
      }
      var f := fences[task.value];
      fences := fences[task.value := Fence(f.pipe, f.ordinal, true, f.error)];
      log := log + [f.ordinal];
      pm := if pm > 0 then pm - 1 else 0;
      return Completed;
    }

    /** lima_sched_timedout_job up to the resubmission, which calls RunJob again. */
    method TimedOut(resumed: seq<Mmu>)
      requires Valid() && InFlight(Abs(), 0)
      modifies this
      ensures Valid() && base == old(base) && stopped == old(stopped) && Abs() == Expired(old(Abs()), resumed)
      ensures task == None && vm == None && fences == old(fences) && log == old(log) && error == old(error)
      ensures seqno == old(seqno)
      ensures mmus == resumed && pm == if old(pm) > 0 then old(pm) - 1 else 0
    {
      mmus := resumed;
      PutCurrent();
      task := None;
      pm := if pm > 0 then pm - 1 else 0;
    }

    /** One thing happening during a sleep. */
    method Deliver(ev: Event)
      requires Valid() && !stopped && (ev.Restart? ==> RefsOf(base, ev.vm) > 0)
      modifies this
      ensures Valid() && !stopped && base == old(base) && Abs() == After(old(Abs()), ev)
    {
      var inFlight := task.Some? && !fences[task.value].signaled;
      match ev
      case Complete =>
        if inFlight && !error {
          var done := TaskDone(true);
        }
      case Error => error := true;
      case Expire(mmus) =>
        if inFlight {
          TimedOut(mmus);
        }
      case Restart(i, v) =>
        if !inFlight {
          var started := RunJob(i, v, false, true, true);
        }
    }

    /** msleep: any number of events. */
    method Sleep(evs: seq<Event>)
      requires Valid() && !stopped && Backed(evs, base)
      modifies this
      ensures Valid() && !stopped && base == old(base) && Abs() == AfterAll(old(Abs()), evs, |evs|)
    {
      ghost var start, owners := Abs(), base;
      var k := 0;
      while k < |evs|
        invariant k <= |evs| && Valid() && !stopped && base == owners
        invariant Abs() == AfterAll(start, evs, k)
      {
        Deliver(evs[k]);
        k := k + 1;
      }
    }

    /** The wait loop of lima_sched_pipe_fini: it sleeps while a task is in flight, at most 200 times. */
    method WaitIdle(schedule: seq<seq<Event>>, fakeWedge: bool) returns (polls: nat)
      requires Valid() && !stopped && |schedule| >= FINI_POLLS
      requires forall k | 0 <= k < |schedule| :: Backed(schedule[k], base)
      modifies this
      ensures polls <= FINI_POLLS && Valid() && !stopped && base == old(base)
      ensures Abs() == AfterPolls(old(Abs()), schedule, polls)
      ensures (polls < FINI_POLLS ==> !Pending(Abs(), fakeWedge))
      ensures forall k | 0 <= k < polls :: Pending(AfterPolls(old(Abs()), schedule, k), fakeWedge)
    {
      ghost var start, owners := Abs(), base;
      var waited := 0;
      polls := 0;
      while task.Some? && (fakeWedge || !fences[task.value].signaled) && waited < FINI_TIMEOUT_MS
        invariant waited == polls * FINI_POLL_MS && polls <= FINI_POLLS
        invariant Valid() && !stopped && base == owners
        invariant Abs() == AfterPolls(start, schedule, polls)
        invariant forall k | 0 <= k < polls :: Pending(AfterPolls(start, schedule, k), fakeWedge)
        decreases FINI_TIMEOUT_MS - waited
      {
        ghost var now := AfterPolls(start, schedule, polls);
        assert Pending(now, fakeWedge);
        Sleep(schedule[polls]);
        assert Abs() == AfterAll(now, schedule[polls], |schedule[polls]|);
        waited := waited + FINI_POLL_MS;
        polls := polls + 1;
      }
    }

    /** What follows the loop: a task still in flight is failed, a finished one just forgotten. */
    method Finish(fakeWedge: bool) returns (reset: bool)
      requires Valid() && !stopped
      modifies this
      ensures reset == Pending(old(Abs()), fakeWedge) && Abs() == Stopped(old(Abs()), 0, fakeWedge)
      ensures task == None && vm == None && base == old(base) && Valid() && !stopped
    {
      reset := task.Some? && (fakeWedge || !fences[task.value].signaled);
      if reset {
        FailTask();
        Forget();
      } else if task.Some? {
        Forget();
      }
    }

    /** The reset, and the fence signalled with an error. */
    method FailTask()
      requires task.Some? && task.value in fences
      modifies `error, `forced, `log, `fences
      ensures error && forced == old(forced) + Bit(!old(fences)[task.value].signaled)
      ensures var f := old(fences)[task.value];
              && log == (if f.signaled then old(log) else old(log) + [f.ordinal])
              && fences == old(fences)[task.value := Fence(f.pipe, f.ordinal, true, true)]
    {
      error := true;
      var f := fences[task.value];
      forced := if f.signaled then forced else forced + 1;
      log := if f.signaled then log else log + [f.ordinal];
      fences := fences[task.value := Fence(f.pipe, f.ordinal, true, true)];
    }

    /** The reference is dropped and the task forgotten. */
    method Forget()
      requires RefsMatch(vmRefs, base, vm)
      modifies `vmRefs, `vm, `task
      ensures task == None && vm == None && RefsMatch(vmRefs, base, None)
    {
      PutCurrent();
      task := None;
    }

    /** drm_sched_stop: the scheduler starts no further job. */
    method Park()
      modifies `stopped
      ensures stopped && Abs() == Parked(old(Abs()), 0)
    {
      stopped := true;
    }

    /**
     lima_sched_pipe_fini.  `schedule` says what happens during each sleep, and `late` what happens
     between the end of the wait and drm_sched_stop.  The wait ends after at most 200 polls; the task is
     failed, and the hardware reset, only if it is still in flight after all of them; and the pipe's
     reference is dropped exactly once.  The pipe ends with a task and an address space if and only if a
     job is started late that does not time out before drm_sched_stop; without late timeouts, if any is.
     */
    method PipeFini(schedule: seq<seq<Event>>, late: seq<Event>, fakeWedge: bool) returns (polls: nat, reset: bool)
      requires Valid() && !stopped && |schedule| >= FINI_POLLS && Backed(late, base)
      requires forall k | 0 <= k < |schedule| :: Backed(schedule[k], base)
      modifies this
      ensures polls <= 200 && stopped
      ensures forall k | 0 <= k < polls :: Pending(AfterPolls(old(Abs()), schedule, k), fakeWedge)
      ensures polls < 200 ==> !reset
      ensures reset == Pending(AfterPolls(old(Abs()), schedule, polls), fakeWedge)
      ensures Abs() == Parked(AfterAll(Stopped(AfterPolls(old(Abs()), schedule, polls), 0, fakeWedge), late, |late|), 0)
      ensures RefsMatch(vmRefs, old(base), vm) && (task.None? <==> vm.None?)
      ensures task.Some? <==>
                StartsForGood(Stopped(AfterPolls(old(Abs()), schedule, polls), 0, fakeWedge), late, |late|)
      ensures (forall e | 0 <= e < |late| :: !late[e].Expire?) ==> (task.None? <==> !AnyRestart(late, |late|))
    {
      polls := WaitIdle(schedule, fakeWedge);
      reset := Finish(fakeWedge);
      LateTask(Abs(), late, |late|);
      Sleep(late);
      Park();
    }
  }

  /** A job started on a pipe without a task stays recorded until it times out, and only such a job is. */
  lemma {:induction false} LateTask(hw: Hw, evs: seq<Event>, n: nat)
    requires |hw.pipes| == 1 && hw.pipes[0].task == None && n <= |evs|
    ensures AfterAll(hw, evs, n).pipes[0].task.Some? <==> StartsForGood(hw, evs, n)
    ensures (forall e | 0 <= e < |evs| :: !evs[e].Expire?) ==>
              (AfterAll(hw, evs, n).pipes[0].task.None? <==> !AnyRestart(evs, n))
  {
    if n > 0 {
      LateTask(hw, evs, n - 1);
      LateStep(hw, evs, n);
      assert AnyRestart(evs, n) <==> AnyRestart(evs, n - 1) || IsRestart(evs[n - 1]);
    }
  }

  /** Some event has started a job that none after it has ended. */
  predicate FliesSince(hw: Hw, evs: seq<Event>, n: nat)
    requires |hw.pipes| == 1 && n <= |evs|
  {
    exists e :: 0 <= e < n && Starts(hw, evs, e) && NoneEnds(hw, evs, e + 1, n)
  }

  /** Some event has been an error, and none after it has started a job. */
  predicate ErrorSince(hw: Hw, evs: seq<Event>, n: nat)
    requires |hw.pipes| == 1 && n <= |evs|
  {
    exists e :: 0 <= e < n && IsError(evs[e]) && NoneStarts(hw, evs, e + 1, n)
  }

  /** One event more, as the two conditions have it. */
  lemma FlightStep(hw: Hw, evs: seq<Event>, n: nat)
    requires |hw.pipes| == 1 && n < |evs|
    ensures NoneEnds(hw, evs, 0, n + 1) <==> NoneEnds(hw, evs, 0, n) && !Ends(hw, evs, n)
    ensures FliesSince(hw, evs, n + 1) <==> Starts(hw, evs, n) || (FliesSince(hw, evs, n) && !Ends(hw, evs, n))
  {
    if Starts(hw, evs, n) {
      assert NoneEnds(hw, evs, n + 1, n + 1);
    } else if FliesSince(hw, evs, n) && !Ends(hw, evs, n) {
      var e :| 0 <= e < n && Starts(hw, evs, e) && NoneEnds(hw, evs, e + 1, n);
      assert NoneEnds(hw, evs, e + 1, n + 1);
    }
  }

  lemma ErrorStep(hw: Hw, evs: seq<Event>, n: nat)
    requires |hw.pipes| == 1 && n < |evs|
    ensures NoneStarts(hw, evs, 0, n + 1) <==> NoneStarts(hw, evs, 0, n) && !Starts(hw, evs, n)
    ensures ErrorSince(hw, evs, n + 1) <==> IsError(evs[n]) || (ErrorSince(hw, evs, n) && !Starts(hw, evs, n))
  {
    if IsError(evs[n]) {
      assert NoneStarts(hw, evs, n + 1, n + 1);
    } else if ErrorSince(hw, evs, n) && !Starts(hw, evs, n) {
      var e :| 0 <= e < n && IsError(evs[e]) && NoneStarts(hw, evs, e + 1, n);
      assert NoneStarts(hw, evs, e + 1, n + 1);
    }
  }

  /** A pipe has a job in flight exactly if one was, or has been, started that no event has ended since. */
  lemma {:induction false} FlightMeans(hw: Hw, evs: seq<Event>, n: nat)
    requires |hw.pipes| == 1 && n <= |evs|
    ensures InFlight(AfterAll(hw, evs, n), 0) <==>
              (InFlight(hw, 0) && NoneEnds(hw, evs, 0, n)) || FliesSince(hw, evs, n)
  {
    if n > 0 {
      FlightMeans(hw, evs, n - 1);
      FlightStep(hw, evs, n - 1);
    }
  }

  lemma {:induction false} ErrorMeans(hw: Hw, evs: seq<Event>, n: nat)
    requires |hw.pipes| == 1 && n <= |evs|
    ensures AfterAll(hw, evs, n).pipes[0].error <==>
              (hw.pipes[0].error && NoneStarts(hw, evs, 0, n)) || ErrorSince(hw, evs, n)
  {
    if n > 0 {
      ErrorMeans(hw, evs, n - 1);
      ErrorStep(hw, evs, n - 1);
    }
  }

  /**
   What events do to a pipe.  It has a job in flight exactly if one was, or has been, started that has
   not completed without an error or timed out since; and pipe->error is set exactly if it was set, or
   an interrupt has set it, and no job has been started since.
   */
  lemma EventsMean(hw: Hw, evs: seq<Event>, n: nat)
    requires |hw.pipes| == 1 && n <= |evs|
    ensures InFlight(AfterAll(hw, evs, n), 0) <==>
              || (InFlight(hw, 0) && NoneEnds(hw, evs, 0, n))
              || exists e :: 0 <= e < n && Starts(hw, evs, e) && NoneEnds(hw, evs, e + 1, n)
    ensures AfterAll(hw, evs, n).pipes[0].error <==>
              || (hw.pipes[0].error && NoneStarts(hw, evs, 0, n))
              || exists e :: 0 <= e < n && IsError(evs[e]) && NoneStarts(hw, evs, e + 1, n)
  {
    FlightMeans(hw, evs, n);
    ErrorMeans(hw, evs, n);
  }

  lemma LateStep(hw: Hw, evs: seq<Event>, n: nat)
    requires |hw.pipes| == 1 && 0 < n <= |evs|
    ensures StartsForGood(hw, evs, n) <==>
              Starts(hw, evs, n - 1) || (StartsForGood(hw, evs, n - 1) && !Expires(hw, evs, n - 1))
  {
    if Starts(hw, evs, n - 1) {
      assert NoneExpires(hw, evs, n - 1 + 1, n);
    }
    if StartsForGood(hw, evs, n - 1) && !Expires(hw, evs, n - 1) {
      var e :| 0 <= e < n - 1 && Starts(hw, evs, e) && NoneExpires(hw, evs, e + 1, n - 1);
      assert NoneExpires(hw, evs, e + 1, n);
    }
    if StartsForGood(hw, evs, n) && !Starts(hw, evs, n - 1) {
      var e :| 0 <= e < n && Starts(hw, evs, e) && NoneExpires(hw, evs, e + 1, n);
      assert NoneExpires(hw, evs, e + 1, n - 1);
    }
  }

  /**
   What a teardown does to fences: the in-flight task's is signalled with an error; every other
   fence, and with fake_wedge off every signalled one, is left alone.
   */
  lemma StopFailsOnlyPending(hw: Hw, fakeWedge: bool, t: nat)
    requires |hw.pipes| == 1 && t in hw.fences
    ensures t in Stopped(hw, 0, fakeWedge).fences
    ensures Stopped(hw, 0, fakeWedge).fences[t] ==
            if hw.pipes[0].task == Some(t) && Pending(hw, fakeWedge)
            then Fence(hw.fences[t].pipe, hw.fences[t].ordinal, true, true) else hw.fences[t]
    ensures !fakeWedge && hw.fences[t].signaled ==> Stopped(hw, 0, fakeWedge).fences[t] == hw.fences[t]
    ensures !fakeWedge && !InFlight(hw, 0) ==> Stopped(hw, 0, fakeWedge).pipes[0].error == hw.pipes[0].error
    ensures Stopped(hw, 0, fakeWedge).pm == hw.pm
  {}

  /** A pipe that comes to rest stays so unless another job is started on it. */
  lemma {:induction false} QuietStaysQuiet(hw: Hw, evs: seq<Event>, n: nat)
    requires |hw.pipes| == 1 && !InFlight(hw, 0) && n <= |evs| && forall e | 0 <= e < |evs| :: !evs[e].Restart?
    ensures !InFlight(AfterAll(hw, evs, n), 0) && AfterAll(hw, evs, n).fences == hw.fences
  {
    if n > 0 {
      QuietStaysQuiet(hw, evs, n - 1);
    }
  }
}
