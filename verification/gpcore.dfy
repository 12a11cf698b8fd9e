/**
 The geometry processor's interrupt handler and reset handshake (lima_gp.c), over one whole job:
 whatever it reports, and however often it runs out of heap and is resumed.
 */
module GpCore {
  import opened Wrappers

  /**
   LIMA_GP_INT_STAT and LIMA_GP_STATUS as the handler reads them: some error bit, no error bit but
   PLBU_OUT_OF_MEM, an end-of-list bit, VS or PLBU still active.
   */
  datatype Irq = Irq(errors: bool, onlyOom: bool, ended: bool, active: bool)

  /**
   What can happen to a job: an interrupt of the GP, a page fault or bus error of its MMU, the
   scheduler's timeout.  `grown` is whether the recovery the event may lead to succeeds.
   */
  datatype Event = GpIrq(irq: Irq, grown: bool) | MmuFault(grown: bool) | Timeout

  datatype Outcome = Running | Completed | Broken

  /** What a job comes to after some events: the first decisive one decides. */
  function Judge(evs: seq<Event>, heap: bool, n: nat): Outcome
    requires n <= |evs|
  {
    if n == 0 then Running
    else if Judge(evs, heap, n - 1) != Running then Judge(evs, heap, n - 1)
    else Verdict(evs[n - 1], heap)
  }

  /**
   An out-of-memory interrupt and an MMU fault are recovered from alike: if the task has a heap and the
   recovery succeeds, the job goes on.
   */
  function Verdict(ev: Event, heap: bool): Outcome {
    match ev
    case GpIrq(irq, grown) =>
      if irq.errors then if heap && irq.onlyOom && grown then Running else Broken
      else if irq.ended && !irq.active then Completed
      else Running
    case MmuFault(grown) => if heap && grown then Running else Broken
    case Timeout => Broken
  }

  lemma {:induction false} DecidedStays(evs: seq<Event>, heap: bool, k: nat, n: nat)
    requires k <= n <= |evs| && Judge(evs, heap, k) != Running
    ensures Judge(evs, heap, n) == Judge(evs, heap, k)
  {
    if k < n {
      DecidedStays(evs, heap, k, n - 1);
    }
  }

  /** The end interrupt of a job: end of list, no error, and both units idle. */
  predicate IsEnd(ev: Event) { ev.GpIrq? && !ev.irq.errors && ev.irq.ended && !ev.irq.active }

  /** What a job gets past: an interrupt that says nothing, and a stall its recovery gets it out of. */
  predicate IsPassed(ev: Event, heap: bool) {
    || (ev.GpIrq? && !ev.irq.errors && !(ev.irq.ended && !ev.irq.active))
    || (ev.GpIrq? && ev.irq.errors && ev.irq.onlyOom && heap && ev.grown)
    || (ev.MmuFault? && heap && ev.grown)
  }

  /**
   A job ends well exactly if an end interrupt comes, and before it only interrupts that say nothing, and
   out-of-memory interrupts and MMU faults that a task with a heap recovers from.  Anything else that
   comes first breaks it: a timeout, another error, a fault without a heap, a recovery that fails.
   */
  lemma {:induction false} CompletedIff(evs: seq<Event>, heap: bool, n: nat)
    requires n <= |evs|
    ensures Judge(evs, heap, n) == Completed <==>
              exists k :: 0 <= k < n && IsEnd(evs[k]) && forall j | 0 <= j < k :: IsPassed(evs[j], heap)
    ensures Judge(evs, heap, n) == Broken <==>
              exists k :: 0 <= k < n && !IsEnd(evs[k]) && !IsPassed(evs[k], heap) &&
                          forall j | 0 <= j < k :: IsPassed(evs[j], heap)
    ensures Judge(evs, heap, n) == Running <==> forall j | 0 <= j < n :: IsPassed(evs[j], heap)
  {
    if n > 0 {
      CompletedIff(evs, heap, n - 1);
    }
  }

  /** A timeout that comes before the end of the job breaks it. */
  lemma TimeoutBreaks(evs: seq<Event>, heap: bool, k: nat, n: nat)
    requires k < n <= |evs| && evs[k] == Timeout && forall j | 0 <= j < k :: !IsEnd(evs[j])
    ensures Judge(evs, heap, n) == Broken
  {
    CompletedIff(evs, heap, n);
  }

  class Core {
    var used: bool           // LIMA_GP_INT_MASK is LIMA_GP_IRQ_MASK_USED
    var asyncReset: bool
    var error: bool          // pipe->error
    var recoverable: bool    // the current task's flag

    predicate Rested()
      reads this
    {
      used || asyncReset
    }

    /** lima_gp_soft_reset_async */
    method SoftResetAsync()
      modifies `used, `asyncReset
      ensures asyncReset && used == (old(used) && old(asyncReset))
    {
      if asyncReset {
        return;
      }
      used := false;
      asyncReset := true;
    }

    /** lima_gp_soft_reset_async_wait: a reset that does not complete stays pending, interrupts masked. */
    method SoftResetWait(poll: bool) returns (err: Errno)
      modifies `used, `asyncReset
      ensures err == Ok <==> !old(asyncReset) || poll
      ensures asyncReset == (old(asyncReset) && !poll) && used == (old(used) || (old(asyncReset) && poll))
    {
      if !asyncReset {
        return Ok;
      }
      if !poll {
        return EIO;
      }
      used := true;
      asyncReset := false;
      err := Ok;
    }

    /** lima_gp_hard_reset */
    method HardReset(poll: bool)
      modifies `used
      ensures used == poll
    {
      used := false;
      if poll {
        used := true;
      }
    }

    /** lima_gp_hw_init */
    method HwInit(poll: bool) returns (err: Errno)
      modifies `used, `asyncReset
      ensures (err == Ok <==> poll) && used == poll && asyncReset == !poll
    {
      asyncReset := false;
      SoftResetAsync();
      err := SoftResetWait(poll);
    }

    /** lima_gp_irq_handler; None is an interrupt of another device.  True: lima_sched_pipe_task_done is called. */
    method IrqHandler(irq: Option<Irq>) returns (done: bool)
      modifies this
      ensures irq.None? ==> !done && used == old(used) && error == old(error) && recoverable == old(recoverable)
      ensures irq.Some? && irq.value.errors ==>
                done && error && !used && recoverable == (old(recoverable) && irq.value.onlyOom)
      ensures irq.Some? && !irq.value.errors ==>
                && !error && used == old(used) && recoverable == old(recoverable)
                && done == (irq.value.ended && !irq.value.active)
      ensures asyncReset == old(asyncReset)
    {
      if irq.None? {
        return false;
      }
      done := false;
      if irq.value.errors {
        if !irq.value.onlyOom {
          recoverable := false;
        }
        used := false;
        error := true;
        done := true;
      } else {
        done := irq.value.ended && !irq.value.active;
        error := false;
      }
    }

    /** The end of lima_gp_task_recover, or its early return when the heap cannot grow. */
    method Recover(grown: bool) returns (err: Errno)
      modifies `used
      ensures used == (old(used) || grown) && (err == Ok <==> grown)
    {
      if !grown {
        return ENOSPC;
      }
      used := true;
      err := Ok;
    }

    /** lima_sched_pipe_mmu_error on the GP pipe, and lima_gp_task_mmu_error. */
    method MmuError()
      modifies `error
      ensures error
    {
      error := true;
    }

    /** lima_sched_pipe_task_done and what it leads to: the recovery, or the timeout handler's hard reset. */
    method TaskDone(grown: bool, reset: bool) returns (o: Outcome)
      modifies `used, `asyncReset
      ensures !error ==> o == Completed && asyncReset && used == (old(used) && old(asyncReset))
      ensures error ==> asyncReset == old(asyncReset) && o == if recoverable && grown then Running else Broken
      ensures error && o == Running ==> used
      ensures error && o == Broken ==> used == reset
    {
      if !error {
        SoftResetAsync();          // lima_gp_task_fini
        return Completed;
      }
      if recoverable {
        var err := Recover(grown);
        if err == Ok {
          return Running;
        }
      }
      HardReset(reset);            // lima_gp_task_error
      o := Broken;
    }

    /** One event. */
    method Deliver(ev: Event, heap: bool, reset: bool) returns (o: Outcome)
      requires recoverable == heap
      modifies this
      ensures o == Verdict(ev, heap) && (o == Running ==> recoverable == heap)
      ensures o == Running ==> asyncReset == old(asyncReset) && (old(used) ==> used)
      ensures o == Completed ==> asyncReset
      ensures o == Broken ==> asyncReset == old(asyncReset) && used == reset
    {
      o := Running;
      match ev
      case GpIrq(irq, grown) =>
        var done := IrqHandler(Some(irq));
        if done {
          o := TaskDone(grown, reset);
        }
      case MmuFault(grown) =>
        MmuError();
        o := TaskDone(grown, reset);
      case Timeout =>
        HardReset(reset);
        o := Broken;
    }

    /**
     One job, whatever happens to it and whichever polls succeed.  It is started with its interrupts
     armed exactly if they were armed or a pending reset completes in time; a job started so is resumed
     so after every recovery.  It ends as its events say.  Afterwards the core has a reset pending, or
     its interrupts armed, unless the hard reset of a broken job is not answered.
     */
    method RunJob(heap: bool, evs: seq<Event>, poll: bool, reset: bool) returns (o: Outcome, armed: bool)
      modifies this
      ensures o == Judge(evs, heap, |evs|)
      ensures o == Completed <==>
                exists k :: 0 <= k < |evs| && IsEnd(evs[k]) && forall j | 0 <= j < k :: IsPassed(evs[j], heap)
      ensures armed == (old(used) || (old(asyncReset) && poll))
      ensures o == Running ==> asyncReset == (old(asyncReset) && !poll) && (armed ==> used)
      ensures o == Completed ==> Rested()
      ensures o == Broken ==> used == reset && asyncReset == (old(asyncReset) && !poll)
    {
      CompletedIff(evs, heap, |evs|);
      recoverable, error := heap, false;
      var err := SoftResetWait(poll);
      ghost var pending := asyncReset;
      armed := used;
      o := Running;
      var k := 0;
      while k < |evs| && o == Running
        invariant k <= |evs| && o == Judge(evs, heap, k)
        invariant o == Running ==> asyncReset == pending && (armed ==> used) && recoverable == heap
        invariant o == Completed ==> Rested()
        invariant o == Broken ==> used == reset && asyncReset == pending
      {
        o := Deliver(evs[k], heap, reset);
        k := k + 1;
      }
      if o != Running {
        DecidedStays(evs, heap, k, |evs|);
      }
    }

    /** Power-up or resume, and the first job: a core that came up starts it armed, without a poll. */
    method FirstJob(init: bool, heap: bool, evs: seq<Event>, poll: bool, reset: bool)
      returns (err: Errno, o: Outcome, armed: bool)
      modifies this
      ensures (err == Ok <==> init) && (err == Ok ==> armed && o == Judge(evs, heap, |evs|))
    {
      o, armed := Running, false;
      err := HwInit(init);
      if err == Ok {
        o, armed := RunJob(heap, evs, poll, reset);
      }
    }
  }
}
