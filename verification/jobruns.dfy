/**
 Every step of the device keeps the invariant, so it holds in every state of every run; and what
 that means for the GPU.
 */
module JobRuns {
  import opened Wrappers
  import opened Geometry
  import opened VmSpec
  import opened Claims
  import opened JobSystem
  import opened JobSafety
  import opened PipeSafety

  /** The invariant holds afterwards, and the running jobs have been spared. */
  ghost predicate Good(s: State, s': State) { Inv(s') && Spares(s.mem, s'.mem, s.hw) }

  /**
   The step follows no dangling pointer exactly outside the cases listed in `Avoids`, and then the
   invariant holds after it, and the jobs on the hardware keep all they have mapped.
   */
  ghost predicate Safe(s: State, st: Step) {
    Inv(s) && Enabled(s, st) ==> (Defined(s, st) <==> Avoids(s, st)) && (Defined(s, st) ==> Good(s, Next(s, st)))
  }

  /** The step changes the memory side only: to `m'`. */
  ghost predicate Leads(s: State, st: Step, m': Mem) {
    Inv(s) && Enabled(s, st) ==>
      (Defined(s, st) <==> Avoids(s, st)) && (Defined(s, st) ==> NextHw(s, st) == s.hw && NextMem(s, st) == m')
  }

  /** For a step that leaves the hardware side alone. */
  lemma MemStep(s: State, st: Step, m': Mem)
    requires Leads(s, st, m') && MemInv(m', s.hw.pipes)
    requires Spares(s.mem, m', s.hw) && RecordsFit(m'.holders, s.hw.fences, m'.work)
    ensures Safe(s, st)
  {
    if Inv(s) { HwUntouched(s.mem, m', s.hw); }
  }

  /** Giving one range and one reference back, by closing a handle or unwinding a submission. */
  lemma DropInv(m: Mem, hw: Hw, i: nat, v: VmId, b: BoId, h: Holder)
    requires Inv(State(m, hw)) && i < |m.holders| && (m.holders[i].Handle? || m.holders[i].Submitting?)
    requires HolderFits(m.holders[i := h], i) && (h.Gone? || h.Submitting?)
    requires forall c :: Weight(m.holders[i], c) == Weight(h, c) + Bit(c == OnVa(v, b)) + Bit(c == OnBo(b))
    ensures LiveVa(m, v, b) && m.Vas(v)[b].refs > 0
    ensures Good(State(m, hw), State(PutBos(DropVa(Swap(m, i, h), v, b), [b]), hw))
  {
    DropKeeps(m, hw.pipes, i, v, b, h);
    var m' := PutBos(DropVa(Swap(m, i, h), v, b), [b]);
    assert Weight(m.holders[i], OnVa(v, b)) > 0;
    DroppedHw(m, m', hw, i, v, b, h);
  }

  lemma AddInv(m: Mem, hw: Hw, i: nat, v: VmId, b: BoId, h: Holder)
    requires Inv(State(m, hw)) && i < |m.holders| && m.holders[i].Submitting? && m.holders[i].vm == v
    requires h == Submitting(v, m.holders[i].bos + [b]) && LiveVa(m, v, b)
    ensures Good(State(m, hw), State(Swap(GetBos(RefVa(m, v, b), [b]), i, h), hw))
  {
    AddToSubmitKeeps(m, hw.pipes, i, v, b, h);
    var m' := Swap(GetBos(RefVa(m, v, b), [b]), i, h);
    MappedSpares(m, m', hw, v, b, 0);
    SwappedRecords(m.holders, i, h, hw.fences, m.work);
    HwUntouched(m, m', hw);
  }

  lemma FreeOneInv(m: Mem, hw: Hw, i: nat, v: VmId, b: BoId, h: Holder)
    requires Inv(State(m, hw)) && i < |m.holders| && m.holders[i].Freeing? && m.holders[i].vm == v
    requires m.holders[i].bos != [] && b == m.holders[i].bos[0]
    requires h == Freeing(v, m.holders[i].bos[1..], m.holders[i].objs)
    ensures LiveVa(m, v, b) && Good(State(m, hw), State(DropVa(Swap(m, i, h), v, b), hw))
  {
    FreeOneKeeps(m, hw.pipes, i, v, b, h);
    TimesTail(m.holders[i].bos, b);
    DroppedHw(m, DropVa(Swap(m, i, h), v, b), hw, i, v, b, h);
  }

  lemma DroppedHw(m: Mem, m': Mem, hw: Hw, i: nat, v: VmId, b: BoId, h: Holder)
    requires Inv(State(m, hw)) && i < |m.holders| && !m.holders[i].Job? && Weight(m.holders[i], OnVa(v, b)) > 0
    requires LiveVa(m, v, b) && m'.vms == DropVa(m, v, b).vms && m'.holders == m.holders[i := h] && m'.work == m.work
    requires h.Freeing? || h.Gone? || !(m.holders[i].Job? || m.holders[i].Freeing? || m.holders[i].Gone?)
    ensures HwInv(m', hw) && Spares(m, m', hw)
  {
    DropSparesAll(m, m', hw, i, v, b);
    SwappedRecords(m.holders, i, h, hw.fences, m.work);
    HwUntouched(m, m', hw);
  }

  // ----- files and buffers

  lemma OpenFileSafe(s: State, v: VmId, reserved: Table)
    ensures Safe(s, OpenFile(v, reserved))
  {
    if Inv(s) && Enabled(s, OpenFile(v, reserved)) {
      var m, st := s.mem, OpenFile(v, reserved);
      OpenFileKeeps(m, s.hw.pipes, v, reserved);
      var m' := Hold(WithVm(m, v, NewVm(reserved)), File(v));
      QuietSpares(m, m', s.hw);
      PushedRecords(m.holders, File(v), s.hw.fences, m.work);
      MemStep(s, st, m');
    }
  }

  lemma CloseFileSafe(s: State, i: nat)
    ensures Safe(s, CloseFile(i))
  {
    if Inv(s) && Enabled(s, CloseFile(i)) {
      var m, st := s.mem, CloseFile(i);
      CloseFileKeeps(m, s.hw.pipes, i);
      var m' := PutVm(Swap(m, i, Gone), m.holders[i].vm);
      PutVmSparesAll(m, m', s.hw, i, m.holders[i].vm);
      SwappedRecords(m.holders, i, Gone, s.hw.fences, m.work);
      MemStep(s, st, m');
    }
  }

  lemma CreateBoSafe(s: State, b: BoId, bo: Bo)
    ensures Safe(s, CreateBo(b, bo))
  {
    if Inv(s) && Enabled(s, CreateBo(b, bo)) {
      var m, st := s.mem, CreateBo(b, bo);
      CreateBoKeeps(m, s.hw.pipes, b, bo);
      var m' := Hold(WithBo(m, b, bo), Creating(b));
      QuietSpares(m, m', s.hw);
      PushedRecords(m.holders, Creating(b), s.hw.fences, m.work);
      MemStep(s, st, m');
    }
  }

  lemma DropCreatedSafe(s: State, i: nat)
    ensures Safe(s, DropCreated(i))
  {
    if Inv(s) && Enabled(s, DropCreated(i)) {
      var m, st := s.mem, DropCreated(i);
      DropRefKeeps(m, s.hw.pipes, i, m.holders[i].bo);
      var m' := PutBos(Swap(m, i, Gone), [m.holders[i].bo]);
      QuietSpares(m, m', s.hw);
      SwappedRecords(m.holders, i, Gone, s.hw.fences, m.work);
      MemStep(s, st, m');
    }
  }

  lemma OpenHandleSafe(s: State, v: VmId, b: BoId, start: nat)
    ensures Safe(s, OpenHandle(v, b, start))
  {
    if Inv(s) && Enabled(s, OpenHandle(v, b, start)) {
      var m, st := s.mem, OpenHandle(v, b, start);
      OpenFileVm(m, s.hw.pipes, v);
      if CanMap(m, v, b) {
        OpenHandleKeeps(m, s.hw.pipes, v, b, start);
        var m' := Hold(GetBos(Mapped(m, v, b, start), [b]), Handle(v, b));
        MappedSpares(m, m', s.hw, v, b, start);
        PushedRecords(m.holders, Handle(v, b), s.hw.fences, m.work);
        MemStep(s, st, m');
      }
    }
  }

  lemma FailedOpenSafe(s: State, v: VmId, b: BoId, start: nat, done: nat, slots: set<nat>)
    ensures Safe(s, FailedOpen(v, b, start, done, slots))
  {
    if Inv(s) && Enabled(s, FailedOpen(v, b, start, done, slots)) {
      var m, st := s.mem, FailedOpen(v, b, start, done, slots);
      OpenFileVm(m, s.hw.pipes, v);
      FailedOpenKeeps(m, s.hw.pipes, v, b, start, done, slots);
      var m' := WithVm(m, v, Undone(m.vms[v], start, done, slots));
      KeptSpares(m, m', s.hw);
      if CanMap(m, v, b) { MemStep(s, st, m'); }
    }
  }

  lemma TakeRefInv(s: State, st: Step, b: BoId, h: Holder)
    requires Inv(s) && b in s.mem.bos && (h.Mapping? || (h.Opening? && FileOpen(s.mem.holders, h.vm))) && h.bo == b
    requires Leads(s, st, Hold(GetBos(s.mem, [b]), h))
    ensures Safe(s, st)
  {
    var m, m' := s.mem, Hold(GetBos(s.mem, [b]), h);
    TakeRefKeeps(m, s.hw.pipes, b, h);
    QuietSpares(m, m', s.hw);
    PushedRecords(m.holders, h, s.hw.fences, m.work);
    MemStep(s, st, m');
  }

  lemma DropRefInv(s: State, st: Step, i: nat)
    requires Inv(s) && i < |s.mem.holders|
    requires s.mem.holders[i].Mapping? || s.mem.holders[i].Opening?
    requires s.mem.holders[i].bo in s.mem.bos ==>
               Leads(s, st, PutBos(Swap(s.mem, i, Gone), [s.mem.holders[i].bo]))
    ensures Safe(s, st)
  {
    var m, b := s.mem, s.mem.holders[i].bo;
    DropRefKeeps(m, s.hw.pipes, i, b);
    var m' := PutBos(Swap(m, i, Gone), [b]);
    QuietSpares(m, m', s.hw);
    SwappedRecords(m.holders, i, Gone, s.hw.fences, m.work);
    MemStep(s, st, m');
  }

  lemma BeginOpenSafe(s: State, v: VmId, b: BoId)
    ensures Safe(s, BeginOpen(v, b))
  {
    if Inv(s) && Enabled(s, BeginOpen(v, b)) {
      OpenFileVm(s.mem, s.hw.pipes, v);
      TakeRefInv(s, BeginOpen(v, b), b, Opening(v, b));
    }
  }

  lemma EndOpenSafe(s: State, i: nat)
    ensures Safe(s, EndOpen(i))
  {
    if Inv(s) && Enabled(s, EndOpen(i)) {
      DropRefInv(s, EndOpen(i), i);
    }
  }

  lemma MapUserSafe(s: State, b: BoId)
    ensures Safe(s, MapUser(b))
  {
    if Inv(s) && Enabled(s, MapUser(b)) {
      var st := MapUser(b);
      TakeRefInv(s, st, b, Mapping(b));
    }
  }

  lemma UnmapUserSafe(s: State, i: nat)
    ensures Safe(s, UnmapUser(i))
  {
    if Inv(s) && Enabled(s, UnmapUser(i)) {
      DropRefInv(s, UnmapUser(i), i);
    }
  }

  lemma CloseHandleSafe(s: State, i: nat)
    ensures Safe(s, CloseHandle(i))
  {
    if Inv(s) && Enabled(s, CloseHandle(i)) {
      DropInv(s.mem, s.hw, i, s.mem.holders[i].vm, s.mem.holders[i].bo, Gone);
    }
  }

  // ----- submissions

  lemma BeginSubmitSafe(s: State, v: VmId)
    ensures Safe(s, BeginSubmit(v))
  {
    if Inv(s) && Enabled(s, BeginSubmit(v)) {
      var m, st := s.mem, BeginSubmit(v);
      var j :| 0 <= j < |m.holders| && m.holders[j] == File(v);
      assert (m.holders + [Submitting(v, [])])[j] == File(v);
      HoldKeeps(m, s.hw.pipes, Submitting(v, []));
      var m' := Hold(m, Submitting(v, []));
      QuietSpares(m, m', s.hw);
      PushedRecords(m.holders, Submitting(v, []), s.hw.fences, m.work);
      MemStep(s, st, m');
    }
  }

  lemma AddToSubmitSafe(s: State, i: nat, b: BoId)
    ensures Safe(s, AddToSubmit(i, b))
  {
    if Inv(s) && Enabled(s, AddToSubmit(i, b)) {
      var m := s.mem;
      SubmittedIsLive(m, s.hw.pipes, i, b);
      AddInv(m, s.hw, i, m.holders[i].vm, b, Submitting(m.holders[i].vm, m.holders[i].bos + [b]));
    }
  }

  lemma UnwindSubmitSafe(s: State, i: nat)
    ensures Safe(s, UnwindSubmit(i))
  {
    if Inv(s) && Enabled(s, UnwindSubmit(i)) {
      var g := s.mem.holders[i];
      var h := Submitting(g.vm, g.bos[1..]);
      forall c ensures Weight(g, c) == Weight(h, c) + Bit(c == OnVa(g.vm, g.bos[0])) + Bit(c == OnBo(g.bos[0])) {
        if c.OnVa? || c.OnBo? { TimesTail(g.bos, c.b); }
      }
      StillSubmitting(s.mem.holders, i, h);
      DropInv(s.mem, s.hw, i, g.vm, g.bos[0], h);
    }
  }

  lemma EndSubmitSafe(s: State, i: nat)
    ensures Safe(s, EndSubmit(i))
  {
    if Inv(s) && Enabled(s, EndSubmit(i)) {
      EmptyGoes(s, EndSubmit(i), i);
    }
  }

  /** A holder with no claim left goes. */
  lemma EmptyGoes(s: State, st: Step, i: nat)
    requires Inv(s) && i < |s.mem.holders| && s.mem.holders[i].Submitting? && s.mem.holders[i].bos == []
    requires Leads(s, st, Swap(s.mem, i, Gone))
    ensures Safe(s, st)
  {
    var m, m' := s.mem, Swap(s.mem, i, Gone);
    SwapKeeps(m, s.hw.pipes, i, Gone);
    QuietSpares(m, m', s.hw);
    SwappedRecords(m.holders, i, Gone, s.hw.fences, m.work);
    MemStep(s, st, m');
  }

  lemma JobInitFailsSafe(s: State, i: nat)
    ensures Safe(s, JobInitFails(i))
  {
    if Inv(s) && Enabled(s, JobInitFails(i)) {
      ListedExist(s.mem, s.hw.pipes, i, s.mem.holders[i].bos);
      LeakInv(s, JobInitFails(i), s.mem.holders[i].bos);
    }
  }

  lemma LeakInv(s: State, st: Step, objs: seq<BoId>)
    requires Inv(s) && forall b | b in objs :: b in s.mem.bos
    requires Leads(s, st, Hold(GetBos(s.mem, objs), Leaked(objs)))
    ensures Safe(s, st)
  {
    var m, m' := s.mem, Hold(GetBos(s.mem, objs), Leaked(objs));
    JobInitFailsKeeps(m, s.hw.pipes, objs);
    QuietSpares(m, m', s.hw);
    PushedRecords(m.holders, Leaked(objs), s.hw.fences, m.work);
    MemStep(s, st, m');
  }

  lemma QueueSafe(s: State, i: nat, pipe: nat, heap: Option<BoId>)
    ensures Safe(s, Queue(i, pipe, heap))
  {
    if Inv(s) && Enabled(s, Queue(i, pipe, heap)) {
      var m, st := s.mem, Queue(i, pipe, heap);
      var v, h := m.holders[i].vm, Job(m.holders[i].vm, pipe, m.holders[i].bos, heap);
      QueueKeeps(m, s.hw.pipes, i, v, h);
      var m' := GetVm(Swap(m, i, h), v);
      QuietSpares(m, m', s.hw);
      SwappedRecords(m.holders, i, h, s.hw.fences, m.work);
      MemStep(s, st, m');
    }
  }

  // ----- freeing a job

  lemma FreeingKeeps(m: Mem, hw: Hw, i: nat, h: Holder)
    requires Inv(State(m, hw)) && i < |m.holders| && m.holders[i].Job? && !OnHardware(hw, i)
    requires h == Freeing(m.holders[i].vm, m.holders[i].bos, m.holders[i].bos)
    ensures MemInv(Swap(m, i, h), hw.pipes) && Spares(m, Swap(m, i, h), hw)
    ensures RecordsFit(Swap(m, i, h).holders, hw.fences, m.work)
  {
    SwapKeeps(m, hw.pipes, i, h);
    QuietSpares(m, Swap(m, i, h), hw);
    SwappedRecords(m.holders, i, h, hw.fences, m.work);
  }

  lemma BeginFreeSafe(s: State, i: nat)
    ensures Safe(s, BeginFree(i))
  {
    if Inv(s) && Enabled(s, BeginFree(i)) {
      var h := Freeing(s.mem.holders[i].vm, s.mem.holders[i].bos, s.mem.holders[i].bos);
      FreeingKeeps(s.mem, s.hw, i, h);
      MemStep(s, BeginFree(i), Swap(s.mem, i, h));
    }
  }

  lemma FreeOneSafe(s: State, i: nat)
    ensures Safe(s, FreeOne(i))
  {
    if Inv(s) && Enabled(s, FreeOne(i)) {
      var g := s.mem.holders[i];
      FreeOneInv(s.mem, s.hw, i, g.vm, g.bos[0], Freeing(g.vm, g.bos[1..], g.objs));
    }
  }

  lemma EndFreeSafe(s: State, i: nat)
    ensures Safe(s, EndFree(i))
  {
    if Inv(s) && Enabled(s, EndFree(i)) {
      var m, st := s.mem, EndFree(i);
      EndFreeKeeps(m, s.hw.pipes, i, m.holders[i].vm, m.holders[i].objs);
      var m' := PutVm(PutBos(Swap(m, i, Gone), m.holders[i].objs), m.holders[i].vm);
      PutVmSparesAll(m, m', s.hw, i, m.holders[i].vm);
      SwappedRecords(m.holders, i, Gone, s.hw.fences, m.work);
      MemStep(s, st, m');
    }
  }

  // ----- the pipes

  /** The step changes the hardware side only: to `hw'`. */
  ghost predicate Drives(s: State, st: Step, hw': Hw) {
    Inv(s) && Enabled(s, st) ==>
      (Defined(s, st) <==> Avoids(s, st)) && (Defined(s, st) ==> NextMem(s, st) == s.mem && NextHw(s, st) == hw')
  }

  /** For a step that leaves the memory side alone. */
  lemma HwStep(s: State, st: Step, hw': Hw)
    requires Drives(s, st, hw') && (Inv(s) && Enabled(s, st) ==> MemInv(s.mem, hw'.pipes) && HwInv(s.mem, hw'))
    ensures Safe(s, st)
  {
    if Inv(s) {
      QuietSpares(s.mem, s.mem, s.hw);
    }
  }

  /** Pipe `p` becomes `pipe`, with the job it had. */
  lemma SameJobStep(s: State, st: Step, p: nat, pipe: Pipe)
    requires Inv(s) && p < 2 && Drives(s, st, SetPipe(s.hw, p, pipe))
    requires pipe.task == s.hw.pipes[p].task && pipe.vm == s.hw.pipes[p].vm
    requires pipe.log == s.hw.pipes[p].log && pipe.seqno >= s.hw.pipes[p].seqno
    requires InFlight(s.hw, p) ==> MmusWalk(pipe.vm.value, pipe.mmus)
    ensures Safe(s, st)
  {
    ClaimsFollowVm(s.mem, s.hw.pipes, p, pipe);
    SameJobKeeps(s.mem, s.hw, p, pipe);
    HwStep(s, st, SetPipe(s.hw, p, pipe));
  }

  lemma SkipRunSafe(s: State, i: nat, fenced: bool)
    ensures Safe(s, SkipRun(i, fenced))
  {
    if Inv(s) && Enabled(s, SkipRun(i, fenced)) {
      var p := s.mem.holders[i].pipe;
      SameJobStep(s, SkipRun(i, fenced), p, NextHw(s, SkipRun(i, fenced)).pipes[p]);
    }
  }

  lemma FillSafe(s: State, p: nat, j: nat, page: nat)
    ensures Safe(s, Fill(p, j, page))
  {
    if Inv(s) && Enabled(s, Fill(p, j, page)) {
      assert PipeRuns(s.mem, s.hw, p) && s.hw.pipes[p].mmus[j].dte == s.hw.pipes[p].vm;
      SameJobStep(s, Fill(p, j, page), p, NextHw(s, Fill(p, j, page)).pipes[p]);
    }
  }

  lemma ScrambleSafe(s: State, p: nat, mmus: seq<Mmu>)
    ensures Safe(s, Scramble(p, mmus))
  {
    if Inv(s) && Enabled(s, Scramble(p, mmus)) {
      SameJobStep(s, Scramble(p, mmus), p, NextHw(s, Scramble(p, mmus)).pipes[p]);
    }
  }

  lemma InterruptSafe(s: State, p: nat, error: bool)
    ensures Safe(s, Interrupt(p, error))
  {
    if Inv(s) && Enabled(s, Interrupt(p, error)) {
      assert PipeRuns(s.mem, s.hw, p);
      SameJobStep(s, Interrupt(p, error), p, NextHw(s, Interrupt(p, error)).pipes[p]);
    }
  }

  lemma FlushTlbSafe(s: State)
    ensures Safe(s, FlushTlb)
  {
    if Inv(s) && Enabled(s, FlushTlb) {
      assert PipeRuns(s.mem, s.hw, 0);
      SameJobStep(s, FlushTlb, 0, NextHw(s, FlushTlb).pipes[0]);
    }
  }

  lemma ParkSafe(s: State, p: nat)
    ensures Safe(s, Park(p))
  {
    if Inv(s) && Enabled(s, Park(p)) {
      assert PipeRuns(s.mem, s.hw, p);
      SameJobStep(s, Park(p), p, Parked(s.hw, p).pipes[p]);
    }
  }

  lemma ScheduleSafe(s: State)
    ensures Safe(s, ScheduleWork)
  {
    if Inv(s) && Enabled(s, ScheduleWork) {
      WorkSafe(s, ScheduleWork, Work(true, s.mem.work.job, s.mem.work.v, s.mem.work.b, s.mem.work.stage));
    }
  }

  lemma WorkSafe(s: State, st: Step, w: Work)
    requires Inv(s) && Leads(s, st, WithWork(s.mem, w))
    requires WorkFits(s.mem.holders, w) && forall b | b in s.mem.bos :: BoOk(s.mem.bos[b], StageOf(w, b))
    ensures Safe(s, st)
  {
    WorkKeeps(s.mem, s.hw.pipes, w);
    QuietSpares(s.mem, WithWork(s.mem, w), s.hw);
    MemStep(s, st, WithWork(s.mem, w));
  }

  lemma BeginRecoverSafe(s: State, grow: bool)
    ensures Safe(s, BeginRecover(grow))
  {
    if Inv(s) && Enabled(s, BeginRecover(grow)) {
      var m, st := s.mem, BeginRecover(grow);
      if HeapTask(s) {
        var i := s.hw.pipes[0].task.value;
        var v, b := m.holders[i].vm, m.holders[i].heap.value;
        JobIsLive(m, s.hw.pipes, i);
        assert HolderFits(m.holders, i) && LiveVa(m, v, b);
        assert BoOk(m.bos[b], StageOf(m.work, b));
        var w := Recovering(m, i, v, b, grow);
        forall c | c in m.bos ensures BoOk(m.bos[c], StageOf(w, c)) {
          assert BoOk(m.bos[c], StageOf(m.work, c));
        }
        WorkSafe(s, st, w);
      }
    }
  }

  /** What somebody has a reference on is there, and nothing else is. */
  lemma ClaimedIsLive(m: Mem, pipes: seq<Pipe>, g: GrowStep)
    requires MemInv(m, pipes)
    ensures GrowDefined(m, g) <==> GrowAvoids(m, pipes, g)
  {
    assert CountOk(m, pipes, OnBo(m.work.b)) && CountOk(m, pipes, OnVm(m.work.v));
    assert m.work.b in m.bos ==> BoOk(m.bos[m.work.b], StageOf(m.work, m.work.b));
    assert m.work.v in m.vms ==> ViewFits(m, m.work.v);
  }

  lemma RecoverySafe(s: State, g: GrowStep)
    ensures Safe(s, Recovery(g))
  {
    if Inv(s) && Enabled(s, Recovery(g)) {
      ClaimedIsLive(s.mem, s.hw.pipes, g);
      if GrowDefined(s.mem, g) {
        GrowthKeeps(s.mem, s.hw.pipes, g);
        GrowSpares(s.mem, g, s.hw);
        GrowthKept(s.mem, g);
        MemStep(s, Recovery(g), GrowNext(s.mem, g));
      }
    }
  }

  lemma CompletedKeeps(m: Mem, hw: Hw, p: nat)
    requires Inv(State(m, hw)) && p < 2 && InFlight(hw, p)
    ensures hw.pm > 0 && TaskLives(m, hw.pipes[p].task.value)
    ensures var hw' := Signal(hw, p, false, hw.pipes[p], hw.pm - 1, hw.forced);
            MemInv(m, hw'.pipes) && HwInv(m, hw')
  {
    var hw' := Signal(hw, p, false, hw.pipes[p], hw.pm - 1, hw.forced);
    assert PipeRuns(m, hw, p);
    DoneKeeps(m, hw, p);
    ClaimsFollowVm(m, hw.pipes, p, hw'.pipes[p]);
  }

  lemma DoneSafe(s: State, p: nat)
    ensures Safe(s, Done(p))
  {
    if Inv(s) && Enabled(s, Done(p)) {
      CompletedKeeps(s.mem, s.hw, p);
      HwStep(s, Done(p), Signal(s.hw, p, false, s.hw.pipes[p], s.hw.pm - 1, s.hw.forced));
    }
  }

  /** The references: the old address space is put, the job's is taken. */
  lemma StartRunMem(m: Mem, hw: Hw, i: nat, p: nat, v: VmId)
    requires Inv(State(m, hw)) && i < |m.holders| && m.holders[i].Job? && m.holders[i].vm == v && p < 2
    ensures LiveOld(m, hw.pipes[p]) && v in PutOld(m, hw.pipes[p].vm).vms
    ensures MemInv(GetVm(PutOld(m, hw.pipes[p].vm), v), Started(hw, p, i, v).pipes)
  {
    var none := Pipe(None, None, false, 0, [], [], false);
    PutOldKeeps(m, hw.pipes, p, none);
    var m1 := PutOld(m, hw.pipes[p].vm);
    HeldVm(m1, hw.pipes[p := none], i, v);
    GetVmKeeps(m1, hw.pipes[p := none], v, Started(hw, p, i, v).pipes);
  }

  lemma StartRunKeeps(m: Mem, hw: Hw, i: nat, p: nat, v: VmId)
    requires Inv(State(m, hw)) && i < |m.holders| && m.holders[i].Job? && m.holders[i].pipe == p && m.holders[i].vm == v
    requires p < 2 && !InFlight(hw, p)
    ensures LiveOld(m, hw.pipes[p]) && v in PutOld(m, hw.pipes[p].vm).vms
    ensures Good(State(m, hw), State(GetVm(PutOld(m, hw.pipes[p].vm), v), Started(hw, p, i, v)))
  {
    StartRunMem(m, hw, i, p, v);
    var m2 := GetVm(PutOld(m, hw.pipes[p].vm), v);
    PutOldHw(m, m2, hw, p);
    StartedKeeps(m2, hw, i, p, v);
  }

  lemma PutOldHw(m: Mem, m': Mem, hw: Hw, p: nat)
    requires Inv(State(m, hw)) && p < 2 && LiveOld(m, hw.pipes[p]) && m'.holders == m.holders && m'.work == m.work
    requires forall w | w in PutOld(m, hw.pipes[p].vm).vms ::
               w in m'.vms && SameVm(PutOld(m, hw.pipes[p].vm).vms[w], m'.vms[w])
    ensures HwInv(m', hw) && Spares(m, m', hw)
  {
    PutOldSparesAll(m, m', hw, p);
    HwUntouched(m, m', hw);
  }

  lemma StartRunSafe(s: State, i: nat)
    ensures Safe(s, StartRun(i))
  {
    if Inv(s) && Enabled(s, StartRun(i)) {
      StartRunKeeps(s.mem, s.hw, i, s.mem.holders[i].pipe, s.mem.holders[i].vm);
    }
  }

  lemma ExpiredKeeps(m: Mem, hw: Hw, p: nat, mmus: seq<Mmu>)
    requires Inv(State(m, hw)) && p < 2 && InFlight(hw, p)
    ensures hw.pm > 0 && TaskLives(m, hw.pipes[p].task.value) && hw.pipes[p].vm.Some? && LiveOld(m, hw.pipes[p])
    ensures var pipe := hw.pipes[p];
            var pipe' := Pipe(None, None, pipe.error, pipe.seqno, pipe.log, mmus, pipe.stopped);
            Good(State(m, hw), State(PutOld(m, pipe.vm), Hw(hw.pipes[p := pipe'], hw.fences, hw.pm - 1, hw.forced)))
  {
    assert PipeRuns(m, hw, p);
    var pipe' := Pipe(None, None, hw.pipes[p].error, hw.pipes[p].seqno, hw.pipes[p].log, mmus, hw.pipes[p].stopped);
    PutOldKeeps(m, hw.pipes, p, pipe');
    var m' := PutOld(m, hw.pipes[p].vm);
    PutOldHw(m, m', hw, p);
    TimedOutKeeps(m', hw, p, Hw(hw.pipes[p := pipe'], hw.fences, hw.pm - 1, hw.forced));
  }

  lemma TimedOutSafe(s: State, p: nat, mmus: seq<Mmu>)
    ensures Safe(s, TimedOut(p, mmus))
  {
    if Inv(s) && Enabled(s, TimedOut(p, mmus)) {
      ExpiredKeeps(s.mem, s.hw, p, mmus);
      var pipe := s.hw.pipes[p];
      var pipe' := Pipe(None, None, pipe.error, pipe.seqno, pipe.log, mmus, pipe.stopped);
      assert Next(s, TimedOut(p, mmus)) ==
             State(PutOld(s.mem, pipe.vm), Hw(s.hw.pipes[p := pipe'], s.hw.fences, s.hw.pm - 1, s.hw.forced));
    }
  }

  lemma StopKeeps(m: Mem, hw: Hw, p: nat, fakeWedge: bool)
    requires Inv(State(m, hw)) && p < 2
    ensures LiveOld(m, hw.pipes[p]) && (hw.pipes[p].task.Some? <==> hw.pipes[p].vm.Some?)
    ensures Good(State(m, hw), State(PutOld(m, hw.pipes[p].vm), Stopped(hw, p, fakeWedge)))
  {
    assert PipeShape(hw, p);
    var hw' := Stopped(hw, p, fakeWedge);
    PutOldKeeps(m, hw.pipes, p, hw'.pipes[p]);
    var m' := PutOld(m, hw.pipes[p].vm);
    PutOldHw(m, m', hw, p);
    StoppedKeeps(m', hw, p, fakeWedge);
  }

  lemma StopSafe(s: State, p: nat, fakeWedge: bool)
    ensures Safe(s, Stop(p, fakeWedge))
  {
    if Inv(s) && Enabled(s, Stop(p, fakeWedge)) {
      StopKeeps(s.mem, s.hw, p, fakeWedge);
    }
  }

  // ----- all steps

  lemma FileStepSafe(s: State, st: Step)
    requires FileStep(st)
    ensures Safe(s, st)
  {
    match st
    case OpenFile(v, reserved) => OpenFileSafe(s, v, reserved);
    case CloseFile(i) => CloseFileSafe(s, i);
    case CreateBo(b, bo) => CreateBoSafe(s, b, bo);
    case DropCreated(i) => DropCreatedSafe(s, i);
    case OpenHandle(v, b, start) => OpenHandleSafe(s, v, b, start);
    case FailedOpen(v, b, start, done, slots) => FailedOpenSafe(s, v, b, start, done, slots);
    case CloseHandle(i) => CloseHandleSafe(s, i);
    case MapUser(b) => MapUserSafe(s, b);
    case UnmapUser(i) => UnmapUserSafe(s, i);
    case BeginOpen(v, b) => BeginOpenSafe(s, v, b);
    case EndOpen(i) => EndOpenSafe(s, i);
  }

  lemma JobStepSafe(s: State, st: Step)
    requires JobStep(st)
    ensures Safe(s, st)
  {
    match st
    case BeginSubmit(v) => BeginSubmitSafe(s, v);
    case AddToSubmit(i, b) => AddToSubmitSafe(s, i, b);
    case UnwindSubmit(i) => UnwindSubmitSafe(s, i);
    case EndSubmit(i) => EndSubmitSafe(s, i);
    case JobInitFails(i) => JobInitFailsSafe(s, i);
    case Queue(i, pipe, heap) => QueueSafe(s, i, pipe, heap);
    case BeginFree(i) => BeginFreeSafe(s, i);
    case FreeOne(i) => FreeOneSafe(s, i);
    case EndFree(i) => EndFreeSafe(s, i);
  }

  lemma PipeStepSafe(s: State, st: Step)
    requires !FileStep(st) && !JobStep(st)
    ensures Safe(s, st)
  {
    match st
    case SkipRun(i, fenced) => SkipRunSafe(s, i, fenced);
    case StartRun(i) => StartRunSafe(s, i);
    case Fill(p, j, page) => FillSafe(s, p, j, page);
    case Scramble(p, mmus) => ScrambleSafe(s, p, mmus);
    case Interrupt(p, error) => InterruptSafe(s, p, error);
    case Done(p) => DoneSafe(s, p);
    case ScheduleWork => ScheduleSafe(s);
    case FlushTlb => FlushTlbSafe(s);
    case BeginRecover(grow) => BeginRecoverSafe(s, grow);
    case Recovery(g) => RecoverySafe(s, g);
    case TimedOut(p, mmus) => TimedOutSafe(s, p, mmus);
    case Stop(p, fakeWedge) => StopSafe(s, p, fakeWedge);
    case Park(p) => ParkSafe(s, p);
  }

  /** Every step the environment may take is well defined exactly outside the listed cases, and keeps the invariant. */
  lemma StepSafe(s: State, st: Step)
    ensures Safe(s, st)
  {
    if FileStep(st) {
      FileStepSafe(s, st);
    } else if JobStep(st) {
      JobStepSafe(s, st);
    } else {
      PipeStepSafe(s, st);
    }
  }
}
