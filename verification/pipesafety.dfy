/**
 The invariant of the two pipes over the memory side's: whose tables a busy pipe's MMUs walk, the
 fence order, and the runtime-PM count; and what a step on the memory side spares.
 */
module PipeSafety {
  import opened Wrappers
  import opened Geometry
  import opened VmSpec
  import opened Claims
  import opened JobSystem
  import opened JobSafety

  // ----- the invariant

  /** Fences are signalled in the order they were created. */
  ghost predicate LogOk(log: seq<nat>, seqno: nat) {
    && (forall a, b | 0 <= a < b < |log| :: log[a] < log[b])
    && (forall a | 0 <= a < |log| :: log[a] <= seqno)
  }

  ghost predicate After(log: seq<nat>, ordinal: nat) { forall a | 0 <= a < |log| :: log[a] < ordinal }

  predicate FenceFits(hs: seq<Holder>, t: nat, f: Fence) {
    t < |hs| && f.pipe < 2 && (hs[t].Job? || hs[t].Freeing? || hs[t].Gone?) && (hs[t].Job? ==> hs[t].pipe == f.pipe)
  }

  ghost predicate FencesFit(hs: seq<Holder>, fences: map<nat, Fence>) {
    forall t | t in fences :: FenceFits(hs, t, fences[t])
  }

  /** The recovery works on a task that was queued, through the address space and the heap of that task. */
  predicate WorkFits(hs: seq<Holder>, w: Work) {
    !w.stage.Idle? ==>
      && w.job < |hs| && (hs[w.job].Job? || hs[w.job].Freeing? || hs[w.job].Gone?)
      && (hs[w.job].Job? ==> hs[w.job].vm == w.v && hs[w.job].heap == Some(w.b))
  }

  ghost predicate RecordsFit(hs: seq<Holder>, fences: map<nat, Fence>, w: Work) {
    FencesFit(hs, fences) && WorkFits(hs, w)
  }

  ghost predicate PipeShape(hw: Hw, p: nat)
    requires p < |hw.pipes|
  {
    var pipe := hw.pipes[p];
    && (pipe.task.None? <==> pipe.vm.None?)
    && (pipe.task.Some? ==> pipe.task.value in hw.fences && hw.fences[pipe.task.value].pipe == p)
    && LogOk(pipe.log, pipe.seqno)
    && (InFlight(hw, p) ==>
          hw.fences[pipe.task.value].ordinal <= pipe.seqno && After(pipe.log, hw.fences[pipe.task.value].ordinal))
  }

  /** Every MMU walks the tables of address space `v`. */
  predicate MmusWalk(v: VmId, mmus: seq<Mmu>) { forall j | 0 <= j < |mmus| :: mmus[j].dte == Some(v) }

  /** A busy pipe runs a job of its own, in the job's address space, through MMUs that walk its tables. */
  ghost predicate PipeRuns(m: Mem, hw: Hw, p: nat)
    requires p < |hw.pipes|
  {
    InFlight(hw, p) ==>
      var pipe := hw.pipes[p];
      var i := pipe.task.value;
      && i < |m.holders| && m.holders[i].Job? && m.holders[i].pipe == p && pipe.vm == Some(m.holders[i].vm)
      && m.holders[i].vm in m.vms && MmusWalk(m.holders[i].vm, pipe.mmus)
  }

  function Busy(hw: Hw, p: nat): nat
    requires p < |hw.pipes|
  {
    Bit(InFlight(hw, p))
  }

  ghost predicate HwInv(m: Mem, hw: Hw) {
    && |hw.pipes| == 2 && RecordsFit(m.holders, hw.fences, m.work)
    && PipeShape(hw, 0) && PipeShape(hw, 1) && PipeRuns(m, hw, 0) && PipeRuns(m, hw, 1)
    && hw.pm == Busy(hw, 0) + Busy(hw, 1) + hw.forced
  }

  ghost predicate Inv(s: State) { MemInv(s.mem, s.hw.pipes) && HwInv(s.mem, s.hw) }

  // ----- what a step on the memory side must keep for a running job

  /** An entry in the range of `b` at page `p` that the range did not install. */
  predicate Leftover(w: View, b: BoId, p: nat) {
    p in w.table && b in w.vas && w.vas[b].Owns(p) && p !in w.vas[b].pages
  }

  /**
   A range stays where it is and keeps every page installed in it, with its translation; what else is
   mapped there was left over already.
   */
  ghost predicate Survives(w: View, w': View, b: BoId) {
    && b in w.vas && b in w'.vas && w'.vas[b].start == w.vas[b].start && w'.vas[b].size == w.vas[b].size
    && Holds(w'.vas[b].pages, w.vas[b].pages) && Holds(w'.table, w.vas[b].pages)
    && forall p {:trigger p in w'.table} {:trigger Leftover(w', b, p)} | Leftover(w', b, p) ::
         Leftover(w, b, p) && w'.table[p] == w.table[p]
  }

  /** Every range survives that is not deleted. */
  ghost predicate ViewSurvives(w: View, w': View) {
    w'.reserved == w.reserved && forall b | b in w.vas && b in w'.vas :: Survives(w, w', b)
  }

  ghost predicate KeptFor(vms: map<VmId, Vm>, vms': map<VmId, Vm>, h: Holder)
    requires h.Job?
  {
    && h.vm in vms && h.vm in vms' && ViewSurvives(vms[h.vm].view, vms'[h.vm].view)
    && forall b | b in h.bos :: b in vms[h.vm].view.vas && b in vms'[h.vm].view.vas
  }

  /** The running jobs are untouched, and so is what they can reach. */
  ghost predicate Spares(m: Mem, m': Mem, hw: Hw) {
    forall k: nat | k < |m.holders| && m.holders[k].Job? && OnHardware(hw, k) ::
      k < |m'.holders| && m'.holders[k] == m.holders[k] && KeptFor(m.vms, m'.vms, m.holders[k])
  }

  ghost predicate SameRunning(hs: seq<Holder>, hs': seq<Holder>, hw: Hw) {
    forall k: nat | k < |hs| && hs[k].Job? && OnHardware(hw, k) :: k < |hs'| && hs'[k] == hs[k]
  }

  lemma PipeStillRuns(m: Mem, m': Mem, hw: Hw, p: nat)
    requires p < |hw.pipes| && PipeRuns(m, hw, p) && Spares(m, m', hw)
    ensures PipeRuns(m', hw, p)
  {}

  /** A step of the memory side that spares the running jobs keeps the pipes' invariant. */
  lemma HwUntouched(m: Mem, m': Mem, hw: Hw)
    requires HwInv(m, hw) && Spares(m, m', hw) && RecordsFit(m'.holders, hw.fences, m'.work)
    ensures HwInv(m', hw)
  {
    PipeStillRuns(m, m', hw, 0);
    PipeStillRuns(m, m', hw, 1);
  }

  // ----- which steps spare whom

  lemma SelfKept(w: View)
    requires VmSound(w)
    ensures ViewSurvives(w, w)
  {}

  lemma AddRefKept(w: View, a: BoId)
    requires VmSound(w) && a in w.vas
    ensures ViewSurvives(w, AddRef(w, a))
  {}

  lemma OpenedKept(w: View, a: BoId, n: Node)
    requires VmSound(w) && a !in w.vas && Free(w, n)
    ensures ViewSurvives(w, Insert(w, a, n))
  {
    var w' := Insert(w, a, n);
    forall b | b in w.vas ensures Survives(w, w', b) {
      assert w.vas[b].Sane() && n.Apart(w.vas[b]) && Holds(w.table, w.vas[b].pages);
    }
  }

  /** Deleting one range leaves the others alone, and leaves itself alone while it has users. */
  lemma DeletedKept(w: View, a: BoId, cut: nat)
    requires VmSound(w) && a in w.vas && cut <= w.vas[a].size
    ensures ViewSurvives(w, Drop(w, a, cut))
    ensures forall b | b in w.vas && (b != a || w.vas[a].refs > 1) :: b in Drop(w, a, cut).vas
  {
    var w' := Drop(w, a, cut);
    forall b | b in w.vas && b in w'.vas ensures Survives(w, w', b) {
      assert w.vas[a].Sane() && w.vas[b].Sane() && (a != b ==> w.vas[a].Apart(w.vas[b]));
      assert Holds(w.table, w.vas[b].pages);
    }
  }

  lemma ExtendedKept(w: View, a: BoId, part: Table)
    requires VmSound(w) && Room(w, a, part)
    ensures ViewSurvives(w, Extend(w, a, part))
  {
    var w' := Extend(w, a, part);
    forall b | b in w.vas ensures Survives(w, w', b) {
      assert w.vas[a].Sane() && w.vas[b].Sane() && (a != b ==> w.vas[a].Apart(w.vas[b]));
      assert Holds(w.table, w.vas[b].pages);
    }
  }

  /** A mapping loop undone in an unused stretch of pages. */
  lemma UndoneKept(w: View, start: nat, done: nat)
    requires VmSound(w)
    requires forall p | Between(start, p, done) :: p !in w.reserved && forall b | b in w.vas :: p !in w.vas[b].pages
    ensures ViewSurvives(w, View(Cut(w.table, start, done), w.vas, w.reserved))
  {
    forall b | b in w.vas ensures Survives(w, View(Cut(w.table, start, done), w.vas, w.reserved), b) {
      assert Holds(w.table, w.vas[b].pages);
      forall p | p in w.vas[b].pages ensures !Between(start, p, done) {}
    }
  }

  /** The ranges a job lists exist. */
  lemma JobIsLive(m: Mem, pipes: seq<Pipe>, k: nat)
    requires MemInv(m, pipes) && k < |m.holders| && m.holders[k].Job?
    ensures m.holders[k].vm in m.vms && forall b | b in m.holders[k].bos :: LiveVa(m, m.holders[k].vm, b)
  {
    HeldVm(m, pipes, k, m.holders[k].vm);
    forall b | b in m.holders[k].bos ensures LiveVa(m, m.holders[k].vm, b) {
      assert multiset(m.holders[k].bos)[b] > 0;
      HeldVa(m, pipes, k, m.holders[k].vm, b);
    }
  }

  predicate SameVm(vm: Vm, vm': Vm) { vm'.view == vm.view }

  lemma UnchangedKept(m: Mem, pipes: seq<Pipe>, vms': map<VmId, Vm>, k: nat)
    requires MemInv(m, pipes) && k < |m.holders| && m.holders[k].Job? && m.holders[k].vm in m.vms
    requires m.holders[k].vm in vms' && SameVm(m.vms[m.holders[k].vm], vms'[m.holders[k].vm])
    ensures KeptFor(m.vms, vms', m.holders[k])
  {
    JobIsLive(m, pipes, k);
    assert ViewFits(m, m.holders[k].vm);
    SelfKept(m.vms[m.holders[k].vm].view);
  }

  /** Another holder's last lima_vm_bo_del: the job's own claim keeps the range at two users or more. */
  lemma DropSpares(m: Mem, pipes: seq<Pipe>, i: nat, v: VmId, b: BoId, k: nat)
    requires MemInv(m, pipes) && LiveVa(m, v, b)
    requires i < |m.holders| && k < |m.holders| && i != k && m.holders[k].Job? && Weight(m.holders[i], OnVa(v, b)) > 0
    ensures KeptFor(m.vms, DropVa(m, v, b).vms, m.holders[k])
  {
    var h := m.holders[k];
    JobIsLive(m, pipes, k);
    assert ViewFits(m, h.vm) && ViewFits(m, v) && RangeFits(m, v, b);
    SelfKept(m.vms[h.vm].view);
    DeletedKept(m.vms[v].view, b, m.bos[b].populated);
    if h.vm == v && b in h.bos { OneOfTwo(m, pipes, i, v, b, k); }
  }

  lemma OneOfTwo(m: Mem, pipes: seq<Pipe>, i: nat, v: VmId, b: BoId, k: nat)
    requires MemInv(m, pipes) && LiveVa(m, v, b) && i < |m.holders| && k < |m.holders| && i != k
    requires Weight(m.holders[i], OnVa(v, b)) > 0
    requires m.holders[k].Job? && m.holders[k].vm == v && b in m.holders[k].bos
    ensures m.Vas(v)[b].refs > 1
  {
    assert multiset(m.holders[k].bos)[b] > 0;
    SumAtLeastTwo(m.holders, i, k, OnVa(v, b));
    assert CountOk(m, pipes, OnVa(v, b));
  }

  /** Steps that change no address space a running job uses. */
  lemma QuietSpares(m: Mem, m': Mem, hw: Hw)
    requires MemInv(m, hw.pipes) && SameRunning(m.holders, m'.holders, hw)
    requires forall v | v in m.vms :: v in m'.vms && SameVm(m.vms[v], m'.vms[v])
    ensures Spares(m, m', hw)
  {
    forall k: nat | k < |m.holders| && m.holders[k].Job? && OnHardware(hw, k)
      ensures KeptFor(m.vms, m'.vms, m.holders[k])
    {
      JobIsLive(m, hw.pipes, k);
      UnchangedKept(m, hw.pipes, m'.vms, k);
    }
  }

  /** lima_vm_put never releases the address space of a queued job. */
  lemma PutVmSpares(m: Mem, hw: Hw, i: nat, v: VmId, vms': map<VmId, Vm>, k: nat)
    requires MemInv(m, hw.pipes) && v in m.vms && vms' == PutVm(m, v).vms
    requires i < |m.holders| && k < |m.holders| && i != k && m.holders[k].Job? && Weight(m.holders[i], OnVm(v)) > 0
    ensures KeptFor(m.vms, vms', m.holders[k])
  {
    JobIsLive(m, hw.pipes, k);
    if m.holders[k].vm == v {
      SumAtLeastTwo(m.holders, i, k, OnVm(v));
      assert CountOk(m, hw.pipes, OnVm(v));
    }
    UnchangedKept(m, hw.pipes, vms', k);
  }

  lemma PutVmSparesAll(m: Mem, m': Mem, hw: Hw, i: nat, v: VmId)
    requires MemInv(m, hw.pipes) && v in m.vms && m'.vms == PutVm(m, v).vms
    requires i < |m.holders| && !m.holders[i].Job? && Weight(m.holders[i], OnVm(v)) > 0
    requires SameRunning(m.holders, m'.holders, hw)
    ensures Spares(m, m', hw)
  {
    forall k: nat | k < |m.holders| && m.holders[k].Job? && OnHardware(hw, k)
      ensures KeptFor(m.vms, m'.vms, m.holders[k])
    {
      PutVmSpares(m, hw, i, v, m'.vms, k);
    }
  }

  lemma DropSparesAll(m: Mem, m': Mem, hw: Hw, i: nat, v: VmId, b: BoId)
    requires MemInv(m, hw.pipes) && LiveVa(m, v, b) && m'.vms == DropVa(m, v, b).vms
    requires i < |m.holders| && !m.holders[i].Job? && Weight(m.holders[i], OnVa(v, b)) > 0
    requires SameRunning(m.holders, m'.holders, hw)
    ensures Spares(m, m', hw)
  {
    forall k: nat | k < |m.holders| && m.holders[k].Job? && OnHardware(hw, k)
      ensures KeptFor(m.vms, m'.vms, m.holders[k])
    {
      DropSpares(m, hw.pipes, i, v, b, k);
    }
  }

  /** An address space in which every range survives. */
  ghost predicate VmKept(vm: Vm, vm': Vm) {
    ViewSurvives(vm.view, vm'.view) && forall b | b in vm.view.vas :: b in vm'.view.vas
  }

  lemma KeptSpares(m: Mem, m': Mem, hw: Hw)
    requires MemInv(m, hw.pipes) && SameRunning(m.holders, m'.holders, hw)
    requires forall v | v in m.vms :: v in m'.vms && VmKept(m.vms[v], m'.vms[v])
    ensures Spares(m, m', hw)
  {
    forall k: nat | k < |m.holders| && m.holders[k].Job? && OnHardware(hw, k)
      ensures KeptFor(m.vms, m'.vms, m.holders[k])
    {
      JobIsLive(m, hw.pipes, k);
      assert VmKept(m.vms[m.holders[k].vm], m'.vms[m.holders[k].vm]);
    }
  }

  /** Taking or creating a range disturbs nobody. */
  lemma MappedSpares(m: Mem, m': Mem, hw: Hw, v: VmId, b: BoId, start: nat)
    requires MemInv(m, hw.pipes) && v in m.vms && b in m.bos && m'.vms == Mapped(m, v, b, start).vms
    requires b !in m.Vas(v) ==> Free(m.vms[v].view, Offered(m.bos[b], start))
    requires SameRunning(m.holders, m'.holders, hw)
    ensures Spares(m, m', hw)
  {
    assert ViewFits(m, v);
    if b in m.Vas(v) {
      AddRefKept(m.vms[v].view, b);
    } else {
      OpenedKept(m.vms[v].view, b, Offered(m.bos[b], start));
    }
    forall w | w in m.vms ensures VmKept(m.vms[w], m'.vms[w]) {
      assert ViewFits(m, w);
      SelfKept(m.vms[w].view);
    }
    KeptSpares(m, m', hw);
  }

  lemma InstallKept(m: Mem)
    requires ViewsFit(m) && LiveVa(m, m.work.v, m.work.b)
    ensures forall v | v in m.vms :: v in MapMore(m).vms && VmKept(m.vms[v], MapMore(m).vms[v])
  {
    var v, b := m.work.v, m.work.b;
    assert ViewFits(m, v) && RangeFits(m, v, b);
    MoreRoom(m.vms[v].view, b, m.bos[b]);
    ExtendedKept(m.vms[v].view, b, Range(Tail(m.Vas(v)[b], m.bos[b]), m.bos[b].More()));
    forall w | w in m.vms ensures VmKept(m.vms[w], MapMore(m).vms[w]) {
      assert ViewFits(m, w);
      SelfKept(m.vms[w].view);
    }
  }

  lemma InstallFailsKept(m: Mem, done: nat, slots: set<nat>)
    requires ViewsFit(m) && m.work.v in m.vms && m.work.b in m.bos && CanFail(m) && done <= |m.bos[m.work.b].More()|
    ensures forall v | v in m.vms ::
              v in MapUndone(m, done, slots).vms && VmKept(m.vms[v], MapUndone(m, done, slots).vms[v])
  {
    var v, b := m.work.v, m.work.b;
    assert ViewFits(m, v);
    if b in m.Vas(v) {
      assert RangeFits(m, v, b);
      OwnTailUnused(m.vms[v].view, b, Tail(m.Vas(v)[b], m.bos[b]), done);
      UndoneKept(m.vms[v].view, Tail(m.Vas(v)[b], m.bos[b]), done);
    }
    forall w | w in m.vms ensures VmKept(m.vms[w], MapUndone(m, done, slots).vms[w]) {
      assert ViewFits(m, w);
      SelfKept(m.vms[w].view);
    }
  }

  lemma GrowthKept(m: Mem, g: GrowStep)
    requires ViewsFit(m) && BosFit(m) && GrowEnabled(m, g) && GrowDefined(m, g)
    ensures GrowNext(m, g).holders == m.holders
    ensures forall v | v in m.vms :: v in GrowNext(m, g).vms && VmKept(m.vms[v], GrowNext(m, g).vms[v])
  {
    match g
    case InstallPages => InstallKept(m);
    case InstallFails(done, slots) => InstallFailsKept(m, done, slots);
    case _ =>
      assert GrowNext(m, g).vms == m.vms;
      forall w | w in m.vms ensures VmKept(m.vms[w], m.vms[w]) {
        assert ViewFits(m, w);
        SelfKept(m.vms[w].view);
      }
  }

  /**
   Growing a heap under a stalled job: every installed page stays, the mapping takes place only where
   nothing is installed, and one that fails unmaps nothing that is.
   */
  lemma GrowSpares(m: Mem, g: GrowStep, hw: Hw)
    requires MemInv(m, hw.pipes) && GrowEnabled(m, g) && GrowDefined(m, g)
    ensures Spares(m, GrowNext(m, g), hw)
  {
    GrowthKept(m, g);
    KeptSpares(m, GrowNext(m, g), hw);
  }

  // ----- fences, the recovery work, and holders

  lemma PushedRecords(hs: seq<Holder>, h: Holder, fences: map<nat, Fence>, w: Work)
    requires RecordsFit(hs, fences, w)
    ensures RecordsFit(hs + [h], fences, w)
  {}

  lemma SwappedRecords(hs: seq<Holder>, i: nat, h: Holder, fences: map<nat, Fence>, w: Work)
    requires RecordsFit(hs, fences, w) && i < |hs|
    requires h.Freeing? || h.Gone? || !(hs[i].Job? || hs[i].Freeing? || hs[i].Gone?)
    ensures RecordsFit(hs[i := h], fences, w)
  {}

  // ----- steps of the hardware side

  lemma ClaimsFollowVm(m: Mem, pipes: seq<Pipe>, p: nat, pipe: Pipe)
    requires MemInv(m, pipes) && p < |pipes| && pipe.vm == pipes[p].vm
    ensures MemInv(m, pipes[p := pipe])
  {
    var pipes' := pipes[p := pipe];
    forall c ensures CountOk(m, pipes', c) {
      assert CountOk(m, pipes, c);
    }
  }

  /** Interrupts, TLB fills and flushes, and runs given up early: the pipe keeps its job, if any. */
  lemma SameJobKeeps(m: Mem, hw: Hw, p: nat, pipe: Pipe)
    requires HwInv(m, hw) && p < 2
    requires pipe.task == hw.pipes[p].task && pipe.vm == hw.pipes[p].vm
    requires pipe.log == hw.pipes[p].log && pipe.seqno >= hw.pipes[p].seqno
    requires InFlight(hw, p) ==> MmusWalk(pipe.vm.value, pipe.mmus)
    ensures HwInv(m, SetPipe(hw, p, pipe))
  {
    var hw' := SetPipe(hw, p, pipe);
    forall q | 0 <= q < 2 ensures InFlight(hw', q) == InFlight(hw, q) && PipeShape(hw', q) && PipeRuns(m, hw', q) {
      assert q == p || hw'.pipes[q] == hw.pipes[q];
    }
  }

  lemma LogGrows(log: seq<nat>, seqno: nat, ordinal: nat)
    requires LogOk(log, seqno) && After(log, ordinal) && ordinal <= seqno
    ensures LogOk(log + [ordinal], seqno)
  {}

  /** The other pipe does not notice that a fence of this one changed. */
  lemma OtherPipe(m: Mem, hw: Hw, hw': Hw, q: nat)
    requires HwInv(m, hw) && q < 2 && |hw'.pipes| == 2 && hw'.pipes[q] == hw.pipes[q]
    requires forall t | t in hw.fences && hw.fences[t].pipe == q :: t in hw'.fences && hw'.fences[t] == hw.fences[t]
    ensures PipeShape(hw', q) && PipeRuns(m, hw', q) && Busy(hw', q) == Busy(hw, q)
  {}

  /** Normal completion: the fence is signalled, in order, and the PM reference given back. */
  lemma DoneKeeps(m: Mem, hw: Hw, p: nat)
    requires HwInv(m, hw) && p < 2 && InFlight(hw, p)
    ensures hw.pm > 0 && HwInv(m, Signal(hw, p, false, hw.pipes[p], hw.pm - 1, hw.forced))
  {
    var hw' := Signal(hw, p, false, hw.pipes[p], hw.pm - 1, hw.forced);
    assert PipeShape(hw, p);
    LogGrows(hw.pipes[p].log, hw.pipes[p].seqno, hw.fences[hw.pipes[p].task.value].ordinal);
    OtherPipe(m, hw, hw', 1 - p);
    forall t | t in hw'.fences ensures FenceFits(m.holders, t, hw'.fences[t]) {
      assert FenceFits(m.holders, t, hw.fences[t]);
    }
    assert !InFlight(hw', p) && PipeShape(hw', p) && PipeRuns(m, hw', p);
  }

  /** A timed-out job leaves the pipe without a task; its fence stays unsignalled. */
  lemma TimedOutKeeps(m: Mem, hw: Hw, p: nat, hw': Hw)
    requires HwInv(m, hw) && p < 2 && InFlight(hw, p)
    requires |hw'.pipes| == 2 && hw'.pipes[1 - p] == hw.pipes[1 - p] && hw'.fences == hw.fences
    requires hw'.pm == hw.pm - 1 && hw'.forced == hw.forced
    requires hw'.pipes[p].task == None && hw'.pipes[p].vm == None && hw'.pipes[p].log == hw.pipes[p].log
    requires hw'.pipes[p].seqno == hw.pipes[p].seqno
    ensures HwInv(m, hw')
  {
    assert PipeShape(hw, p);
    OtherPipe(m, hw, hw', 1 - p);
    assert PipeShape(hw', p) && PipeRuns(m, hw', p) && Busy(hw', p) == 0;
  }

  lemma StoppedKeeps(m: Mem, hw: Hw, p: nat, fakeWedge: bool)
    requires HwInv(m, hw) && p < 2
    ensures HwInv(m, Stopped(hw, p, fakeWedge))
  {
    var hw' := Stopped(hw, p, fakeWedge);
    StoppedPipe(m, hw, p, fakeWedge);
    OtherPipe(m, hw, hw', 1 - p);
    forall t | t in hw'.fences ensures FenceFits(m.holders, t, hw'.fences[t]) {
      assert FenceFits(m.holders, t, hw.fences[t]);
    }
  }

  lemma StoppedPipe(m: Mem, hw: Hw, p: nat, fakeWedge: bool)
    requires p < |hw.pipes| && PipeShape(hw, p)
    ensures var hw' := Stopped(hw, p, fakeWedge);
            && |hw'.pipes| == |hw.pipes| && PipeShape(hw', p) && PipeRuns(m, hw', p) && Busy(hw', p) == 0
            && hw'.pm == hw.pm && hw'.forced == hw.forced + Busy(hw, p)
  {
    if InFlight(hw, p) {
      LogGrows(hw.pipes[p].log, hw.pipes[p].seqno, hw.fences[hw.pipes[p].task.value].ordinal);
    }
  }

  /** A job started on an idle pipe: a fence newer than all, and MMUs switched to its address space. */
  lemma StartedKeeps(m: Mem, hw: Hw, i: nat, p: nat, v: VmId)
    requires HwInv(m, hw) && p < 2 && !InFlight(hw, p)
    requires i < |m.holders| && m.holders[i].Job? && m.holders[i].pipe == p && m.holders[i].vm == v && v in m.vms
    ensures HwInv(m, Started(hw, p, i, v))
  {
    var hw' := Started(hw, p, i, v);
    assert PipeShape(hw, p);
    forall t | t in hw.fences && hw.fences[t].pipe == 1 - p ensures t in hw'.fences && hw'.fences[t] == hw.fences[t] {
      assert FenceFits(m.holders, t, hw.fences[t]);
    }
    OtherPipe(m, hw, hw', 1 - p);
    forall t | t in hw'.fences ensures FenceFits(m.holders, t, hw'.fences[t]) {
      assert t in hw.fences ==> FenceFits(m.holders, t, hw.fences[t]);
    }
    assert InFlight(hw', p) && PipeShape(hw', p);
    assert PipeRuns(m, hw', p);
  }

  // ----- references of the pipes

  /** Clearing current_vm leaves one reference to put. */
  lemma ClearedOwes(m: Mem, pipes: seq<Pipe>, p: nat, pipe: Pipe)
    requires MemInv(m, pipes) && |pipes| == 2 && p < 2 && pipes[p].vm.Some? && pipe.vm.None?
    ensures Owed(m, pipes[p := pipe], pipes[p].vm.value)
  {
    var pipes', v := pipes[p := pipe], pipes[p].vm.value;
    forall c ensures OwedOk(m, pipes', v, c) {
      assert CountOk(m, pipes, c);
    }
  }

  /** lima_vm_put of current_vm when the pipe stops naming it. */
  lemma PutOldKeeps(m: Mem, pipes: seq<Pipe>, p: nat, pipe: Pipe)
    requires MemInv(m, pipes) && |pipes| == 2 && p < 2 && pipe.vm.None?
    ensures LiveOld(m, pipes[p]) && MemInv(PutOld(m, pipes[p].vm), pipes[p := pipe])
  {
    if pipes[p].vm.Some? {
      ClearedOwes(m, pipes, p, pipe);
      PutVmKeeps(m, pipes[p := pipe], pipes[p].vm.value);
    } else {
      ClaimsFollowVm(m, pipes, p, pipe);
    }
  }

  /** No queued job loses its address space to the pipe's put. */
  lemma PutOldSpares(m: Mem, pipes: seq<Pipe>, p: nat, k: nat)
    requires MemInv(m, pipes) && |pipes| == 2 && p < 2 && LiveOld(m, pipes[p]) && k < |m.holders| && m.holders[k].Job?
    ensures KeptFor(m.vms, PutOld(m, pipes[p].vm).vms, m.holders[k])
  {
    JobIsLive(m, pipes, k);
    HeldVm(m, pipes, k, m.holders[k].vm);
    UnchangedKept(m, pipes, PutOld(m, pipes[p].vm).vms, k);
  }

  lemma PutOldSparesAll(m: Mem, m': Mem, hw: Hw, p: nat)
    requires MemInv(m, hw.pipes) && |hw.pipes| == 2 && p < 2 && LiveOld(m, hw.pipes[p]) && m'.holders == m.holders
    requires forall w | w in PutOld(m, hw.pipes[p].vm).vms ::
               w in m'.vms && SameVm(PutOld(m, hw.pipes[p].vm).vms[w], m'.vms[w])
    ensures Spares(m, m', hw)
  {
    forall k: nat | k < |m.holders| && m.holders[k].Job? && OnHardware(hw, k)
      ensures KeptFor(m.vms, m'.vms, m.holders[k])
    {
      PutOldSpares(m, hw.pipes, p, k);
    }
  }
}
