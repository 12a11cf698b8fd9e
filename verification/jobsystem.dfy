/**
 The whole device as one state machine: address spaces, buffers, submissions, jobs, the two pipes
 (GP and PP) with their MMUs, and the GP's recovery work.  A step is one critical section of the
 source, or one store where the source takes no lock, so the interleavings of handle opens and
 closes, submissions, growths, completions and timeouts are the runs.
 */
module JobSystem {
  import opened Wrappers
  import opened Geometry
  import opened HeapSize
  import opened VmSpec
  import opened Claims

  /**
   struct lima_vm: its address space, its refcount, and the 32 MiB slots that have a backing table.
   `spoiled` remembers whether a deletion has ever left a page mapped in it.
   */
  datatype Vm = Vm(view: View, refs: nat, slots: set<nat>, spoiled: bool)

  /** base.sgt of a buffer: NULL, memory that holds no table, or a table of the first `n` pages. */
  datatype Sg = Absent | Raw | Lists(n: nat)

  /**
   A buffer: the DMA address of each of its pages, how many of them are populated (heap_size, or all
   if it is not a heap), its sg table, its GEM refcount, and whether it can grow.
   */
  datatype Bo = Bo(backing: seq<nat>, populated: nat, sgt: Sg, refs: nat, heap: bool) {
    function WithRefs(n: nat): Bo { Bo(backing, populated, sgt, n, heap) }

    function WithSgt(sg: Sg): Bo { Bo(backing, populated, sg, refs, heap) }

    function Stored(n: nat): Bo { Bo(backing, n, sgt, refs, heap) }

    /** The size of the growth that is due next. */
    function Next(): nat { NextSize(populated, 0, |backing|) }

    /** The pages lima_vm_bo_add finds in the sg table. */
    function Listed(): seq<nat> { if sgt.Lists? && sgt.n <= |backing| then backing[..sgt.n] else [] }

    /** The pages a growth adds. */
    function More(): seq<nat> { if populated <= Next() <= |backing| then backing[populated..Next()] else [] }
  }

  /** Something is populated at creation, and everything if the buffer is not a heap. */
  predicate BoFits(bo: Bo) {
    0 < bo.populated <= |bo.backing| && bo.refs > 0 &&
    (!bo.heap ==> bo.populated == |bo.backing| && bo.sgt == Lists(bo.populated))
  }

  /**
   How far lima_heap_alloc has come: the pages are read; the old table is freed; the new one is in
   place; the new pages are mapped; the size is stored.  `Failed`: the new table could not be mapped for
   DMA or for the GPU; `Failing`: its memory has been freed and base.sgt not yet cleared.
   */
  datatype Stage = Idle | Reading | Dropped | Swapped | Installed | Stored | Failed | Failing

  /** recover_work of the GP pipe: whether it is scheduled, and what a run of it is working on. */
  datatype Work = Work(pending: bool, job: nat, v: VmId, b: BoId, stage: Stage) {
    predicate Names(w: VmId) { !stage.Idle? && v == w }

    predicate NamesBo(c: BoId) { !stage.Idle? && b == c }
  }

  /**
   The memory side.  `missed` remembers the (address space, buffer) pairs for which the buffer, a
   heap, has grown without its new pages being installed here.
   */
  datatype Mem = Mem(vms: map<VmId, Vm>, bos: map<BoId, Bo>, holders: seq<Holder>, missed: set<(VmId, BoId)>,
                     work: Work) {
    function Table(v: VmId): Table
      requires v in vms
    {
      vms[v].view.table
    }

    function Vas(v: VmId): Vas
      requires v in vms
    {
      vms[v].view.vas
    }
  }

  /** The fence of a job's latest run: its place in the pipe's creation order, and its outcome. */
  datatype Fence = Fence(pipe: nat, ordinal: nat, signaled: bool, error: bool)

  /** One MMU: the address space in its DTE register, and the translations it has cached. */
  datatype Mmu = Mmu(dte: Option<VmId>, tlb: Table)

  /**
   struct lima_sched_pipe.  `log` lists the ordinals of the fences signalled so far; `stopped`: the
   scheduler thread is parked.
   */
  datatype Pipe = Pipe(task: Option<nat>, vm: Option<VmId>, error: bool, seqno: nat, log: seq<nat>,
                       mmus: seq<Mmu>, stopped: bool)

  /** `pm` is the runtime-PM use count; `forced` counts teardowns that found a job still running. */
  datatype Hw = Hw(pipes: seq<Pipe>, fences: map<nat, Fence>, pm: nat, forced: nat)

  datatype State = State(mem: Mem, hw: Hw)

  // ----- reference counting on the memory side

  function Hold(m: Mem, h: Holder): Mem { Mem(m.vms, m.bos, m.holders + [h], m.missed, m.work) }

  function Swap(m: Mem, i: nat, h: Holder): Mem
    requires i < |m.holders|
  {
    Mem(m.vms, m.bos, m.holders[i := h], m.missed, m.work)
  }

  function WithVm(m: Mem, v: VmId, vm: Vm): Mem { Mem(m.vms[v := vm], m.bos, m.holders, m.missed, m.work) }

  function Recounted(vm: Vm, refs: nat): Vm { Vm(vm.view, refs, vm.slots, vm.spoiled) }

  /** lima_vm_get */
  function GetVm(m: Mem, v: VmId): Mem
    requires v in m.vms
  {
    WithVm(m, v, Recounted(m.vms[v], m.vms[v].refs + 1))
  }

  /** lima_vm_put: the last reference releases the address space. */
  function PutVm(m: Mem, v: VmId): Mem
    requires v in m.vms
  {
    if m.vms[v].refs > 1
    then WithVm(m, v, Recounted(m.vms[v], m.vms[v].refs - 1))
    else Mem(m.vms - {v}, m.bos, m.holders, m.missed, m.work)
  }

  /** drm_gem_object_get on each of `objs`. */
  function GetBos(m: Mem, objs: seq<BoId>): Mem {
    Mem(m.vms, map b | b in m.bos :: m.bos[b].WithRefs(m.bos[b].refs + Times(objs, b)),
        m.holders, m.missed, m.work)
  }

  /** drm_gem_object_put on each of `objs`: the last reference frees the buffer. */
  function PutBos(m: Mem, objs: seq<BoId>): Mem {
    Mem(m.vms,
        map b | b in m.bos && m.bos[b].refs > Times(objs, b) ::
          m.bos[b].WithRefs(m.bos[b].refs - Times(objs, b)),
        m.holders, m.missed, m.work)
  }

  /** The 32 MiB slot a page lies in. */
  function Slot(p: nat): nat { p / BT_ENTRIES }

  function SlotsOf(part: Table): set<nat> { set p | p in part :: Slot(p) }

  /** The first `n` pages from `start` have backing tables, and the u32 loop that unmaps them ends. */
  ghost predicate CanClear(slots: set<nat>, start: nat, n: nat) {
    start + n < PAGE_COUNT && forall p: nat | Between(start, p, n) :: Slot(p) in slots
  }

  /** lima_vm_bo_add on an existing range. */
  function RefVa(m: Mem, v: VmId, b: BoId): Mem
    requires v in m.vms && b in m.Vas(v)
  {
    WithVm(m, v, Vm(AddRef(m.vms[v].view, b), m.vms[v].refs, m.vms[v].slots, m.vms[v].spoiled))
  }

  /** The node drm_mm offers for buffer `b`, with every page of its sg table. */
  function Offered(bo: Bo, start: nat): Node { Node(start, |bo.backing|, 1, Range(start, bo.Listed())) }

  /** An address space in which buffer `b` is given a range. */
  function Opened(vm: Vm, b: BoId, n: Node): Vm {
    Vm(Insert(vm.view, b, n), vm.refs, vm.slots + SlotsOf(n.pages), vm.spoiled)
  }

  /** lima_vm_bo_add creating the range: every listed page is installed. */
  function NewVa(m: Mem, v: VmId, b: BoId, start: nat): Mem
    requires v in m.vms && b in m.bos
  {
    Mem(m.vms[v := Opened(m.vms[v], b, Offered(m.bos[b], start))], m.bos, m.holders,
        if |m.bos[b].Listed()| < m.bos[b].populated then m.missed + {(v, b)} else m.missed, m.work)
  }

  /** lima_vm_bo_add when it succeeds. */
  function Mapped(m: Mem, v: VmId, b: BoId, start: nat): Mem
    requires v in m.vms && b in m.bos
  {
    if b in m.Vas(v) then RefVa(m, v, b) else NewVa(m, v, b, start)
  }

  /** lima_vm_bo_del on an address space; the last user's unmaps `cut` pages. */
  function Deleted(vm: Vm, b: BoId, cut: nat): Vm
    requires b in vm.view.vas
  {
    var n := vm.view.vas[b];
    Vm(Drop(vm.view, b, cut), vm.refs, vm.slots, vm.spoiled || (n.refs <= 1 && Overhangs(n, cut)))
  }

  /** lima_vm_bo_del */
  function DropVa(m: Mem, v: VmId, b: BoId): Mem
    requires v in m.vms && b in m.Vas(v) && b in m.bos
  {
    Mem(m.vms[v := Deleted(m.vms[v], b, m.bos[b].populated)], m.bos, m.holders,
        if m.Vas(v)[b].refs > 1 then m.missed else m.missed - {(v, b)}, m.work)
  }

  // ----- growing a heap

  /** The GPU page after the populated part of a buffer. */
  function Tail(n: Node, bo: Bo): nat { n.start + bo.populated }

  function AtStage(m: Mem, stage: Stage): Mem {
    Mem(m.vms, m.bos, m.holders, m.missed, Work(m.work.pending, m.work.job, m.work.v, m.work.b, stage))
  }

  /** The sg table of the heap being grown is replaced. */
  function Retabled(m: Mem, sg: Sg, stage: Stage): Mem
    requires m.work.b in m.bos
  {
    AtStage(Mem(m.vms, m.bos[m.work.b := m.bos[m.work.b].WithSgt(sg)], m.holders, m.missed, m.work), stage)
  }

  function Extended(vm: Vm, b: BoId, part: Table): Vm
    requires b in vm.view.vas
  {
    Vm(Extend(vm.view, b, part), vm.refs, vm.slots + SlotsOf(part), vm.spoiled)
  }

  /** lima_vm_map_bo on the address space of the stalled job. */
  function MapMore(m: Mem): Mem
    requires m.work.v in m.vms && m.work.b in m.bos && m.work.b in m.Vas(m.work.v)
  {
    var v, b := m.work.v, m.work.b;
    WithVm(m, v, Extended(m.vms[v], b, Range(Tail(m.Vas(v)[b], m.bos[b]), m.bos[b].More())))
  }

  /** A mapping loop that fails after `done` pages unmaps them again; new backing tables stay. */
  function Undone(vm: Vm, start: nat, done: nat, slots: set<nat>): Vm {
    Vm(View(Cut(vm.view.table, start, done), vm.view.vas, vm.view.reserved), vm.refs, vm.slots + slots, vm.spoiled)
  }

  /** The same when it fails; without a range it fails at once. */
  function MapUndone(m: Mem, done: nat, slots: set<nat>): Mem
    requires m.work.v in m.vms && m.work.b in m.bos
  {
    var v, b := m.work.v, m.work.b;
    if b in m.Vas(v) then WithVm(m, v, Undone(m.vms[v], Tail(m.Vas(v)[b], m.bos[b]), done, slots)) else m
  }

  /** The address spaces in which the next page of the heap is not installed. */
  function Behind(m: Mem, b: BoId): set<(VmId, BoId)>
    requires b in m.bos
  {
    set w | w in m.vms && b in m.Vas(w) && Tail(m.Vas(w)[b], m.bos[b]) !in m.Vas(w)[b].pages :: (w, b)
  }

  /** `bo->heap_size = new_size` */
  function Grown(m: Mem): Mem
    requires m.work.b in m.bos
  {
    var b := m.work.b;
    Mem(m.vms, m.bos[b := m.bos[b].Stored(m.bos[b].Next())], m.holders, m.missed + Behind(m, b), m.work)
  }

  // ----- pipes

  function Running(p: Pipe, fences: map<nat, Fence>): bool {
    p.task.Some? && p.task.value in fences && !fences[p.task.value].signaled
  }

  /** pipe_task_in_flight, without the fake_wedge switch. */
  predicate InFlight(hw: Hw, p: nat)
    requires p < |hw.pipes|
  {
    Running(hw.pipes[p], hw.fences)
  }

  function Names(p: Pipe, v: VmId): nat { Bit(p.vm == Some(v)) }

  function PipeClaims(pipes: seq<Pipe>, c: Claim): nat {
    if |pipes| == 2 && c.OnVm? then Names(pipes[0], c.v) + Names(pipes[1], c.v) else 0
  }

  function PutOld(m: Mem, vm: Option<VmId>): Mem
    requires vm.Some? ==> vm.value in m.vms
  {
    match vm
    case None => m
    case Some(v) => PutVm(m, v)
  }

  function Zapped(mmus: seq<Mmu>, dte: Option<VmId>): seq<Mmu> {
    seq(|mmus|, _ => Mmu(dte, map[]))
  }

  function Flushed(mmus: seq<Mmu>): (r: seq<Mmu>) {
    seq(|mmus|, j requires 0 <= j < |mmus| => Mmu(mmus[j].dte, map[]))
  }

  function SetPipe(hw: Hw, p: nat, pipe: Pipe): Hw
    requires p < |hw.pipes|
  {
    Hw(hw.pipes[p := pipe], hw.fences, hw.pm, hw.forced)
  }

  // ----- steps

  /**
   The steps of a recovery that grows its heap (lima_heap_alloc).  Only the mapping of the new pages
   holds the buffer's lock; the stores to base.sgt and heap_size are made without any.
   */
  datatype GrowStep =
    | GiveUp                                         // no page array, a page that cannot be read, no sg list
    | DropTable(ok: bool)                            // the old table is freed, or memory for the first one is had
    | DmaFails
    | SwapTable                                      // the new table is mapped for DMA and stored
    | InstallPages                                   // lima_vm_map_bo
    | InstallFails(done: nat, slots: set<nat>)
    | StoreSize                                      // bo->heap_size = new_size
    | FreeTable                                      // kfree(bo->base.sgt)
    | ClearTable                                     // bo->base.sgt = NULL
    | EndRecover                                     // lima_gp_task_recover reads the size through the task

  datatype Step =
    | OpenFile(v: VmId, reserved: Table)
    | CloseFile(i: nat)
    | CreateBo(b: BoId, bo: Bo)
    | DropCreated(i: nat)
    | OpenHandle(v: VmId, b: BoId, start: nat)
    | FailedOpen(v: VmId, b: BoId, start: nat, done: nat, slots: set<nat>)
    | CloseHandle(i: nat)
    | MapUser(b: BoId)
    | UnmapUser(i: nat)
    | BeginOpen(v: VmId, b: BoId)
    | EndOpen(i: nat)
    | BeginSubmit(v: VmId)
    | AddToSubmit(i: nat, b: BoId)
    | UnwindSubmit(i: nat)
    | EndSubmit(i: nat)
    | JobInitFails(i: nat)
    | Queue(i: nat, pipe: nat, heap: Option<BoId>)
    | BeginFree(i: nat)
    | FreeOne(i: nat)
    | EndFree(i: nat)
    | SkipRun(i: nat, fenced: bool)
    | StartRun(i: nat)
    | Fill(p: nat, j: nat, page: nat)
    | Scramble(p: nat, mmus: seq<Mmu>)
    | Interrupt(p: nat, error: bool)
    | Done(p: nat)
    | ScheduleWork
    | FlushTlb
    | BeginRecover(grow: bool)
    | Recovery(g: GrowStep)
    | TimedOut(p: nat, mmus: seq<Mmu>)
    | Stop(p: nat, fakeWedge: bool)
    | Park(p: nat)

  /** Holder `i` is one of the kinds that only exist while the file of address space `v` is open. */
  predicate NeedsFile(h: Holder, v: VmId) { (h.Opening? || h.Handle? || h.Submitting?) && h.vm == v }

  predicate FileOpen(hs: seq<Holder>, v: VmId) { File(v) in hs }

  predicate OnHardware(hw: Hw, i: nat) {
    exists p :: 0 <= p < |hw.pipes| && hw.pipes[p].task == Some(i) && InFlight(hw, p)
  }

  predicate IsPipe(hw: Hw, p: nat) { p < |hw.pipes| }

  /** drm_mm can offer a range for buffer `b`, if it has none yet. */
  ghost predicate CanOpen(m: Mem, v: VmId, b: BoId, start: nat) {
    && FileOpen(m.holders, v) && b in m.bos
    && (v in m.vms && b !in m.Vas(v) ==> Free(m.vms[v].view, Offered(m.bos[b], start)))
  }

  /** The GP's current task, if that is a queued job with a heap. */
  predicate HeapTask(s: State) {
    && IsPipe(s.hw, 0) && s.hw.pipes[0].task.Some? && s.hw.pipes[0].task.value < |s.mem.holders|
    && s.mem.holders[s.hw.pipes[0].task.value].Job? && s.mem.holders[s.hw.pipes[0].task.value].heap.Some?
  }

  /** The heap's range, if it has one, lacks the next page.  Pages that are installed can be installed again. */
  predicate CanFail(m: Mem) {
    m.work.v in m.vms && m.work.b in m.bos && m.work.b in m.Vas(m.work.v) ==>
      Tail(m.Vas(m.work.v)[m.work.b], m.bos[m.work.b]) !in m.Vas(m.work.v)[m.work.b].pages
  }

  /** The task is a queued job, not yet being freed. */
  predicate TaskLives(m: Mem, task: nat) { task < |m.holders| && m.holders[task].Job? }

  /** Some lima_vm_bo_add is reading the sg table of buffer `b`, and holds its lock. */
  predicate Walked(m: Mem, b: BoId) {
    exists i :: 0 <= i < |m.holders| && m.holders[i].Opening? && m.holders[i].bo == b
  }

  /** The step frees the sg table, or its list. */
  predicate FreesTable(m: Mem, g: GrowStep) {
    m.work.b in m.bos && m.bos[m.work.b].sgt.Lists? && (g.DropTable? || g.FreeTable?)
  }

  /** Where in lima_heap_alloc each step is taken. */
  predicate GrowEnabled(m: Mem, g: GrowStep) {
    match g
    case GiveUp => m.work.stage.Reading?
    case DropTable(ok) => m.work.stage.Reading?
    case DmaFails => m.work.stage.Dropped?
    case SwapTable => m.work.stage.Dropped?
    case InstallPages =>
      m.work.stage.Swapped? && !Walked(m, m.work.b) && (m.work.v in m.vms ==> m.work.b in m.Vas(m.work.v))
    case InstallFails(done, slots) =>
      m.work.stage.Swapped? && !Walked(m, m.work.b) && CanFail(m) &&
      (m.work.b in m.bos ==> done < |m.bos[m.work.b].More()|)
    case StoreSize => m.work.stage.Installed?
    case FreeTable => m.work.stage.Failed?
    case ClearTable => m.work.stage.Failing?
    case EndRecover => m.work.stage.Stored?
  }

  /**
   What it follows pointers to: the heap always; for the mapping the address space, at the end the task.
   And it must not free the sg table under somebody who reads it.
   */
  predicate GrowDefined(m: Mem, g: GrowStep) {
    m.work.b in m.bos && (FreesTable(m, g) ==> !Walked(m, m.work.b)) &&
    match g
    case InstallPages => m.work.v in m.vms
    case InstallFails(_, _) => m.work.v in m.vms
    case EndRecover => TaskLives(m, m.work.job)
    case _ => true
  }

  function GrowNext(m: Mem, g: GrowStep): Mem
    requires GrowEnabled(m, g) && GrowDefined(m, g)
  {
    match g
    case GiveUp => AtStage(m, Idle)
    case DropTable(ok) =>
      if m.bos[m.work.b].sgt.Lists? then Retabled(m, Lists(0), Dropped)
      else if ok then Retabled(m, Raw, Dropped)
      else AtStage(m, Idle)
    case DmaFails => AtStage(m, Failed)
    case SwapTable => Retabled(m, Lists(m.bos[m.work.b].Next()), Swapped)
    case InstallPages => AtStage(MapMore(m), Installed)
    case InstallFails(done, slots) => AtStage(MapUndone(m, done, slots), Failed)
    case StoreSize => AtStage(Grown(m), Stored)
    case FreeTable => Retabled(m, Raw, Failing)
    case ClearTable => Retabled(m, Absent, Idle)
    case EndRecover => AtStage(m, Idle)
  }

  predicate FileStep(st: Step) {
    || st.OpenFile? || st.CloseFile? || st.CreateBo? || st.DropCreated? || st.OpenHandle? || st.FailedOpen?
    || st.CloseHandle? || st.MapUser? || st.UnmapUser? || st.BeginOpen? || st.EndOpen?
  }

  predicate JobStep(st: Step) {
    || st.BeginSubmit? || st.AddToSubmit? || st.UnwindSubmit? || st.EndSubmit? || st.JobInitFails?
    || st.Queue? || st.BeginFree? || st.FreeOne? || st.EndFree?
  }

  ghost predicate FileEnabled(m: Mem, st: Step) {
    match st
    case OpenFile(v, reserved) => v !in m.vms && !m.work.Names(v)
    case CloseFile(i) =>
      i < |m.holders| && m.holders[i].File? &&
      forall k | 0 <= k < |m.holders| :: !NeedsFile(m.holders[k], m.holders[i].vm)
    case CreateBo(b, bo) =>
      b !in m.bos && !m.work.NamesBo(b) && BoFits(bo) && bo.refs == 1 && bo.sgt == Lists(bo.populated)
    case DropCreated(i) => i < |m.holders| && m.holders[i].Creating?
    case OpenHandle(v, b, start) => CanOpen(m, v, b, start)
    case FailedOpen(v, b, start, done, slots) =>
      CanOpen(m, v, b, start) && (v in m.vms ==> b !in m.Vas(v)) && done <= |m.bos[b].Listed()|
    case CloseHandle(i) => i < |m.holders| && m.holders[i].Handle?
    case MapUser(b) => b in m.bos
    case UnmapUser(i) => i < |m.holders| && m.holders[i].Mapping?
    case BeginOpen(v, b) => FileOpen(m.holders, v) && b in m.bos && m.bos[b].Listed() != []
    case EndOpen(i) => i < |m.holders| && m.holders[i].Opening?
    case _ => false
  }

  predicate JobEnabled(m: Mem, hw: Hw, st: Step) {
    match st
    case BeginSubmit(v) => FileOpen(m.holders, v)
    case AddToSubmit(i, b) =>
      i < |m.holders| && m.holders[i].Submitting? && (m.holders[i].vm in m.vms ==> b in m.Vas(m.holders[i].vm))
    case UnwindSubmit(i) => i < |m.holders| && m.holders[i].Submitting? && m.holders[i].bos != []
    case EndSubmit(i) => i < |m.holders| && m.holders[i].Submitting? && m.holders[i].bos == []
    case JobInitFails(i) => i < |m.holders| && m.holders[i].Submitting?
    case Queue(i, pipe, heap) =>
      i < |m.holders| && m.holders[i].Submitting? && IsPipe(hw, pipe) &&
      (heap.Some? ==> pipe == 0 && heap.value in m.holders[i].bos)
    case BeginFree(i) => i < |m.holders| && m.holders[i].Job? && !OnHardware(hw, i)
    case FreeOne(i) => i < |m.holders| && m.holders[i].Freeing? && m.holders[i].bos != []
    case EndFree(i) => i < |m.holders| && m.holders[i].Freeing? && m.holders[i].bos == []
    case _ => false
  }

  predicate PipeEnabled(s: State, st: Step) {
    var m, hw := s.mem, s.hw;
    match st
    case SkipRun(i, _) =>
      i < |m.holders| && m.holders[i].Job? && IsPipe(hw, m.holders[i].pipe) && !InFlight(hw, m.holders[i].pipe)
    case StartRun(i) =>
      i < |m.holders| && m.holders[i].Job? && IsPipe(hw, m.holders[i].pipe) &&
      !InFlight(hw, m.holders[i].pipe) && !hw.pipes[m.holders[i].pipe].stopped
    case Fill(p, j, page) => IsPipe(hw, p) && InFlight(hw, p) && j < |hw.pipes[p].mmus|
    case Scramble(p, mmus) => IsPipe(hw, p) && !InFlight(hw, p)
    case Interrupt(p, error) =>
      IsPipe(hw, p) && InFlight(hw, p) && (!error ==> p == 0)  // only the GP's handler clears the flag
    case Done(p) => IsPipe(hw, p) && InFlight(hw, p) && !hw.pipes[p].error
    case ScheduleWork => HeapTask(s) && InFlight(hw, 0) && hw.pipes[0].error
    case FlushTlb => IsPipe(hw, 0) && m.work.pending
    case BeginRecover(grow) => IsPipe(hw, 0) && m.work.pending && m.work.stage.Idle?
    case Recovery(g) => GrowEnabled(m, g)
    case TimedOut(p, mmus) => IsPipe(hw, p) && InFlight(hw, p)
    case Stop(p, fakeWedge) => IsPipe(hw, p) && !hw.pipes[p].stopped
    case Park(p) => IsPipe(hw, p)
    case _ => false
  }

  /**
   When the environment may take a step: what DRM, the job scheduler, drm_mm and the hardware
   promise.  Nothing here says that a pointer is still valid; that is `Defined`.
   */
  ghost predicate Enabled(s: State, st: Step) {
    if FileStep(st) then FileEnabled(s.mem, st)
    else if JobStep(st) then JobEnabled(s.mem, s.hw, st)
    else PipeEnabled(s, st)
  }

  predicate LiveVa(m: Mem, v: VmId, b: BoId) { v in m.vms && b in m.bos && b in m.Vas(v) }

  /** The deletion is not the last, or each page it unmaps has a backing table and its loop ends. */
  ghost predicate CanDelete(m: Mem, v: VmId, b: BoId)
    requires LiveVa(m, v, b)
  {
    m.Vas(v)[b].refs > 1 || CanClear(m.vms[v].slots, m.Vas(v)[b].start, m.bos[b].populated)
  }

  /** lima_vm_bo_add has what it needs: a range to count, or a table to read. */
  predicate CanMap(m: Mem, v: VmId, b: BoId)
    requires v in m.vms && b in m.bos
  {
    b in m.Vas(v) || m.bos[b].sgt.Lists?
  }

  /** The pipe's address space, if it has one, has not been released. */
  predicate LiveOld(m: Mem, p: Pipe) { p.vm.Some? ==> p.vm.value in m.vms }

  ghost predicate FileDefined(m: Mem, st: Step)
    requires FileEnabled(m, st)
  {
    match st
    case CloseFile(i) => m.holders[i].vm in m.vms
    case DropCreated(i) => m.holders[i].bo in m.bos
    case OpenHandle(v, b, start) => v in m.vms && CanMap(m, v, b)
    case FailedOpen(v, b, _, _, _) => v in m.vms && CanMap(m, v, b)
    case CloseHandle(i) =>
      LiveVa(m, m.holders[i].vm, m.holders[i].bo) && CanDelete(m, m.holders[i].vm, m.holders[i].bo)
    case UnmapUser(i) => m.holders[i].bo in m.bos
    case BeginOpen(v, b) => v in m.vms
    case EndOpen(i) => m.holders[i].bo in m.bos
    case _ => true
  }

  ghost predicate JobDefined(m: Mem, hw: Hw, st: Step)
    requires JobEnabled(m, hw, st)
  {
    match st
    case AddToSubmit(i, b) => LiveVa(m, m.holders[i].vm, b)
    case UnwindSubmit(i) =>
      LiveVa(m, m.holders[i].vm, m.holders[i].bos[0]) && CanDelete(m, m.holders[i].vm, m.holders[i].bos[0])
    case JobInitFails(i) => forall b | b in m.holders[i].bos :: b in m.bos
    case Queue(i, _, _) => m.holders[i].vm in m.vms
    case FreeOne(i) =>
      LiveVa(m, m.holders[i].vm, m.holders[i].bos[0]) && CanDelete(m, m.holders[i].vm, m.holders[i].bos[0])
    case EndFree(i) => m.holders[i].vm in m.vms && forall b | b in m.holders[i].objs :: b in m.bos
    case _ => true
  }

  ghost predicate PipeDefined(s: State, st: Step)
    requires PipeEnabled(s, st)
  {
    var m, hw := s.mem, s.hw;
    match st
    case StartRun(i) =>
      LiveOld(m, hw.pipes[m.holders[i].pipe]) && m.holders[i].vm in PutOld(m, hw.pipes[m.holders[i].pipe].vm).vms
    case Fill(p, j, page) => hw.pipes[p].mmus[j].dte.Some? && hw.pipes[p].mmus[j].dte.value in m.vms
    case Done(p) => TaskLives(m, hw.pipes[p].task.value) && hw.pm > 0
    case BeginRecover(_) =>
      HeapTask(s) &&
      var job := m.holders[hw.pipes[0].task.value];
      job.vm in m.vms && job.heap.value in m.bos
    case Recovery(g) => GrowDefined(m, g)
    case TimedOut(p, _) =>
      TaskLives(m, hw.pipes[p].task.value) && hw.pipes[p].vm.Some? && hw.pipes[p].vm.value in m.vms && hw.pm > 0
    case Stop(p, _) =>
      hw.pipes[p].task.Some? ==>
        TaskLives(m, hw.pipes[p].task.value) && hw.pipes[p].vm.Some? && hw.pipes[p].vm.value in m.vms
    case _ => true
  }

  /**
   Everything the step follows a pointer to still exists: address spaces, ranges, buffers, tasks,
   backing tables and sg tables; and the PM count it drops is not already zero.
   */
  ghost predicate Defined(s: State, st: Step)
    requires Enabled(s, st)
  {
    if FileStep(st) then FileDefined(s.mem, st)
    else if JobStep(st) then JobDefined(s.mem, s.hw, st)
    else PipeDefined(s, st)
  }

  function FileNext(m: Mem, st: Step): Mem
    requires FileEnabled(m, st) && FileDefined(m, st)
  {
    match st
    case OpenFile(v, reserved) => Hold(WithVm(m, v, NewVm(reserved)), File(v))
    case CloseFile(i) => PutVm(Swap(m, i, Gone), m.holders[i].vm)
    case CreateBo(b, bo) => Hold(WithBo(m, b, bo), Creating(b))
    case DropCreated(i) => PutBos(Swap(m, i, Gone), [m.holders[i].bo])
    case OpenHandle(v, b, start) => Hold(GetBos(Mapped(m, v, b, start), [b]), Handle(v, b))
    case FailedOpen(v, b, start, done, slots) => WithVm(m, v, Undone(m.vms[v], start, done, slots))
    case CloseHandle(i) =>
      PutBos(DropVa(Swap(m, i, Gone), m.holders[i].vm, m.holders[i].bo), [m.holders[i].bo])
    case MapUser(b) => Hold(GetBos(m, [b]), Mapping(b))
    case UnmapUser(i) => PutBos(Swap(m, i, Gone), [m.holders[i].bo])
    case BeginOpen(v, b) => Hold(GetBos(m, [b]), Opening(v, b))
    case EndOpen(i) => PutBos(Swap(m, i, Gone), [m.holders[i].bo])
    case _ => m
  }

  function JobNext(m: Mem, hw: Hw, st: Step): Mem
    requires JobEnabled(m, hw, st) && JobDefined(m, hw, st)
  {
    match st
    case BeginSubmit(v) => Hold(m, Submitting(v, []))
    case AddToSubmit(i, b) =>
      Swap(GetBos(RefVa(m, m.holders[i].vm, b), [b]), i, Submitting(m.holders[i].vm, m.holders[i].bos + [b]))
    case UnwindSubmit(i) =>
      var h := m.holders[i];
      PutBos(DropVa(Swap(m, i, Submitting(h.vm, h.bos[1..])), h.vm, h.bos[0]), [h.bos[0]])
    case EndSubmit(i) => Swap(m, i, Gone)
    case JobInitFails(i) => Hold(GetBos(m, m.holders[i].bos), Leaked(m.holders[i].bos))
    case Queue(i, pipe, heap) =>
      GetVm(Swap(m, i, Job(m.holders[i].vm, pipe, m.holders[i].bos, heap)), m.holders[i].vm)
    case BeginFree(i) => Swap(m, i, Freeing(m.holders[i].vm, m.holders[i].bos, m.holders[i].bos))
    case FreeOne(i) =>
      var h := m.holders[i];
      DropVa(Swap(m, i, Freeing(h.vm, h.bos[1..], h.objs)), h.vm, h.bos[0])
    case EndFree(i) => PutVm(PutBos(Swap(m, i, Gone), m.holders[i].objs), m.holders[i].vm)
    case _ => m
  }

  function PipeNext(s: State, st: Step): Mem
    requires PipeEnabled(s, st) && PipeDefined(s, st)
  {
    var m, hw := s.mem, s.hw;
    match st
    case StartRun(i) => GetVm(PutOld(m, hw.pipes[m.holders[i].pipe].vm), m.holders[i].vm)
    case ScheduleWork => WithWork(m, Work(true, m.work.job, m.work.v, m.work.b, m.work.stage))
    case BeginRecover(grow) =>
      var i := hw.pipes[0].task.value;
      WithWork(m, Recovering(m, i, m.holders[i].vm, m.holders[i].heap.value, grow))
    case Recovery(g) => GrowNext(m, g)
    case TimedOut(p, _) => PutOld(m, hw.pipes[p].vm)
    case Stop(p, _) => if hw.pipes[p].task.Some? then PutOld(m, hw.pipes[p].vm) else m
    case _ => m
  }

  /** The next state of the memory side. */
  function NextMem(s: State, st: Step): Mem
    requires Enabled(s, st) && Defined(s, st)
  {
    if FileStep(st) then FileNext(s.mem, st)
    else if JobStep(st) then JobNext(s.mem, s.hw, st)
    else PipeNext(s, st)
  }

  function NewVm(reserved: Table): Vm { Vm(Create(reserved), 1, SlotsOf(reserved), false) }

  function WithBo(m: Mem, b: BoId, bo: Bo): Mem { Mem(m.vms, m.bos[b := bo], m.holders, m.missed, m.work) }

  function WithWork(m: Mem, w: Work): Mem { Mem(m.vms, m.bos, m.holders, m.missed, w) }

  /** The recovery of task `i` starts to grow its heap, or finds nothing to grow. */
  function Recovering(m: Mem, i: nat, v: VmId, b: BoId, grow: bool): Work
    requires b in m.bos
  {
    if grow && m.bos[b].populated < |m.bos[b].backing| then Work(false, i, v, b, Reading)
    else Work(false, m.work.job, m.work.v, m.work.b, Idle)
  }

  /** lima_sched_run_job past its early returns: a new fence, a PM reference, and the MMUs switched and zapped. */
  function Started(hw: Hw, p: nat, i: nat, v: VmId): Hw
    requires p < |hw.pipes|
  {
    var pipe := hw.pipes[p];
    Hw(hw.pipes[p := Pipe(Some(i), Some(v), false, pipe.seqno + 1, pipe.log, Zapped(pipe.mmus, Some(v)), pipe.stopped)],
       hw.fences[i := Fence(p, pipe.seqno + 1, false, false)], hw.pm + 1, hw.forced)
  }

  function CurrentFence(hw: Hw, p: nat): Fence
    requires p < |hw.pipes| && hw.pipes[p].task.Some? && hw.pipes[p].task.value in hw.fences
  {
    hw.fences[hw.pipes[p].task.value]
  }

  /** dma_fence_signal on the current task's fence. */
  function Signal(hw: Hw, p: nat, error: bool, pipe: Pipe, pm: nat, forced: nat): Hw
    requires p < |hw.pipes| && hw.pipes[p].task.Some? && hw.pipes[p].task.value in hw.fences
  {
    var f := CurrentFence(hw, p);
    var log := if f.signaled then pipe.log else pipe.log + [f.ordinal];
    Hw(hw.pipes[p := Pipe(pipe.task, pipe.vm, pipe.error, pipe.seqno, log, pipe.mmus, pipe.stopped)],
       hw.fences[hw.pipes[p].task.value := Fence(f.pipe, f.ordinal, true, f.error || error)], pm, forced)
  }

  /** lima_sched_pipe_fini after its wait loop, up to drm_sched_stop. */
  function Stopped(hw: Hw, p: nat, fakeWedge: bool): Hw
    requires p < |hw.pipes|
  {
    var pipe := hw.pipes[p];
    var off := Pipe(None, None, pipe.error, pipe.seqno, pipe.log, pipe.mmus, pipe.stopped);
    if pipe.task.Some? && pipe.task.value in hw.fences && (fakeWedge || InFlight(hw, p)) then
      Signal(hw, p, true, Pipe(None, None, true, pipe.seqno, pipe.log, pipe.mmus, pipe.stopped), hw.pm,
             if InFlight(hw, p) then hw.forced + 1 else hw.forced)
    else SetPipe(hw, p, off)
  }

  /** drm_sched_stop: no further job is started. */
  function Parked(hw: Hw, p: nat): Hw
    requires p < |hw.pipes|
  {
    var pipe := hw.pipes[p];
    SetPipe(hw, p, Pipe(pipe.task, pipe.vm, pipe.error, pipe.seqno, pipe.log, pipe.mmus, true))
  }

  function WithMmus(hw: Hw, p: nat, mmus: seq<Mmu>): Hw
    requires p < |hw.pipes|
  {
    var pipe := hw.pipes[p];
    SetPipe(hw, p, Pipe(pipe.task, pipe.vm, pipe.error, pipe.seqno, pipe.log, mmus, pipe.stopped))
  }

  function PipeNextHw(s: State, st: Step): Hw
    requires PipeEnabled(s, st) && PipeDefined(s, st)
  {
    var m, hw := s.mem, s.hw;
    match st
    case SkipRun(i, fenced) =>
      var pipe := hw.pipes[m.holders[i].pipe];
      SetPipe(hw, m.holders[i].pipe,
              Pipe(pipe.task, pipe.vm, pipe.error, if fenced then pipe.seqno + 1 else pipe.seqno, pipe.log,
                   pipe.mmus, pipe.stopped))
    case StartRun(i) => Started(hw, m.holders[i].pipe, i, m.holders[i].vm)
    case Fill(p, j, page) =>
      var pipe, mmu := hw.pipes[p], hw.pipes[p].mmus[j];
      var table := m.Table(mmu.dte.value);
      var tlb := if page in table then mmu.tlb[page := table[page]] else mmu.tlb;
      WithMmus(hw, p, pipe.mmus[j := Mmu(mmu.dte, tlb)])
    case Scramble(p, mmus) => WithMmus(hw, p, mmus)
    case Interrupt(p, error) =>
      var pipe := hw.pipes[p];
      SetPipe(hw, p, Pipe(pipe.task, pipe.vm, error, pipe.seqno, pipe.log, pipe.mmus, pipe.stopped))
    case Done(p) => Signal(hw, p, false, hw.pipes[p], hw.pm - 1, hw.forced)
    case FlushTlb => WithMmus(hw, 0, Flushed(hw.pipes[0].mmus))
    case TimedOut(p, mmus) =>
      var pipe := hw.pipes[p];
      Hw(hw.pipes[p := Pipe(None, None, pipe.error, pipe.seqno, pipe.log, mmus, pipe.stopped)], hw.fences,
         hw.pm - 1, hw.forced)
    case Stop(p, fakeWedge) => Stopped(hw, p, fakeWedge)
    case Park(p) => Parked(hw, p)
    case _ => hw
  }

  function NextHw(s: State, st: Step): Hw
    requires Enabled(s, st) && Defined(s, st)
  {
    if FileStep(st) || JobStep(st) then s.hw else PipeNextHw(s, st)
  }

  ghost function Next(s: State, st: Step): State
    requires Enabled(s, st) && Defined(s, st)
  {
    State(NextMem(s, st), NextHw(s, st))
  }

  /** The state a step leads to; none if it cannot be taken, or follows a pointer to nothing. */
  ghost function Outcome(s: State, st: Step): Option<State> {
    if Enabled(s, st) && Defined(s, st) then Some(Next(s, st)) else None
  }

  ghost predicate FileAvoids(m: Mem, st: Step)
    requires FileEnabled(m, st)
  {
    match st
    case OpenHandle(v, b, _) => v in m.vms ==> CanMap(m, v, b)
    case FailedOpen(v, b, _, _, _) => v in m.vms ==> CanMap(m, v, b)
    case CloseHandle(i) =>
      LiveVa(m, m.holders[i].vm, m.holders[i].bo) ==> CanDelete(m, m.holders[i].vm, m.holders[i].bo)
    case _ => true
  }

  ghost predicate JobAvoids(m: Mem, hw: Hw, st: Step)
    requires JobEnabled(m, hw, st)
  {
    match st
    case UnwindSubmit(i) =>
      LiveVa(m, m.holders[i].vm, m.holders[i].bos[0]) ==> CanDelete(m, m.holders[i].vm, m.holders[i].bos[0])
    case FreeOne(i) =>
      LiveVa(m, m.holders[i].vm, m.holders[i].bos[0]) ==> CanDelete(m, m.holders[i].vm, m.holders[i].bos[0])
    case _ => true
  }

  /** Somebody has a reference on it. */
  predicate Claimed(m: Mem, pipes: seq<Pipe>, c: Claim) { Sum(m.holders, c) + PipeClaims(pipes, c) > 0 }

  /**
   During a recovery: somebody still has a reference on the heap, and, when it is mapped, on the address
   space; the task is not being freed when its end is reached; and nobody reads a table that is freed.
   */
  predicate GrowAvoids(m: Mem, pipes: seq<Pipe>, g: GrowStep) {
    Claimed(m, pipes, OnBo(m.work.b)) && !(FreesTable(m, g) && Walked(m, m.work.b)) &&
    match g
    case InstallPages => Claimed(m, pipes, OnVm(m.work.v))
    case InstallFails(_, _) => Claimed(m, pipes, OnVm(m.work.v))
    case EndRecover => TaskLives(m, m.work.job)
    case _ => true
  }

  ghost predicate PipeAvoids(s: State, st: Step)
    requires PipeEnabled(s, st)
  {
    var m, hw := s.mem, s.hw;
    match st
    case BeginRecover(_) => HeapTask(s)
    case Recovery(g) => GrowAvoids(m, hw.pipes, g)
    case Stop(p, _) => hw.pipes[p].task.Some? ==> TaskLives(m, hw.pipes[p].task.value)
    case _ => true
  }

  /**
   The cases in which the source does follow a pointer that may be gone; nothing else can go wrong.

   - a range is created while base.sgt is NULL or no table (`CanMap`);
   - the last deletion of a range meets a slot that never got a backing table, or the end of the
     4 GiB space (`CanDelete`);
   - the recovery starts when the current task is gone, or has no heap;
   - the last reference on the heap or the address space of a recovery in progress is given back, or its
     task freed, under it (`GrowAvoids`);
   - a recovery frees an sg table that a lima_vm_bo_add is reading (`Walked`);
   - the teardown looks at a current task that has been freed.
   */
  ghost predicate Avoids(s: State, st: Step)
    requires Enabled(s, st)
  {
    if FileStep(st) then FileAvoids(s.mem, st)
    else if JobStep(st) then JobAvoids(s.mem, s.hw, st)
    else PipeAvoids(s, st)
  }
}
