/**
 Runs of the device, step by step: the theorems are not about nothing, and each exception they make is
 reached.  Two clients, 0 and 1, share a heap, buffer 5, with four pages and one of them populated.
 */
module ExampleRun {
  import opened Wrappers
  import opened Geometry
  import opened HeapSize
  import opened VmSpec
  import opened Claims
  import opened JobSystem
  import opened JobSafety
  import opened PipeSafety
  import opened JobRuns
  import opened DeviceTheorems
  import opened GrowthRaces
  import opened OwnPages
  import opened StaleTlb

  /** A state at the end of some run. */
  ghost predicate Reached(s: State) {
    exists ss: seq<State>, sts: seq<Step> :: IsRun(ss, sts) && ss[|ss| - 1] == s
  }

  /** A run gets one step longer. */
  lemma Take(s: State, st: Step) returns (s': State)
    ensures Reached(s) && Enabled(s, st) && Avoids(s, st) ==> Outcome(s, st) == Some(s') && Reached(s')
  {
    s' := s;
    if Reached(s) && Enabled(s, st) && Avoids(s, st) {
      var ss: seq<State>, sts: seq<Step> :| IsRun(ss, sts) && ss[|ss| - 1] == s;
      RunInv(ss, sts, |ss| - 1);
      StepSafe(s, st);
      s' := Next(s, st);
      Longer(ss, sts, st, s');
    }
  }

  /** The same for a step seen to follow live pointers. */
  lemma TakeLive(s: State, st: Step) returns (s': State)
    ensures Reached(s) && Enabled(s, st) && Defined(s, st) ==> Outcome(s, st) == Some(s') && Reached(s')
  {
    s' := s;
    if Reached(s) && Enabled(s, st) && Defined(s, st) {
      ReachedInv(s);
      StepSafe(s, st);
      s' := Take(s, st);
    }
  }

  lemma Longer(ss: seq<State>, sts: seq<Step>, st: Step, s': State)
    requires IsRun(ss, sts) && StepTo(ss[|ss| - 1], st, s')
    ensures Reached(s')
  {
    var ss', sts' := ss + [s'], sts + [st];
    forall i | 0 <= i < |sts'| ensures StepTo(ss'[i], sts'[i], ss'[i + 1]) {
      if i < |sts| {
        assert StepTo(ss[i], sts[i], ss[i + 1]);
      }
    }
    assert IsRun(ss', sts') && ss'[|ss'| - 1] == s';
  }

  const PAGES: seq<nat> := [0x1000, 0x2000, 0x3000, 0x4000]

  /** Two open files, the heap with table `sg`, and who holds what. */
  predicate HeapWorld(m: Mem, hs: seq<Holder>, sg: Sg) {
    && m.holders == hs && |hs| >= 2 && hs[0] == File(0) && hs[1] == File(1)
    && 0 in m.vms && 1 in m.vms && m.bos.Keys == {5}
    && m.bos[5].backing == PAGES && m.bos[5].populated == 1 && m.bos[5].sgt == sg && m.bos[5].heap
  }

  ghost predicate World(s: State, hs: seq<Holder>, sg: Sg) { Reached(s) && HeapWorld(s.mem, hs, sg) }

  /** Client `v` has the heap open, with one page installed, and nothing else. */
  predicate Has(m: Mem, v: VmId) {
    && v in m.vms && m.Vas(v).Keys == {5} && m.vms[v].view.reserved == map[] && !m.vms[v].spoiled
    && m.Vas(v)[5].start == 0 && 0 in m.Vas(v)[5].pages && 1 !in m.Vas(v)[5].pages
  }

  /** Client `v` has nothing open. */
  predicate Empty(m: Mem, v: VmId) { v in m.vms && m.vms[v] == Vm(Create(map[]), m.vms[v].refs, {}, false) }

  predicate SameSpace(vm: Vm, vm': Vm) { vm'.view == vm.view && vm'.slots == vm.slots && vm'.spoiled == vm.spoiled }

  const IDLE_PIPE := Pipe(None, None, false, 0, [], [Mmu(None, map[])], false)

  predicate Quiet(s: State) {
    s.hw == Hw([IDLE_PIPE, IDLE_PIPE], map[], 0, 0) && s.mem.work.stage.Idle? && !s.mem.work.pending
  }

  lemma Attach() returns (s: State)
    ensures Reached(s) && s.mem.vms == map[] && s.mem.bos == map[] && s.mem.holders == [] && Quiet(s)
  {
    s := State(Mem(map[], map[], [], {}, Work(false, 0, 0, 0, Idle)), Hw([IDLE_PIPE, IDLE_PIPE], map[], 0, 0));
    var ss, sts: seq<Step> := [s], [];
    assert IsRun(ss, sts) && ss[|ss| - 1] == s;
  }

  lemma OpenFiles() returns (s: State)
    ensures Reached(s) && s.mem.holders == [File(0), File(1)] && s.mem.bos == map[] && Quiet(s)
    ensures Empty(s.mem, 0) && Empty(s.mem, 1)
  {
    s := Attach();
    s := Take(s, OpenFile(0, map[]));
    s := Take(s, OpenFile(1, map[]));
  }

  lemma MakeHeap() returns (s: State)
    ensures World(s, [File(0), File(1), Creating(5)], Lists(1)) && Quiet(s) && Empty(s.mem, 0) && Empty(s.mem, 1)
  {
    s := OpenFiles();
    s := Take(s, CreateBo(5, Bo(PAGES, 1, Lists(1), 1, true)));
  }

  lemma CanOpenHeap(s: State, hs: seq<Holder>, v: VmId, n: nat)
    requires World(s, hs, Lists(n)) && v < 2 && Empty(s.mem, v) && n <= 4
    ensures CanOpen(s.mem, v, 5, 0)
  {
    assert hs[v] == File(v);
    assert Offered(s.mem.bos[5], 0).Sane();
  }

  /** The heap is opened in a client that has nothing. */
  lemma OpenHeap(s: State, hs: seq<Holder>, v: VmId, n: nat) returns (s': State)
    requires World(s, hs, Lists(n)) && v < 2 && Empty(s.mem, v) && n <= 4
    ensures s'.hw == s.hw && s'.mem.work == s.mem.work && World(s', hs + [Handle(v, 5)], Lists(n))
    ensures s'.mem.Vas(v) == map[5 := Node(0, 4, 1, Range(0, PAGES[..n]))]
    ensures s'.mem.vms[v].view.table == Range(0, PAGES[..n]) && s'.mem.vms[v].slots == SlotsOf(Range(0, PAGES[..n]))
    ensures !s'.mem.vms[v].spoiled && s'.mem.vms[v].view.reserved == map[] && s'.mem.vms[1 - v] == s.mem.vms[1 - v]
  {
    CanOpenHeap(s, hs, v, n);
    HeapOpened(s.mem, hs, v, n);
    s' := Take(s, OpenHandle(v, 5, 0));
  }

  lemma HeapOpened(m: Mem, hs: seq<Holder>, v: VmId, n: nat)
    requires HeapWorld(m, hs, Lists(n)) && v < 2 && Empty(m, v) && n <= 4
    ensures var m' := Hold(GetBos(Mapped(m, v, 5, 0), [5]), Handle(v, 5));
            && HeapWorld(m', hs + [Handle(v, 5)], Lists(n)) && m'.work == m.work && m'.vms[1 - v] == m.vms[1 - v]
            && m'.Vas(v) == map[5 := Node(0, 4, 1, Range(0, PAGES[..n]))] && !m'.vms[v].spoiled
            && m'.vms[v].view.reserved == map[]
            && m'.Table(v) == Range(0, PAGES[..n]) && m'.vms[v].slots == SlotsOf(Range(0, PAGES[..n]))
  {
    var none: Table := map[];
    assert none + Range(0, PAGES[..n]) == Range(0, PAGES[..n]);
    var m' := Hold(GetBos(Mapped(m, v, 5, 0), [5]), Handle(v, 5));
    assert m'.holders[0] == File(0) && m'.holders[1] == File(1);
  }

  /** One of the files is used to begin a submission. */
  lemma Begin(s: State, hs: seq<Holder>, sg: Sg, v: VmId) returns (s': State)
    requires World(s, hs, sg) && v < 2
    ensures World(s', hs + [Submitting(v, [])], sg) && s'.hw == s.hw && s'.mem.vms == s.mem.vms
    ensures s'.mem.work == s.mem.work
  {
    assert hs[v] == File(v);
    s' := Take(s, BeginSubmit(v));
  }

  lemma Add(s: State, hs: seq<Holder>, sg: Sg, v: VmId) returns (s': State)
    requires World(s, hs + [Submitting(v, [])], sg) && Has(s.mem, v) && |hs| >= 2
    ensures World(s', hs + [Submitting(v, [5])], sg) && s'.hw == s.hw && s'.mem.work == s.mem.work
    ensures Has(s'.mem, v) && forall w | w in s.mem.vms && w != v :: w in s'.mem.vms && s'.mem.vms[w] == s.mem.vms[w]
  {
    var none: seq<BoId> := [];
    assert none + [5] == [5];
    s' := Take(s, AddToSubmit(|hs|, 5));
    assert s'.mem.holders == hs + [Submitting(v, [5])];
    assert s'.mem.holders[0] == File(0) && s'.mem.holders[1] == File(1);
  }

  lemma Push(s: State, hs: seq<Holder>, sg: Sg, v: VmId, pipe: nat, heap: Option<BoId>) returns (s': State)
    requires World(s, hs + [Submitting(v, [5])], sg) && |hs| >= 2 && v < 2 && pipe < 2 && |s.hw.pipes| == 2
    requires heap.Some? ==> pipe == 0 && heap.value == 5
    ensures World(s', hs + [Job(v, pipe, [5], heap)], sg) && s'.hw == s.hw && s'.mem.work == s.mem.work
    ensures forall w | w in s.mem.vms :: w in s'.mem.vms && SameSpace(s.mem.vms[w], s'.mem.vms[w])
  {
    s' := Take(s, Queue(|hs|, pipe, heap));
    assert s'.mem.holders == hs + [Job(v, pipe, [5], heap)];
    assert s'.mem.holders[0] == File(0) && s'.mem.holders[1] == File(1);
  }

  /** A job that uses the heap is queued. */
  lemma Submit(s: State, hs: seq<Holder>, sg: Sg, v: VmId, pipe: nat, heap: Option<BoId>) returns (s': State)
    requires World(s, hs, sg) && v < 2 && Has(s.mem, v) && pipe < 2 && |s.hw.pipes| == 2
    requires heap.Some? ==> pipe == 0 && heap.value == 5
    ensures World(s', hs + [Job(v, pipe, [5], heap)], sg) && s'.hw == s.hw && s'.mem.work == s.mem.work
    ensures Has(s'.mem, v) && SameSpace(s.mem.vms[1 - v], s'.mem.vms[1 - v])
  {
    var s1 := Begin(s, hs, sg, v);
    var s2 := Add(s1, hs, sg, v);
    s' := Push(s2, hs, sg, v, pipe, heap);
  }

  /** It is put on the hardware. */
  lemma Start(s: State, hs: seq<Holder>, sg: Sg, i: nat) returns (s': State)
    requires World(s, hs, sg) && i < |hs| && hs[i].Job? && hs[i].pipe < 2 && hs[i].vm < 2 && |s.hw.pipes| == 2
    requires s.hw.pipes[hs[i].pipe] == IDLE_PIPE && s.hw.pipes[1 - hs[i].pipe].task != Some(i)
    ensures World(s', hs, sg) && s'.mem.work == s.mem.work
    ensures |s'.hw.pipes| == 2 && s'.hw.pipes[hs[i].pipe].task == Some(i) && InFlight(s'.hw, hs[i].pipe)
    ensures !s'.hw.pipes[hs[i].pipe].stopped && s'.hw.pipes[hs[i].pipe].vm == Some(hs[i].vm)
    ensures s'.hw.pipes[hs[i].pipe].mmus == [Mmu(Some(hs[i].vm), map[])]
    ensures s'.hw.pipes[1 - hs[i].pipe] == s.hw.pipes[1 - hs[i].pipe]
    ensures InFlight(s'.hw, 1 - hs[i].pipe) == InFlight(s.hw, 1 - hs[i].pipe)
    ensures forall w | w in s.mem.vms :: w in s'.mem.vms && SameSpace(s.mem.vms[w], s'.mem.vms[w])
  {
    assert !InFlight(s.hw, hs[i].pipe);
    s' := Take(s, StartRun(i));
  }

  /** A job gets to run. */
  lemma JobGetsToRun() returns (s: State)
    ensures Reached(s) && |s.hw.pipes| == 2 && InFlight(s.hw, 0)
  {
    var hs := [File(0), File(1), Creating(5)];
    s := MakeHeap();
    s := OpenHeap(s, hs, 0, 1);
    s := Submit(s, hs + [Handle(0, 5)], Lists(1), 0, 0, Some(5));
    s := Start(s, hs + [Handle(0, 5)] + [Job(0, 0, [5], Some(5))], Lists(1), 4);
  }

  /** The GP runs job `i` of client 0, which uses the heap. */
  predicate GpRuns(s: State, hs: seq<Holder>, i: nat) {
    && |s.hw.pipes| == 2 && s.hw.pipes[0].task == Some(i) && InFlight(s.hw, 0)
    && i < |hs| && hs[i] == Job(0, 0, [5], Some(5))
  }

  lemma RunOut(s: State, hs: seq<Holder>, i: nat) returns (s': State)
    requires World(s, hs, Lists(1)) && GpRuns(s, hs, i)
    ensures World(s', hs, Lists(1)) && GpRuns(s', hs, i) && s'.hw.pipes[0].error && s'.mem == s.mem
    ensures s'.hw.pipes[1] == s.hw.pipes[1] && s'.hw.fences == s.hw.fences
    ensures s'.hw.pipes[0].stopped == s.hw.pipes[0].stopped
  {
    s' := Take(s, Interrupt(0, true));
  }

  /** The GP runs out of heap, and the recovery is scheduled. */
  lemma Stall(s: State, hs: seq<Holder>, i: nat) returns (s': State)
    requires World(s, hs, Lists(1)) && GpRuns(s, hs, i) && s.mem.work.stage.Idle?
    ensures World(s', hs, Lists(1)) && GpRuns(s', hs, i) && s'.mem.work.stage.Idle? && s'.mem.work.pending
    ensures s'.hw.pipes[1] == s.hw.pipes[1] && s'.hw.fences == s.hw.fences && s'.mem.vms == s.mem.vms
    ensures s'.hw.pipes[0].stopped == s.hw.pipes[0].stopped
  {
    var s1 := RunOut(s, hs, i);
    s' := Take(s1, ScheduleWork);
  }

  /** The recovery begins to grow the heap. */
  lemma BeginGrowing(s: State, hs: seq<Holder>, i: nat) returns (s': State)
    requires World(s, hs, Lists(1)) && GpRuns(s, hs, i) && s.mem.work.stage.Idle? && s.mem.work.pending
    ensures World(s', hs, Lists(1)) && s'.mem.work == Work(false, i, 0, 5, Reading) && s'.hw == s.hw
    ensures s'.mem.vms == s.mem.vms
  {
    s' := Take(s, BeginRecover(true));
  }

  /** The old table is gone. */
  lemma StartGrowing(s: State, hs: seq<Holder>, i: nat) returns (s': State)
    requires World(s, hs, Lists(1)) && GpRuns(s, hs, i) && s.mem.work.stage.Idle? && s.mem.work.pending
    requires forall k | 0 <= k < |hs| :: !hs[k].Opening?
    ensures World(s', hs, Lists(0)) && s'.mem.work == Work(false, i, 0, 5, Dropped) && s'.hw == s.hw
    ensures s'.mem.vms == s.mem.vms
  {
    var s1 := BeginGrowing(s, hs, i);
    s' := TakeLive(s1, Recovery(DropTable(true)));
  }

  /** The new table lists two pages; the size is still one. */
  lemma NewTable(s: State, hs: seq<Holder>, i: nat) returns (s': State)
    requires World(s, hs, Lists(0)) && s.mem.work == Work(false, i, 0, 5, Dropped)
    ensures World(s', hs, Lists(2)) && s'.mem.work == Work(false, i, 0, 5, Swapped) && s'.hw == s.hw
    ensures s'.mem.vms == s.mem.vms
  {
    assert s.mem.bos[5].Next() == 2;
    s' := TakeLive(s, Recovery(SwapTable));
  }

  const ALONE: seq<Holder> := [File(0), File(1), Creating(5), Handle(0, 5), Job(0, 0, [5], Some(5))]

  /** Client 0's job is on the GP, which has run out of heap; client 1 has nothing open. */
  lemma StallAlone() returns (s: State)
    ensures World(s, ALONE, Lists(1)) && GpRuns(s, ALONE, 4) && s.mem.work.stage.Idle? && s.mem.work.pending
    ensures Empty(s.mem, 1) && s.hw.pipes[1] == IDLE_PIPE && !s.hw.pipes[0].stopped && Has(s.mem, 0)
  {
    var hs := [File(0), File(1), Creating(5)];
    s := MakeHeap();
    s := OpenHeap(s, hs, 0, 1);
    s := Submit(s, hs + [Handle(0, 5)], Lists(1), 0, 0, Some(5));
    assert hs + [Handle(0, 5)] + [Job(0, 0, [5], Some(5))] == ALONE;
    s := Start(s, ALONE, Lists(1), 4);
    s := Stall(s, ALONE, 4);
  }

  // ----- the exceptions

  /**
   Client 1 opens the heap after the new table has been stored and closes it before the new size has:
   its page table keeps an entry that no range of it owns.
   */
  lemma EntryLeftBehind() returns (s: State)
    ensures Reached(s) && 1 in s.mem.vms && s.mem.Vas(1) == map[] && s.mem.Table(1) == map[1 := 0x2000]
    ensures s.mem.holders == ALONE + [Gone] && s.mem.bos.Keys == {5} && s.mem.work.NamesBo(5) && IdlePp(s)
    ensures s.mem.vms[1].view.reserved == map[]
  {
    s := StallAlone();
    s := StartGrowing(s, ALONE, 4);
    s := NewTable(s, ALONE, 4);
    s := OpenHeap(s, ALONE, 1, 2);
    assert 0 in Range(0, PAGES[..2]) && Slot(0) == 0;
    s := CloseSecond(s);
  }

  lemma CreatorKeeps(s: State, i: nat, b: BoId)
    requires Reached(s) && i < |s.mem.holders| && s.mem.holders[i] == Creating(b)
    ensures b in s.mem.bos
  {
    ReachedInv(s);
    HeldBo(s.mem, s.hw.pipes, i, b);
  }

  lemma CloseSecond(s: State) returns (s': State)
    requires World(s, ALONE + [Handle(1, 5)], Lists(2)) && 0 in s.mem.vms[1].slots
    requires s.mem.Vas(1) == map[5 := Node(0, 4, 1, Range(0, PAGES[..2]))] && s.mem.Table(1) == Range(0, PAGES[..2])
    ensures Reached(s') && 1 in s'.mem.vms && s'.mem.Vas(1) == map[] && s'.mem.Table(1) == map[1 := 0x2000]
    ensures s'.mem.holders == ALONE + [Gone] && s'.mem.bos.Keys == s.mem.bos.Keys && s'.mem.work == s.mem.work
    ensures s'.hw == s.hw && s'.mem.vms[1].view.reserved == s.mem.vms[1].view.reserved
  {
    assert s.mem.holders[5] == Handle(1, 5) && Swap(s.mem, 5, Gone).holders == ALONE + [Gone];
    CutSecond(s.mem);
    s' := Take(s, CloseHandle(5));
    assert s'.mem.holders[2] == Creating(5);
    CreatorKeeps(s', 2, 5);
  }

  lemma CutSecond(m: Mem)
    requires LiveVa(m, 1, 5) && m.bos[5].populated == 1 && 0 in m.vms[1].slots && |m.holders| > 5
    requires m.Vas(1) == map[5 := Node(0, 4, 1, Range(0, PAGES[..2]))] && m.Table(1) == Range(0, PAGES[..2])
    ensures CanDelete(m, 1, 5)
    ensures DropVa(Swap(m, 5, Gone), 1, 5).vms[1].view == View(map[1 := 0x2000], map[], m.vms[1].view.reserved)
  {
    forall p: nat | Between(0, p, 1) ensures Slot(p) in m.vms[1].slots {}
    assert Cut(Range(0, PAGES[..2]), 0, 1) == map[1 := 0x2000];
    assert m.Vas(1) - {5} == map[];
  }

  predicate IdlePp(s: State) { |s.hw.pipes| == 2 && s.hw.pipes[1] == IDLE_PIPE }

  const SECOND: Bo := Bo([0x5000, 0x6000], 1, Lists(1), 1, true)

  /** Client 1's table still has the entry, and there is a second heap, buffer 6. */
  predicate TwoHeaps(s: State, hs: seq<Holder>) {
    s.mem.holders == hs && |hs| >= 2 && hs[1] == File(1) && IdlePp(s) && Stale(s.mem)
  }

  predicate Stale(m: Mem) {
    && 1 in m.vms && Entry(m.Table(1), 1, 0x2000)
    && 6 in m.bos && m.bos[6].backing == SECOND.backing && m.bos[6].populated == 1
    && m.bos[6].sgt == Lists(1) && m.bos[6].heap
  }

  /** It has a range over the entry. */
  predicate Over(m: Mem) {
    && 1 in m.vms && 6 in m.Vas(1) && m.Vas(1)[6].start == 0 && m.Vas(1)[6].size == 2 && 1 !in m.Vas(1)[6].pages
  }

  lemma MakeSecond() returns (s: State)
    ensures Reached(s) && TwoHeaps(s, ALONE + [Gone] + [Creating(6)])
    ensures s.mem.Vas(1) == map[] && s.mem.vms[1].view.reserved == map[]
  {
    s := EntryLeftBehind();
    s := Take(s, CreateBo(6, SECOND));
    assert (ALONE + [Gone] + [Creating(6)])[1] == File(1);
  }

  const OPENED: seq<Holder> := ALONE + [Gone] + [Creating(6)] + [Handle(1, 6)]

  lemma OpenSecond() returns (s: State)
    ensures Reached(s) && TwoHeaps(s, OPENED) && Over(s.mem)
  {
    s := MakeSecond();
    var hs := ALONE + [Gone] + [Creating(6)];
    assert hs[1] == File(1) && OPENED[1] == File(1);
    OpenedOver(s.mem);
    s := Take(s, OpenHandle(1, 6, 0));
    assert s.mem.holders == OPENED;
  }

  lemma OpenedOver(m: Mem)
    requires Stale(m) && m.Vas(1) == map[] && m.vms[1].view.reserved == map[]
    ensures Free(m.vms[1].view, Offered(m.bos[6], 0))
    ensures var m' := Hold(GetBos(Mapped(m, 1, 6, 0), [6]), Handle(1, 6)); Stale(m') && Over(m')
  {
    assert Offered(m.bos[6], 0).Sane();
  }

  lemma BeginSecond() returns (s: State)
    ensures Reached(s) && TwoHeaps(s, OPENED + [Submitting(1, [])]) && Over(s.mem)
  {
    s := OpenSecond();
    assert OPENED[1] == File(1) && (OPENED + [Submitting(1, [])])[1] == File(1);
    s := Take(s, BeginSubmit(1));
  }

  lemma AddSecond() returns (s: State)
    ensures Reached(s) && TwoHeaps(s, OPENED + [Submitting(1, [6])]) && Over(s.mem)
  {
    s := BeginSecond();
    var none: seq<BoId> := [];
    assert none + [6] == [6] && (OPENED + [Submitting(1, [6])])[1] == File(1);
    s := Take(s, AddToSubmit(|OPENED|, 6));
    assert s.mem.holders == OPENED + [Submitting(1, [6])];
  }

  lemma QueueSecond() returns (s: State)
    ensures Reached(s) && TwoHeaps(s, OPENED + [Job(1, 1, [6], None)]) && Over(s.mem)
  {
    s := AddSecond();
    s := Take(s, Queue(|OPENED|, 1, None));
    assert (OPENED + [Job(1, 1, [6], None)])[1] == File(1);
    assert s.mem.holders == OPENED + [Job(1, 1, [6], None)];
  }

  /**
   Client 1 then opens a second heap at the same place and runs a job with it: for the heap's page 1 the
   GPU reads memory of the first heap, which client 1 has closed.
   */
  lemma StaleTranslation() returns (s: State)
    ensures Reached(s) && Flies(s.hw, 1) && JobLists(s, 1, 6) && |Mmus(s, 1)| == 1
    ensures Leftover(JobView(s, 1), 6, 1) && Translates(s, Mmus(s, 1)[0], 1, 0x2000)
    ensures 6 in s.mem.bos && 0x2000 !in s.mem.bos[6].backing
  {
    s := QueueSecond();
    s := Take(s, StartRun(|OPENED|));
  }

  lemma DmaFailed() returns (s: State)
    ensures World(s, ALONE, Lists(0)) && s.mem.work == Work(false, 4, 0, 5, Failed) && Empty(s.mem, 1)
  {
    s := StallAlone();
    s := StartGrowing(s, ALONE, 4);
    s := FailDma(s);
  }

  lemma FailDma(s: State) returns (s': State)
    requires World(s, ALONE, Lists(0)) && s.mem.work == Work(false, 4, 0, 5, Dropped) && Empty(s.mem, 1)
    ensures World(s', ALONE, Lists(0)) && s'.mem.work == Work(false, 4, 0, 5, Failed) && Empty(s'.mem, 1)
  {
    s' := TakeLive(s, Recovery(DmaFails));
  }

  lemma FailAlone() returns (s: State)
    ensures World(s, ALONE, Raw) && s.mem.work == Work(false, 4, 0, 5, Failing) && Empty(s.mem, 1)
  {
    s := DmaFailed();
    s := TakeLive(s, Recovery(FreeTable));
  }

  /**
   A growth that fails after dropping the table leaves none, and the next client
   to open the heap has nothing to read.
   */
  lemma TableLeftAbsent() returns (s: State)
    ensures Reached(s) && Enabled(s, OpenHandle(1, 5, 0)) && s.mem.work.stage.Idle? && !Defined(s, OpenHandle(1, 5, 0))
  {
    s := FailAlone();
    s := TakeLive(s, Recovery(ClearTable));
    assert ALONE[1] == File(1);
    assert Offered(s.mem.bos[5], 0).Sane();
  }

  /** Client 1 is reading the heap's table when the growth is about to free it. */
  lemma TableFreedWhileRead() returns (s: State)
    ensures Reached(s) && Enabled(s, Recovery(DropTable(true))) && !Defined(s, Recovery(DropTable(true)))
  {
    s := StallAlone();
    s := BeginGrowing(s, ALONE, 4);
    assert ALONE[1] == File(1);
    s := Take(s, BeginOpen(1, 5));
    assert s.mem.holders[5] == Opening(1, 5);
  }

  /** A timeout before the scheduled recovery starts leaves it without a task. */
  lemma RecoveryWithoutTask() returns (s: State)
    ensures Reached(s) && Enabled(s, BeginRecover(true)) && !Defined(s, BeginRecover(true))
  {
    s := StallAlone();
    s := Take(s, TimedOut(0, []));
  }

  lemma FinishAlone() returns (s: State)
    ensures Reached(s) && s.mem.holders == ALONE && |s.hw.pipes| == 2
    ensures s.hw.pipes[0].task == Some(4) && !InFlight(s.hw, 0) && s.hw.pipes[1].task == None && !s.hw.pipes[0].stopped
  {
    s := NoError();
    s := Take(s, Done(0));
  }

  lemma NoError() returns (s: State)
    ensures World(s, ALONE, Lists(1)) && GpRuns(s, ALONE, 4) && !s.hw.pipes[0].error
    ensures s.hw.pipes[1].task == None && !s.hw.pipes[0].stopped
  {
    s := StallAlone();
    s := Take(s, Interrupt(0, false));
  }

  /** The recovery is at work on a task that has timed out and is being freed. */
  lemma TimedOutGrowing() returns (s: State)
    ensures World(s, ALONE, Lists(1)) && s.mem.work == Work(false, 4, 0, 5, Reading) && |s.hw.pipes| == 2
    ensures s.hw.pipes[0].task == None && s.hw.pipes[1] == IDLE_PIPE && Has(s.mem, 0)
  {
    s := BegunAlone();
    s := Expire(s, ALONE);
  }

  lemma BegunAlone() returns (s: State)
    ensures World(s, ALONE, Lists(1)) && GpRuns(s, ALONE, 4) && s.mem.work == Work(false, 4, 0, 5, Reading)
    ensures s.hw.pipes[1] == IDLE_PIPE && Has(s.mem, 0)
  {
    s := StallAlone();
    s := BeginGrowing(s, ALONE, 4);
  }

  /** The GP's job times out, and the files keep their address spaces. */
  lemma Expire(s: State, hs: seq<Holder>) returns (s': State)
    requires World(s, hs, Lists(1)) && |s.hw.pipes| == 2 && InFlight(s.hw, 0) && Has(s.mem, 0)
    ensures World(s', hs, Lists(1)) && s'.mem.work == s.mem.work && Has(s'.mem, 0)
    ensures |s'.hw.pipes| == 2 && s'.hw.pipes[0].task == None && s'.hw.pipes[1] == s.hw.pipes[1]
  {
    s' := Take(s, TimedOut(0, []));
    FilesLive(s', hs);
  }

  lemma FilesLive(s: State, hs: seq<Holder>)
    requires Reached(s) && s.mem.holders == hs && |hs| >= 2 && hs[0] == File(0) && hs[1] == File(1)
    ensures 0 in s.mem.vms && 1 in s.mem.vms
  {
    ReachedInv(s);
    assert hs[0] in hs && hs[1] in hs;
    OpenFileVm(s.mem, s.hw.pipes, 0);
    OpenFileVm(s.mem, s.hw.pipes, 1);
  }

  const FREED: seq<Holder> := [File(0), File(1), Creating(5), Handle(0, 5), Freeing(0, [5], [5])]

  lemma FreedGrowing() returns (s: State)
    ensures World(s, FREED, Lists(1)) && s.mem.work == Work(false, 4, 0, 5, Reading) && Has(s.mem, 0)
  {
    s := TimedOutGrowing();
    s := Take(s, BeginFree(4));
    assert s.mem.holders == FREED;
  }

  lemma FreedDropped() returns (s: State)
    ensures World(s, FREED, Lists(0)) && s.mem.work == Work(false, 4, 0, 5, Dropped) && Has(s.mem, 0)
  {
    s := FreedGrowing();
    s := TakeLive(s, Recovery(DropTable(true)));
  }

  lemma FreedInstalled() returns (s: State)
    ensures World(s, FREED, Lists(2)) && s.mem.work == Work(false, 4, 0, 5, Installed)
  {
    s := FreedDropped();
    s := NewTable(s, FREED, 4);
    s := TakeLive(s, Recovery(InstallPages));
  }

  /** A recovery whose task times out and is freed under it reads the task at its end. */
  lemma TaskFreedUnderRecovery() returns (s: State)
    ensures Reached(s) && Enabled(s, Recovery(EndRecover)) && !Defined(s, Recovery(EndRecover))
  {
    s := FreedInstalled();
    s := TakeLive(s, Recovery(StoreSize));
  }

  /** Everybody who has the heap gives it back, the job first. */
  predicate Releasing(s: State, hs: seq<Holder>) {
    && s.mem.holders == hs && |hs| == 5 && hs[0] == File(0) && hs[1] == File(1)
    && s.mem.work == Work(false, 4, 0, 5, Reading)
  }

  lemma CanRelease(s: State)
    requires Reached(s) && HasOne(s.mem)
    ensures CanDelete(s.mem, 0, 5)
  {
    ReachedInv(s);
    assert ViewFits(s.mem, 0) && RangeFits(s.mem, 0, 5);
    assert Holds(s.mem.Table(0), s.mem.Vas(0)[5].pages);
    forall p: nat | Between(0, p, 1) ensures Slot(p) in s.mem.vms[0].slots {}
  }

  predicate HasOne(m: Mem) {
    && LiveVa(m, 0, 5) && m.bos[5].populated == 1 && m.Vas(0)[5].start == 0 && 0 in m.Vas(0)[5].pages
  }

  lemma ReleaseJob() returns (s: State)
    ensures Reached(s) && HasOne(s.mem)
    ensures Releasing(s, [File(0), File(1), Creating(5), Handle(0, 5), Freeing(0, [], [5])])
  {
    s := FreedGrowing();
    CanRelease(s);
    s := Take(s, FreeOne(4));
    var one: seq<BoId> := [5];
    assert one[1..] == [];
    var hs := [File(0), File(1), Creating(5), Handle(0, 5), Freeing(0, [], [5])];
    assert s.mem.holders == hs;
    HandleIsLive(s, hs);
  }

  /** The handle keeps the range. */
  lemma HandleIsLive(s: State, hs: seq<Holder>)
    requires Reached(s) && s.mem.holders == hs && |hs| == 5 && hs[3] == Handle(0, 5)
    ensures LiveVa(s.mem, 0, 5)
  {
    ReachedInv(s);
    HeldVa(s.mem, s.hw.pipes, 3, 0, 5);
  }

  lemma ReleaseTask() returns (s: State)
    ensures Reached(s) && HasOne(s.mem)
    ensures Releasing(s, [File(0), File(1), Creating(5), Handle(0, 5), Gone])
  {
    s := ReleaseJob();
    s := Take(s, EndFree(4));
    var hs := [File(0), File(1), Creating(5), Handle(0, 5), Gone];
    assert s.mem.holders == hs;
    HandleIsLive(s, hs);
  }

  lemma ReleaseHandle() returns (s: State)
    ensures Reached(s) && Releasing(s, [File(0), File(1), Creating(5), Gone, Gone])
  {
    s := ReleaseTask();
    CanRelease(s);
    s := Take(s, CloseHandle(3));
    assert s.mem.holders == [File(0), File(1), Creating(5), Gone, Gone];
  }

  /** The last reference to a heap can go while it is being grown. */
  lemma HeapFreedUnderRecovery() returns (s: State)
    ensures Reached(s) && 5 !in s.mem.bos
    ensures Enabled(s, Recovery(DropTable(true))) && !Defined(s, Recovery(DropTable(true)))
  {
    s := ReleaseHandle();
    s := Take(s, DropCreated(2));
    var hs := [File(0), File(1), Gone, Gone, Gone];
    assert s.mem.holders == hs;
    NobodyHas(s, hs, 5);
  }

  /** A buffer nobody has a reference on has been freed. */
  lemma NobodyHas(s: State, hs: seq<Holder>, b: BoId)
    requires Reached(s) && s.mem.holders == hs && forall i | 0 <= i < |hs| :: Weight(hs[i], OnBo(b)) == 0
    ensures b !in s.mem.bos
  {
    ReachedInv(s);
    assert CountOk(s.mem, s.hw.pipes, OnBo(b));
    SumZero(hs, OnBo(b));
    assert b in s.mem.bos ==> BoOk(s.mem.bos[b], StageOf(s.mem.work, b));
  }

  /** Client 1 opens the heap while its table lists nothing, so that it gets a range and no backing table. */
  lemma DeletionMeetsNoTable() returns (s: State)
    ensures Reached(s) && Enabled(s, CloseHandle(5)) && !Defined(s, CloseHandle(5))
  {
    s := StallAlone();
    s := StartGrowing(s, ALONE, 4);
    s := OpenHeap(s, ALONE, 1, 0);
    assert Between(0, 0, 1);
    assert s.mem.holders[5] == Handle(1, 5);
  }

  /** A finished task that has been freed is still named by its pipe when the teardown looks at it. */
  lemma TeardownOfFreedTask() returns (s: State)
    ensures Reached(s) && Enabled(s, Stop(0, false)) && !Defined(s, Stop(0, false))
  {
    s := FinishAlone();
    s := Take(s, BeginFree(4));
  }

  // ----- a shared heap

  const SHARED: seq<Holder> :=
    [File(0), File(1), Creating(5), Handle(0, 5), Handle(1, 5), Job(1, 1, [5], None), Job(0, 0, [5], Some(5))]

  /** Both clients have the heap open, and a job of each is queued: client 1's for the PP, client 0's for the GP. */
  lemma BothQueued() returns (s: State)
    ensures World(s, SHARED, Lists(1)) && s.hw == Hw([IDLE_PIPE, IDLE_PIPE], map[], 0, 0) && s.mem.work.stage.Idle?
    ensures Has(s.mem, 0) && Has(s.mem, 1)
  {
    var hs := [File(0), File(1), Creating(5)];
    s := MakeHeap();
    s := OpenHeap(s, hs, 0, 1);
    s := OpenHeap(s, hs + [Handle(0, 5)], 1, 1);
    var hs2 := hs + [Handle(0, 5)] + [Handle(1, 5)];
    s := Submit(s, hs2, Lists(1), 1, 1, None);
    s := Submit(s, hs2 + [Job(1, 1, [5], None)], Lists(1), 0, 0, Some(5));
    assert hs2 + [Job(1, 1, [5], None)] + [Job(0, 0, [5], Some(5))] == SHARED;
  }

  /** Both jobs run, and the GP's runs out of heap. */
  lemma BothRun() returns (s: State)
    ensures World(s, SHARED, Lists(1)) && GpRuns(s, SHARED, 6) && s.mem.work.stage.Idle? && s.mem.work.pending
    ensures s.hw.pipes[1].task == Some(5) && InFlight(s.hw, 1) && Has(s.mem, 0) && Has(s.mem, 1)
  {
    s := BothQueued();
    s := Start(s, SHARED, Lists(1), 5);
    s := Start(s, SHARED, Lists(1), 6);
    s := Stall(s, SHARED, 6);
  }

  /** The heap grows through client 0 while the PP runs client 1's job: a page of that job's buffer is not mapped. */
  lemma SharedHeapExample() returns (s: State)
    ensures Reached(s) && |s.hw.pipes| == 2 && InFlight(s.hw, 1) && RunningJob(s, 1) == Job(1, 1, [5], None)
    ensures LiveVa(s.mem, 1, 5) && !AllMapped(s.mem, 1, 5)
  {
    s := BothRun();
    s := StartGrowing(s, SHARED, 6);
    s := NewTable(s, SHARED, 6);
    s := InstallShared(s);
    s := StoreShared(s);
  }

  lemma InstallShared(s: State) returns (s': State)
    requires World(s, SHARED, Lists(2)) && s.mem.work == Work(false, 6, 0, 5, Swapped) && Has(s.mem, 0) && Has(s.mem, 1)
    ensures World(s', SHARED, Lists(2)) && s'.mem.work == Work(false, 6, 0, 5, Installed) && Has(s'.mem, 1)
    ensures s'.hw == s.hw
  {
    s' := TakeLive(s, Recovery(InstallPages));
  }

  lemma StoreShared(s: State) returns (s': State)
    requires Reached(s) && s.mem.work == Work(false, 6, 0, 5, Installed) && Has(s.mem, 1) && 5 in s.mem.bos
    requires s.mem.bos[5].populated == 1 && s.mem.holders == SHARED && |s.hw.pipes| == 2
    requires s.hw.pipes[1].task == Some(5) && InFlight(s.hw, 1)
    ensures Reached(s') && s'.hw == s.hw && s'.mem.holders == SHARED
    ensures LiveVa(s'.mem, 1, 5) && !AllMapped(s'.mem, 1, 5)
  {
    StoreMisses(s);
    assert Defined(s, Recovery(StoreSize));
    s' := TakeLive(s, Recovery(StoreSize));
    assert s'.mem == GrowNext(s.mem, StoreSize);
  }

  lemma StoreMisses(s: State)
    requires Reached(s) && s.mem.work == Work(false, 6, 0, 5, Installed) && Has(s.mem, 1) && 5 in s.mem.bos
    requires s.mem.bos[5].populated == 1
    ensures LiveVa(GrowNext(s.mem, StoreSize), 1, 5) && !AllMapped(GrowNext(s.mem, StoreSize), 1, 5)
  {
    ReachedInv(s);
    GrowthElsewhereIsMissed(s.mem, 1);
  }

  lemma ReachedInv(s: State)
    requires Reached(s)
    ensures Inv(s)
  {
    var ss: seq<State>, sts: seq<Step> :| IsRun(ss, sts) && ss[|ss| - 1] == s;
    RunInv(ss, sts, |ss| - 1);
  }

  // ----- a cached entry

  const DRAWING: seq<Holder> := [File(0), File(1), Creating(5), Handle(0, 5), Job(0, 1, [5], None)]

  /** A job of client 0 is in flight on the PP. */
  predicate Draws(s: State, hs: seq<Holder>) {
    && s.mem.holders == hs && |hs| >= 5 && hs[0] == File(0) && hs[4] == Job(0, 1, [5], None)
    && |s.hw.pipes| == 2 && s.hw.pipes[1].task == Some(4) && s.hw.pipes[1].vm == Some(0) && InFlight(s.hw, 1)
    && |s.hw.pipes[1].mmus| == 1 && s.hw.pipes[1].mmus[0].dte == Some(0) && 0 in s.mem.vms
  }

  lemma StartDrawing() returns (s: State)
    ensures World(s, DRAWING, Lists(1)) && Draws(s, DRAWING) && Has(s.mem, 0) && s.mem.work.stage.Idle?
  {
    var hs := [File(0), File(1), Creating(5)];
    s := MakeHeap();
    s := OpenHeap(s, hs, 0, 1);
    s := Submit(s, hs + [Handle(0, 5)], Lists(1), 0, 1, None);
    assert hs + [Handle(0, 5)] + [Job(0, 1, [5], None)] == DRAWING;
    s := Start(s, DRAWING, Lists(1), 4);
  }

  /** Client 0 has the heap at the start of its space; `vas` is all it has open. */
  predicate HeapFirst(m: Mem, vas: set<BoId>) {
    && 0 in m.vms && m.Vas(0).Keys == vas && 5 in vas && m.Vas(0)[5].start == 0 && m.vms[0].view.reserved == map[]
    && 5 in m.bos && m.bos[5].backing == PAGES
  }

  predicate HasSecond(m: Mem) {
    6 in m.bos && m.bos[6].backing == SECOND.backing && m.bos[6].populated == 1 && m.bos[6].sgt == Lists(1)
  }

  /** A second buffer has its one populated page behind the heap. */
  predicate SecondOpen(m: Mem) {
    && HeapFirst(m, {5, 6}) && HasSecond(m)
    && m.Vas(0)[6] == Node(4, 2, 1, map[4 := 0x5000]) && 0 in m.vms[0].slots && Entry(m.Table(0), 4, 0x5000)
  }

  lemma SecondMade() returns (s: State)
    ensures Reached(s) && Draws(s, DRAWING + [Creating(6)]) && HeapFirst(s.mem, {5}) && HasSecond(s.mem)
  {
    s := StartDrawing();
    s := Take(s, CreateBo(6, SECOND));
    assert s.mem.holders == DRAWING + [Creating(6)];
  }

  const TWO_OPEN: seq<Holder> := DRAWING + [Creating(6)] + [Handle(0, 6)]

  lemma RoomBehind(s: State)
    requires Reached(s) && HeapFirst(s.mem, {5}) && HasSecond(s.mem)
    ensures Free(s.mem.vms[0].view, Offered(s.mem.bos[6], 4)) && Offered(s.mem.bos[6], 4).pages == map[4 := 0x5000]
  {
    ReachedInv(s);
    assert ViewFits(s.mem, 0) && RangeFits(s.mem, 0, 5) && s.mem.Vas(0)[5].Sane();
  }

  lemma SecondOpened() returns (s: State)
    ensures Reached(s) && Draws(s, TWO_OPEN) && SecondOpen(s.mem)
  {
    s := SecondMade();
    RoomBehind(s);
    assert (DRAWING + [Creating(6)])[0] == File(0);
    OpenedBehind(s.mem);
    s := Take(s, OpenHandle(0, 6, 4));
    assert s.mem.holders == TWO_OPEN;
  }

  lemma OpenedBehind(m: Mem)
    requires HeapFirst(m, {5}) && HasSecond(m) && Offered(m.bos[6], 4).pages == map[4 := 0x5000]
    ensures SecondOpen(Hold(GetBos(Mapped(m, 0, 6, 4), [6]), Handle(0, 6)))
  {
    assert 4 in Offered(m.bos[6], 4).pages && Slot(4) == 0;
  }

  /** The MMU walks the table for the page. */
  lemma SecondCached() returns (s: State)
    ensures Reached(s) && Draws(s, TWO_OPEN) && SecondOpen(s.mem) && Entry(s.hw.pipes[1].mmus[0].tlb, 4, 0x5000)
  {
    s := SecondOpened();
    s := Take(s, Fill(1, 0, 4));
  }

  const CLOSED: seq<Holder> := DRAWING + [Creating(6)] + [Gone]

  lemma SecondClosed() returns (s: State)
    ensures Reached(s) && Draws(s, CLOSED) && HeapFirst(s.mem, {5}) && Entry(s.hw.pipes[1].mmus[0].tlb, 4, 0x5000)
  {
    s := SecondCached();
    forall p: nat | Between(4, p, 1) ensures Slot(p) in s.mem.vms[0].slots {}
    assert TWO_OPEN[6] == Handle(0, 6);
    CloseBehind(s.mem);
    s := Take(s, CloseHandle(6));
    assert s.mem.holders == CLOSED;
    assert CLOSED[2] == Creating(5);
    CreatorKeeps(s, 2, 5);
  }

  lemma CloseBehind(m: Mem)
    requires SecondOpen(m) && |m.holders| > 6
    ensures var m' := PutBos(DropVa(Swap(m, 6, Gone), 0, 6), [6]);
            5 in m'.bos ==> HeapFirst(m', {5})
  {
    var vas := m.Vas(0);
    assert (vas - {6}).Keys == {5};
  }

  /**
   While its job is on the PP, client 0 closes another buffer of which the PP has a page cached, and the
   buffer is freed: the PP can still reach the page.
   */
  lemma CachedAfterClose() returns (s: State)
    ensures Reached(s) && Flies(s.hw, 1) && |Mmus(s, 1)| == 1 && Entry(Mmus(s, 1)[0].tlb, 4, 0x5000)
    ensures !Named(JobView(s, 1), 4, 0x5000) && 6 !in s.mem.bos
  {
    s := SecondClosed();
    assert CLOSED[5] == Creating(6);
    s := Take(s, DropCreated(5));
    assert s.mem.holders[2] == Creating(5);
    CreatorKeeps(s, 2, 5);
    NobodyHas(s, CLOSED[5 := Gone], 6);
    NoNameBehind(s);
  }

  lemma NoNameBehind(s: State)
    requires Reached(s) && HeapFirst(s.mem, {5}) && |s.hw.pipes| == 2 && s.hw.pipes[1].vm == Some(0)
    ensures !Named(JobView(s, 1), 4, 0x5000)
  {
    ReachedInv(s);
    assert ViewFits(s.mem, 0) && RangeFits(s.mem, 0, 5);
  }
}
