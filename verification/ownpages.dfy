/**
 What the GPU can reach.  A running job's MMUs answer from what they have cached and from the page table;
 neither is synchronised with the driver, which flushes and switches, and unmaps, at its own times.
 */
module OwnPages {
  import opened Wrappers
  import opened Geometry
  import opened VmSpec
  import opened Claims
  import opened JobSystem
  import opened JobSafety
  import opened PipeSafety
  import opened JobRuns
  import opened DeviceTheorems
  import opened GrowthRaces

  // ----- a job's time on the hardware

  /** Pipe `p` is busy in all states from the i-th to the k-th. */
  predicate BusyFrom(ss: seq<State>, i: nat, k: nat, p: nat) {
    i <= k < |ss| && forall l {:trigger ss[l]} | i <= l <= k :: p < |ss[l].hw.pipes| && InFlight(ss[l].hw, p)
  }

  /** And the step to the i-th put it to work. */
  predicate StartedAt(ss: seq<State>, i: nat, k: nat, p: nat) {
    BusyFrom(ss, i, k, p) && 0 < i && p < |ss[i - 1].hw.pipes| && !InFlight(ss[i - 1].hw, p)
  }

  predicate Flies(hw: Hw, p: nat) { p < |hw.pipes| && InFlight(hw, p) }

  lemma {:induction false} StartOf(ss: seq<State>, sts: seq<Step>, k: nat, p: nat) returns (i: nat)
    requires IsRun(ss, sts) && k < |ss| && Flies(ss[k].hw, p)
    ensures StartedAt(ss, i, k, p)
  {
    TwoPipes(ss, sts, k);
    i := k;
    if k > 0 {
      TwoPipes(ss, sts, k - 1);
      if Flies(ss[k - 1].hw, p) {
        i := StartOf(ss, sts, k - 1, p);
      }
    }
  }

  lemma TwoPipes(ss: seq<State>, sts: seq<Step>, k: nat)
    requires IsRun(ss, sts) && k < |ss|
    ensures |ss[k].hw.pipes| == 2 && forall p | 0 <= p < 2 :: k == 0 ==> !Flies(ss[k].hw, p)
  {
    RunInv(ss, sts, k);
  }

  /** What an MMU has cached after a step it had cached before, or has read from `table`. */
  predicate Learns(table: Table, mmu: Mmu, mmu': Mmu) {
    && mmu'.dte == mmu.dte
    && forall q | q in mmu'.tlb :: Entry(mmu.tlb, q, mmu'.tlb[q]) || Entry(table, q, mmu'.tlb[q])
  }

  predicate Entry(table: Table, q: nat, dma: nat) { q in table && table[q] == dma }

  predicate AllLearn(table: Table, mmus: seq<Mmu>, mmus': seq<Mmu>) {
    |mmus'| == |mmus| && forall j | 0 <= j < |mmus| :: Learns(table, mmus[j], mmus'[j])
  }

  /** The job a busy pipe runs stays, and its MMUs only learn from its page table. */
  lemma JobStays(s: State, st: Step, s': State, p: nat)
    requires Inv(s) && Outcome(s, st) == Some(s') && p < 2 && Flies(s.hw, p) && Flies(s'.hw, p)
    ensures s'.hw.pipes[p].task == s.hw.pipes[p].task && s'.hw.pipes[p].vm == s.hw.pipes[p].vm
    ensures s.hw.pipes[p].vm.Some? && s.hw.pipes[p].vm.value in s.mem.vms
    ensures AllLearn(s.mem.Table(s.hw.pipes[p].vm.value), s.hw.pipes[p].mmus, s'.hw.pipes[p].mmus)
  {
    assert PipeRuns(s.mem, s.hw, p);
    if !FileStep(st) && !JobStep(st) {
      PipeStays(s, st, s', p);
    }
  }

  lemma PipeStays(s: State, st: Step, s': State, p: nat)
    requires |s.hw.pipes| == 2 && p < 2 && PipeRuns(s.mem, s.hw, p) && Flies(s.hw, p) && Flies(s'.hw, p)
    requires Outcome(s, st) == Some(s') && !FileStep(st) && !JobStep(st)
    ensures s'.hw.pipes[p].task == s.hw.pipes[p].task && s'.hw.pipes[p].vm == s.hw.pipes[p].vm
    ensures AllLearn(s.mem.Table(s.hw.pipes[p].vm.value), s.hw.pipes[p].mmus, s'.hw.pipes[p].mmus)
  {}

  /** A pipe is put to work by lima_sched_run_job, which leaves nothing cached. */
  lemma StartIsFresh(s: State, st: Step, s': State, p: nat)
    requires Inv(s) && Outcome(s, st) == Some(s') && p < 2 && !Flies(s.hw, p) && Flies(s'.hw, p)
    ensures forall j | 0 <= j < |s'.hw.pipes[p].mmus| :: s'.hw.pipes[p].mmus[j].tlb == map[]
  {
    assert PipeShape(s.hw, p) && PipeShape(s.hw, 1 - p);
    if !FileStep(st) && !JobStep(st) && !st.StartRun? {
      OthersStartNothing(s, st, s', p);
    }
  }

  lemma OthersStartNothing(s: State, st: Step, s': State, p: nat)
    requires Outcome(s, st) == Some(s') && !FileStep(st) && !JobStep(st) && !st.StartRun? && |s.hw.pipes| == 2 && p < 2
    ensures Flies(s'.hw, p) ==> Flies(s.hw, p)
  {}

  // ----- the pages of a job's buffers

  /** The address space of a job in flight. */
  function JobView(s: State, p: nat): View {
    if p < |s.hw.pipes| && s.hw.pipes[p].vm.Some? && s.hw.pipes[p].vm.value in s.mem.vms
    then s.mem.vms[s.hw.pipes[p].vm.value].view else Create(map[])
  }

  /** The answer for page `page` is the one buffer `b` has installed there. */
  predicate Gives(w: View, b: BoId, page: nat, dma: nat) {
    b in w.vas && w.vas[b].Owns(page) && Entry(w.vas[b].pages, page, dma)
  }

  /** Page `page` lies in the range of `b`, the table has only what is installed there, and so have the MMUs. */
  ghost predicate PageRight(w: View, mmus: seq<Mmu>, b: BoId, page: nat) {
    && b in w.vas && w.vas[b].Owns(page) && !Leftover(w, b, page)
    && forall j | 0 <= j < |mmus| && page in mmus[j].tlb :: Gives(w, b, page, mmus[j].tlb[page])
  }

  lemma PageStaysRight(w: View, mmus: seq<Mmu>, w': View, mmus': seq<Mmu>, b: BoId, page: nat)
    requires VmSound(w) && PageRight(w, mmus, b, page) && Survives(w, w', b) && AllLearn(w.table, mmus, mmus')
    ensures PageRight(w', mmus', b, page)
  {
    assert Holds(w.table, w.vas[b].pages);
    forall j | 0 <= j < |mmus'| && page in mmus'[j].tlb ensures Gives(w', b, page, mmus'[j].tlb[page]) {
      assert Learns(w.table, mmus[j], mmus'[j]);
    }
  }

  /** A busy pipe's job, its address space, and its ranges. */
  lemma JobAtWork(s: State, p: nat)
    requires Inv(s) && p < 2 && Flies(s.hw, p)
    ensures RunningJob(s, p).Job? && s.hw.pipes[p].vm == Some(RunningJob(s, p).vm) && RunningJob(s, p).vm in s.mem.vms
    ensures JobView(s, p) == s.mem.vms[RunningJob(s, p).vm].view && VmSound(JobView(s, p))
    ensures MmusWalk(RunningJob(s, p).vm, s.hw.pipes[p].mmus)
    ensures forall b | b in RunningJob(s, p).bos :: LiveVa(s.mem, RunningJob(s, p).vm, b)
    ensures s.hw.pipes[p].task.value < |s.mem.holders| && OnHardware(s.hw, s.hw.pipes[p].task.value)
  {
    assert PipeRuns(s.mem, s.hw, p);
    JobIsLive(s.mem, s.hw.pipes, s.hw.pipes[p].task.value);
    assert ViewFits(s.mem, RunningJob(s, p).vm);
  }

  /** The job on the pipe lists buffer `b`. */
  predicate JobLists(s: State, p: nat, b: BoId) {
    && p < |s.hw.pipes| && s.hw.pipes[p].task.Some? && s.hw.pipes[p].task.value < |s.mem.holders|
    && s.mem.holders[s.hw.pipes[p].task.value].Job? && b in s.mem.holders[s.hw.pipes[p].task.value].bos
  }

  function Mmus(s: State, p: nat): seq<Mmu> { if p < |s.hw.pipes| then s.hw.pipes[p].mmus else [] }

  /** The pipe goes on with its job: it keeps its ranges, and the MMUs learn from its table. */
  ghost predicate GoesOn(s: State, s': State, p: nat) {
    && VmSound(JobView(s, p)) && ViewSurvives(JobView(s, p), JobView(s', p))
    && AllLearn(JobView(s, p).table, Mmus(s, p), Mmus(s', p))
    && (forall b :: JobLists(s, p, b) <==> JobLists(s', p, b))
    && (forall b | JobLists(s, p, b) :: b in JobView(s, p).vas && b in JobView(s', p).vas)
  }

  lemma JobGoesOn(ss: seq<State>, sts: seq<Step>, i: nat, p: nat)
    requires IsRun(ss, sts) && i < |sts| && p < 2 && Flies(ss[i].hw, p) && Flies(ss[i + 1].hw, p)
    ensures GoesOn(ss[i], ss[i + 1], p)
  {
    NextInRun(ss, sts, i);
    JobAtWork(ss[i], p);
    JobAtWork(ss[i + 1], p);
    JobStays(ss[i], sts[i], ss[i + 1], p);
  }

  /** The pipe goes on with its job from state `i` to state `k`. */
  ghost predicate GoesOnFrom(ss: seq<State>, i: nat, k: nat, p: nat) {
    i <= k < |ss| && forall l | i <= l < k :: GoesOn(ss[l], ss[l + 1], p)
  }

  lemma BusyGoesOn(ss: seq<State>, sts: seq<Step>, i: nat, k: nat, p: nat)
    requires IsRun(ss, sts) && p < 2 && BusyFrom(ss, i, k, p)
    ensures GoesOnFrom(ss, i, k, p)
  {
    forall l | i <= l < k ensures GoesOn(ss[l], ss[l + 1], p) {
      assert Flies(ss[l].hw, p) && Flies(ss[l + 1].hw, p);
      JobGoesOn(ss, sts, l, p);
    }
  }

  /** A page that is right once stays right while the job is on the hardware. */
  lemma {:induction false} RightFrom(ss: seq<State>, i: nat, k: nat, p: nat, b: BoId, page: nat)
    requires GoesOnFrom(ss, i, k, p) && JobLists(ss[i], p, b) && PageRight(JobView(ss[i], p), Mmus(ss[i], p), b, page)
    ensures JobLists(ss[k], p, b) && PageRight(JobView(ss[k], p), Mmus(ss[k], p), b, page)
  {
    if i < k {
      RightFrom(ss, i, k - 1, p, b, page);
      assert GoesOn(ss[k - 1], ss[k - 1 + 1], p);
      PageStaysRight(JobView(ss[k - 1], p), Mmus(ss[k - 1], p), JobView(ss[k], p), Mmus(ss[k], p), b, page);
    }
  }

  /** The ranges of the job stay where they are. */
  lemma {:induction false} SameRangeFrom(ss: seq<State>, i: nat, k: nat, p: nat, b: BoId)
    requires GoesOnFrom(ss, i, k, p) && JobLists(ss[i], p, b) && b in JobView(ss[i], p).vas
    ensures JobLists(ss[k], p, b) && b in JobView(ss[k], p).vas
    ensures forall page: nat :: JobView(ss[k], p).vas[b].Owns(page) <==> JobView(ss[i], p).vas[b].Owns(page)
  {
    if i < k {
      SameRangeFrom(ss, i, k - 1, p, b);
      assert GoesOn(ss[k - 1], ss[k - 1 + 1], p);
      assert Survives(JobView(ss[k - 1], p), JobView(ss[k], p), b);
    }
  }

  predicate AllFresh(mmus: seq<Mmu>) { forall j | 0 <= j < |mmus| :: mmus[j].tlb == map[] }

  lemma FreshNext(ss: seq<State>, sts: seq<Step>, i: nat, p: nat)
    requires IsRun(ss, sts) && p < 2 && i < |sts| && !Flies(ss[i].hw, p) && Flies(ss[i + 1].hw, p)
    ensures AllFresh(Mmus(ss[i + 1], p))
  {
    NextInRun(ss, sts, i);
    StartIsFresh(ss[i], sts[i], ss[i + 1], p);
  }

  lemma FreshAtStart(ss: seq<State>, sts: seq<Step>, i: nat, k: nat, p: nat)
    requires IsRun(ss, sts) && p < 2 && StartedAt(ss, i, k, p)
    ensures AllFresh(Mmus(ss[i], p))
  {
    assert !Flies(ss[i - 1].hw, p) && Flies(ss[i].hw, p);
    FreshNext(ss, sts, i - 1, p);
  }

  /** An answer for a page that is right is the buffer's own page. */
  lemma RightAnswer(s: State, p: nat, j: nat, b: BoId, page: nat, dma: nat)
    requires Inv(s) && p < 2 && Flies(s.hw, p) && j < |s.hw.pipes[p].mmus|
    requires PageRight(JobView(s, p), Mmus(s, p), b, page) && Translates(s, s.hw.pipes[p].mmus[j], page, dma)
    ensures Gives(JobView(s, p), b, page, dma)
  {
    JobAtWork(s, p);
    assert Holds(JobView(s, p).table, JobView(s, p).vas[b].pages);
  }

  /** What a range has installed is its buffer's. */
  lemma InstalledIsOwn(s: State, p: nat, b: BoId, page: nat, dma: nat)
    requires Inv(s) && p < 2 && Flies(s.hw, p) && Gives(JobView(s, p), b, page, dma)
    ensures var n := JobView(s, p).vas[b];
            b in s.mem.bos && page - n.start < s.mem.bos[b].Next() <= |s.mem.bos[b].backing| &&
            dma == s.mem.bos[b].backing[page - n.start]
  {
    JobAtWork(s, p);
    assert ViewFits(s.mem, RunningJob(s, p).vm) && RangeFits(s.mem, RunningJob(s, p).vm, b);
  }

  lemma InstalledInRun(ss: seq<State>, sts: seq<Step>, k: nat, p: nat, b: BoId, page: nat, dma: nat)
    requires IsRun(ss, sts) && k < |ss| && p < 2 && Flies(ss[k].hw, p) && Gives(JobView(ss[k], p), b, page, dma)
    ensures b in ss[k].mem.bos
    ensures var n, bo := JobView(ss[k], p).vas[b], ss[k].mem.bos[b];
            page in n.pages && page < Limit(n, bo) <= n.start + |bo.backing| && dma == bo.backing[page - n.start]
  {
    RunInv(ss, sts, k);
    InstalledIsOwn(ss[k], p, b, page, dma);
  }

  /** A buffer is a heap or not as long as it lives. */
  lemma KindStays(s: State, st: Step, s': State, b: BoId)
    requires Outcome(s, st) == Some(s') && b in s.mem.bos && b in s'.mem.bos
    ensures s'.mem.bos[b].heap == s.mem.bos[b].heap
  {
    if Plain(st) {
      PlainStill(s, st, s');
      assert SameStore(s.mem, s'.mem, b);
    } else if st.OpenHandle? {
      OpenOutcome(s, st, s');
    } else if st.Recovery? {
      GrowthKeepsKind(s.mem, st.g, b);
    } else {
      WorkOutcome(s, st, s');
    }
  }

  lemma GrowthKeepsKind(m: Mem, g: GrowStep, b: BoId)
    requires GrowEnabled(m, g) && GrowDefined(m, g) && b in m.bos
    ensures b in GrowNext(m, g).bos && GrowNext(m, g).bos[b].heap == m.bos[b].heap
  {}

  /** A buffer the job lists is there as long as it is in flight. */
  lemma ListedFrom(ss: seq<State>, sts: seq<Step>, i: nat, k: nat, p: nat, b: BoId)
    requires IsRun(ss, sts) && p < 2 && BusyFrom(ss, i, k, p) && GoesOnFrom(ss, i, k, p) && JobLists(ss[i], p, b)
    ensures b in ss[i].mem.bos && b in ss[k].mem.bos
  {
    assert Flies(ss[i].hw, p) && Flies(ss[k].hw, p);
    ListedIsLive(ss, sts, i, p, b);
    SameRangeFrom(ss, i, k, p, b);
    ListedIsLive(ss, sts, k, p, b);
  }

  lemma {:induction false} KindFrom(ss: seq<State>, sts: seq<Step>, i: nat, k: nat, p: nat, b: BoId)
    requires IsRun(ss, sts) && p < 2 && BusyFrom(ss, i, k, p) && GoesOnFrom(ss, i, k, p) && JobLists(ss[i], p, b)
    ensures b in ss[i].mem.bos && b in ss[k].mem.bos && ss[k].mem.bos[b].heap == ss[i].mem.bos[b].heap
  {
    ListedFrom(ss, sts, i, k, p, b);
    if i < k {
      KindFrom(ss, sts, i, k - 1, p, b);
      KindNext(ss, sts, k - 1, b);
    }
  }

  lemma KindNext(ss: seq<State>, sts: seq<Step>, i: nat, b: BoId)
    requires IsRun(ss, sts) && i < |sts| && b in ss[i].mem.bos && b in ss[i + 1].mem.bos
    ensures ss[i + 1].mem.bos[b].heap == ss[i].mem.bos[b].heap
  {
    NextInRun(ss, sts, i);
    KindStays(ss[i], sts[i], ss[i + 1], b);
  }

  /** The ranges of a job's buffers in a state of a run. */
  lemma ListedIsLive(ss: seq<State>, sts: seq<Step>, k: nat, p: nat, b: BoId)
    requires IsRun(ss, sts) && k < |ss| && p < 2 && Flies(ss[k].hw, p) && JobLists(ss[k], p, b)
    ensures b in JobView(ss[k], p).vas && b in ss[k].mem.bos
    ensures b in ss[k].mem.bos && !ss[k].mem.bos[b].heap ==> forall page :: !Leftover(JobView(ss[k], p), b, page)
  {
    RunInv(ss, sts, k);
    JobAtWork(ss[k], p);
    var m, v := ss[k].mem, RunningJob(ss[k], p).vm;
    assert ViewFits(m, v) && RangeFits(m, v, b);
    assert m.Vas(v)[b].Sane();
  }

  lemma OwnAnswer(ss: seq<State>, sts: seq<Step>, i: nat, l: nat, p: nat, j: nat, b: BoId, page: nat, dma: nat)
    requires IsRun(ss, sts) && p < 2 && StartedAt(ss, i, l, p) && JobLists(ss[i], p, b) && j < |Mmus(ss[l], p)|
    requires b in JobView(ss[i], p).vas && JobView(ss[i], p).vas[b].Owns(page) && !Leftover(JobView(ss[i], p), b, page)
    requires Translates(ss[l], Mmus(ss[l], p)[j], page, dma)
    ensures Gives(JobView(ss[l], p), b, page, dma)
  {
    assert Flies(ss[l].hw, p);
    RunInv(ss, sts, l);
    BusyGoesOn(ss, sts, i, l, p);
    FreshAtStart(ss, sts, i, l, p);
    RightFrom(ss, i, l, p, b, page);
    RightAnswer(ss[l], p, j, b, page, dma);
  }

  /**
   The GPU sees what it should.  A job is put on the hardware at state `i` and is there at state `k`;
   handle opens and closes, submissions, growths, failed ones too, and completions may have happened at
   any time.  Whatever answer its MMUs can give at `k`, cached or walked, for a page in the range of one
   of its buffers, that page is installed in the range, and the answer is the buffer's own page,
   populated or being added, if there was no leftover entry at the page when the job was started.  A
   buffer that is not a heap never has one, nor has a page that was installed then.
   */
  lemma OnlyOwnPages(ss: seq<State>, sts: seq<Step>, i: nat, k: nat, p: nat, j: nat, b: BoId, page: nat, dma: nat)
    requires IsRun(ss, sts) && p < 2 && StartedAt(ss, i, k, p) && j < |Mmus(ss[k], p)|
    requires JobLists(ss[i], p, b) && Translates(ss[k], Mmus(ss[k], p)[j], page, dma)
    ensures JobLists(ss[k], p, b) && b in JobView(ss[i], p).vas && b in JobView(ss[k], p).vas
    ensures b in ss[i].mem.bos && b in ss[k].mem.bos
    ensures JobView(ss[k], p).vas[b].Owns(page) <==> JobView(ss[i], p).vas[b].Owns(page)
    ensures JobView(ss[k], p).vas[b].Owns(page) && (!ss[k].mem.bos[b].heap || !Leftover(JobView(ss[i], p), b, page)) ==>
              var n, bo := JobView(ss[k], p).vas[b], ss[k].mem.bos[b];
              page in n.pages && page < Limit(n, bo) <= n.start + |bo.backing| && dma == bo.backing[page - n.start]
  {
    assert Flies(ss[i].hw, p) && Flies(ss[k].hw, p);
    ListedIsLive(ss, sts, i, p, b);
    BusyGoesOn(ss, sts, i, k, p);
    SameRangeFrom(ss, i, k, p, b);
    KindFrom(ss, sts, i, k, p, b);
    ListedIsLive(ss, sts, k, p, b);
    if JobView(ss[k], p).vas[b].Owns(page) && !Leftover(JobView(ss[i], p), b, page) {
      OwnAnswer(ss, sts, i, k, p, j, b, page, dma);
      InstalledInRun(ss, sts, k, p, b, page, dma);
    }
  }

  lemma {:induction false} ListsFrom(ss: seq<State>, i: nat, k: nat, p: nat, b: BoId)
    requires GoesOnFrom(ss, i, k, p)
    ensures JobLists(ss[k], p, b) <==> JobLists(ss[i], p, b)
  {
    if i < k {
      ListsFrom(ss, i, k - 1, p, b);
      assert GoesOn(ss[k - 1], ss[k - 1 + 1], p);
    }
  }

  /**
   So whenever a job is in flight, whatever has happened before: for a page of one of its buffers that is
   not a heap its MMUs give the buffer's own page, and nothing else.
   */
  lemma PlainBuffersAreSafe(ss: seq<State>, sts: seq<Step>, k: nat, p: nat, j: nat, b: BoId, page: nat, dma: nat)
    requires IsRun(ss, sts) && k < |ss| && p < 2 && Flies(ss[k].hw, p) && j < |Mmus(ss[k], p)|
    requires JobLists(ss[k], p, b) && Translates(ss[k], Mmus(ss[k], p)[j], page, dma)
    ensures b in JobView(ss[k], p).vas && b in ss[k].mem.bos
    ensures JobView(ss[k], p).vas[b].Owns(page) && !ss[k].mem.bos[b].heap ==>
              var n, bo := JobView(ss[k], p).vas[b], ss[k].mem.bos[b];
              page in n.pages && page < Limit(n, bo) <= n.start + |bo.backing| && dma == bo.backing[page - n.start]
  {
    var i := StartOf(ss, sts, k, p);
    BusyGoesOn(ss, sts, i, k, p);
    ListsFrom(ss, i, k, p, b);
    OnlyOwnPages(ss, sts, i, k, p, j, b, page, dma);
  }

  /** All answers the MMUs can give for the page, as long as the job is on the hardware, are installed ones. */
  ghost predicate AlwaysOwn(ss: seq<State>, i: nat, k: nat, p: nat, b: BoId, page: nat)
    requires k < |ss|
  {
    forall l, j, dma | i <= l <= k && 0 <= j < |Mmus(ss[l], p)| && Translates(ss[l], Mmus(ss[l], p)[j], page, dma) ::
      Gives(JobView(ss[l], p), b, page, dma)
  }

  /**
   And it sees only that exactly if there is no leftover entry at the page when the job is started: in
   every state the job is on the hardware, every answer for a page of its buffer is one installed there,
   if and only if the table has no other entry for the page at the start.
   */
  lemma OwnPagesIff(ss: seq<State>, sts: seq<Step>, i: nat, k: nat, p: nat, b: BoId, page: nat)
    requires IsRun(ss, sts) && p < 2 && StartedAt(ss, i, k, p) && JobLists(ss[i], p, b) && |Mmus(ss[i], p)| > 0
    requires b in JobView(ss[i], p).vas ==> JobView(ss[i], p).vas[b].Owns(page)
    ensures AlwaysOwn(ss, i, k, p, b, page) <==> !Leftover(JobView(ss[i], p), b, page)
  {
    assert Flies(ss[i].hw, p) && Flies(ss[k].hw, p);
    ListedIsLive(ss, sts, i, p, b);
    RunInv(ss, sts, i);
    JobAtWork(ss[i], p);
    if Leftover(JobView(ss[i], p), b, page) {
      assert Translates(ss[i], Mmus(ss[i], p)[0], page, JobView(ss[i], p).table[page]);
    } else {
      forall l, j, dma | i <= l <= k && 0 <= j < |Mmus(ss[l], p)| && Translates(ss[l], Mmus(ss[l], p)[j], page, dma)
        ensures Gives(JobView(ss[l], p), b, page, dma)
      {
        assert Flies(ss[l].hw, p);
        OwnAnswer(ss, sts, i, l, p, j, b, page, dma);
      }
    }
  }

  /** Only a deletion that left pages behind makes a leftover possible. */
  lemma CleanHasNoLeftover(ss: seq<State>, sts: seq<Step>, k: nat, v: VmId, b: BoId, page: nat)
    requires IsRun(ss, sts) && k < |ss| && v in ss[k].mem.vms && !ss[k].mem.vms[v].spoiled
    ensures !Leftover(ss[k].mem.vms[v].view, b, page)
  {
    RunInv(ss, sts, k);
    assert ViewFits(ss[k].mem, v);
    if Leftover(ss[k].mem.vms[v].view, b, page) {
      TailIsUnmapped(ss[k].mem.vms[v].view, b, page);
    }
  }
}
