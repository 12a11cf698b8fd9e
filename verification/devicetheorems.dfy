/**
 The main results: what is true in every state of every run of the device.
 */
module DeviceTheorems {
  import opened Wrappers
  import opened Geometry
  import opened VmSpec
  import opened Claims
  import opened JobSystem
  import opened JobSafety
  import opened PipeSafety
  import opened JobRuns

  /** After attach: no file, no buffer, two idle pipes, nothing powered. */
  ghost predicate IsInit(s: State) {
    && s.mem.vms == map[] && s.mem.bos == map[] && s.mem.holders == [] && s.mem.missed == {}
    && !s.mem.work.pending && s.mem.work.stage.Idle?
    && |s.hw.pipes| == 2 && s.hw.fences == map[] && s.hw.pm == 0 && s.hw.forced == 0
    && forall p | 0 <= p < 2 :: var pipe := s.hw.pipes[p]; pipe.task == None && pipe.vm == None && pipe.log == []
  }

  /**
   One step outside the cases in which the source is known to go wrong.  Were it to follow a dangling
   pointer all the same, anything could come after it.
   */
  ghost predicate StepTo(s: State, st: Step, s': State) {
    Enabled(s, st) && Avoids(s, st) && (Defined(s, st) ==> s' == Next(s, st))
  }

  ghost predicate IsRun(ss: seq<State>, sts: seq<Step>) {
    && |ss| == |sts| + 1 && IsInit(ss[0])
    && forall i | 0 <= i < |sts| :: StepTo(ss[i], sts[i], ss[i + 1])
  }

  lemma InitInv(s: State)
    requires IsInit(s)
    ensures Inv(s)
  {}

  lemma {:induction false} RunInv(ss: seq<State>, sts: seq<Step>, k: nat)
    requires IsRun(ss, sts) && k < |ss|
    ensures Inv(ss[k])
  {
    if k == 0 {
      InitInv(ss[0]);
    } else {
      RunInv(ss, sts, k - 1);
      assert StepTo(ss[k - 1], sts[k - 1], ss[k]);
      StepSafe(ss[k - 1], sts[k - 1]);
    }
  }

  /** Each step of a run is taken, keeps the invariant, and spares the jobs on the hardware. */
  lemma NextInRun(ss: seq<State>, sts: seq<Step>, i: nat)
    requires IsRun(ss, sts) && i < |sts|
    ensures Outcome(ss[i], sts[i]) == Some(ss[i + 1]) && Inv(ss[i]) && Good(ss[i], ss[i + 1])
  {
    RunInv(ss, sts, i);
    assert StepTo(ss[i], sts[i], ss[i + 1]);
    StepSafe(ss[i], sts[i]);
  }

  /**
   Whatever step comes next, after any run: it follows only pointers to things that still exist, and
   drops only a PM reference somebody holds, exactly outside the cases `Avoids` lists.
   */
  lemma NoStepDangles(ss: seq<State>, sts: seq<Step>, k: nat, st: Step)
    requires IsRun(ss, sts) && k < |ss| && Enabled(ss[k], st)
    ensures Defined(ss[k], st) <==> Avoids(ss[k], st)
  {
    RunInv(ss, sts, k);
    StepSafe(ss[k], st);
  }

  /**
   The listed cases need a heap.  A range that has all populated pages of its buffer installed can be
   deleted, unless it ends at 4 GiB; a buffer without a usable table is a heap of which a growth has
   failed or is at work.
   */
  lemma OnlyHeapsGoWrong(ss: seq<State>, sts: seq<Step>, k: nat, v: VmId, b: BoId)
    requires IsRun(ss, sts) && k < |ss| && v in ss[k].mem.vms && b in ss[k].mem.bos
    ensures b in ss[k].mem.Vas(v) && (v, b) !in ss[k].mem.missed &&
            Tail(ss[k].mem.Vas(v)[b], ss[k].mem.bos[b]) < PAGE_COUNT ==>
              CanDelete(ss[k].mem, v, b)
    ensures !CanMap(ss[k].mem, v, b) ==> ss[k].mem.bos[b].heap
    ensures !CanMap(ss[k].mem, v, b) && !ss[k].mem.work.NamesBo(b) ==> ss[k].mem.bos[b].sgt == Absent
  {
    RunInv(ss, sts, k);
    var m := ss[k].mem;
    assert BoOk(m.bos[b], StageOf(m.work, b));
    if b in m.Vas(v) && (v, b) !in m.missed && Tail(m.Vas(v)[b], m.bos[b]) < PAGE_COUNT {
      CoveredIsBacked(m, v, b);
    }
  }

  /** Installed pages have their backing tables. */
  lemma CoveredIsBacked(m: Mem, v: VmId, b: BoId)
    requires v in m.vms && b in m.Vas(v) && ViewFits(m, v) && (v, b) !in m.missed
    requires Tail(m.Vas(v)[b], m.bos[b]) < PAGE_COUNT
    ensures CanClear(m.vms[v].slots, m.Vas(v)[b].start, m.bos[b].populated)
  {
    assert RangeFits(m, v, b);
    var n, bo := m.Vas(v)[b], m.bos[b];
    assert Holds(m.Table(v), n.pages) && Complete(bo, n);
    forall p: nat | Between(n.start, p, bo.populated) ensures Slot(p) in m.vms[v].slots {
      assert p in n.pages && p in m.Table(v);
    }
  }

  /**
   While the task of a recovery is not being freed, the recovery finds all it needs, and goes wrong
   only if it frees the table while somebody reads it.
   */
  lemma RecoveryIsSafe(ss: seq<State>, sts: seq<Step>, k: nat, g: GrowStep)
    requires IsRun(ss, sts) && k < |ss| && GrowEnabled(ss[k].mem, g) && TaskLives(ss[k].mem, ss[k].mem.work.job)
    ensures GrowDefined(ss[k].mem, g) <==> !(FreesTable(ss[k].mem, g) && Walked(ss[k].mem, ss[k].mem.work.b))
  {
    RunInv(ss, sts, k);
    var m := ss[k].mem;
    JobIsLive(m, ss[k].hw.pipes, m.work.job);
    assert HolderFits(m.holders, m.work.job) && WorkFits(m.holders, m.work);
    assert LiveVa(m, m.work.v, m.work.b);
  }

  /** The job a busy pipe runs. */
  function RunningJob(s: State, p: nat): (h: Holder)
    requires p < |s.hw.pipes| && InFlight(s.hw, p)
  {
    var i := s.hw.pipes[p].task.value;
    if i < |s.mem.holders| then s.mem.holders[i] else Gone
  }

  /** What the MMU gives for page `page`: a cached translation, or else what its table walk finds. */
  ghost predicate Translates(s: State, mmu: Mmu, page: nat, dma: nat) {
    (page in mmu.tlb && mmu.tlb[page] == dma) ||
    (mmu.dte.Some? && mmu.dte.value in s.mem.vms && page in s.mem.Table(mmu.dte.value) &&
     s.mem.Table(mmu.dte.value)[page] == dma)
  }

  /** Range pages are mapped if installed, and only then unless a deletion has left pages behind. */
  lemma MappedIffInstalled(m: Mem, v: VmId, b: BoId, p: nat)
    requires ViewsFit(m) && v in m.vms && b in m.Vas(v) && m.Vas(v)[b].Owns(p)
    ensures p in m.Vas(v)[b].pages ==> p in m.Table(v)
    ensures p in m.Table(v) && !m.vms[v].spoiled ==> p in m.Vas(v)[b].pages
    ensures p in m.Vas(v)[b].pages ==>
              b in m.bos && p < Limit(m.Vas(v)[b], m.bos[b]) && m.Table(v)[p] == m.bos[b].backing[p - m.Vas(v)[b].start]
  {
    assert ViewFits(m, v) && RangeFits(m, v, b);
    assert Holds(m.Table(v), m.Vas(v)[b].pages);
    if p !in m.Vas(v)[b].pages && !m.vms[v].spoiled {
      TailIsUnmapped(m.vms[v].view, b, p);
    }
  }

  /** Every populated page of buffer `b` is mapped in address space `v`. */
  ghost predicate AllMapped(m: Mem, v: VmId, b: BoId)
    requires LiveVa(m, v, b)
  {
    forall p {:trigger p in m.Table(v)} | m.Vas(v)[b].start <= p < Tail(m.Vas(v)[b], m.bos[b]) :: p in m.Table(v)
  }

  /**
   A job can reach all of its buffers, with one exception: all populated pages are mapped, as the
   buffer's own, if and only if the buffer, a heap, has not grown past this address space since its
   range was created here.
   */
  lemma AllPagesMappedIff(ss: seq<State>, sts: seq<Step>, k: nat, v: VmId, b: BoId)
    requires IsRun(ss, sts) && k < |ss| && v in ss[k].mem.vms && b in ss[k].mem.Vas(v)
    ensures LiveVa(ss[k].mem, v, b)
    ensures AllInPlace(ss[k].mem, v, b) <==> (v, b) !in ss[k].mem.missed
    ensures AllMapped(ss[k].mem, v, b) && !ss[k].mem.vms[v].spoiled ==> AllInPlace(ss[k].mem, v, b)
    ensures !ss[k].mem.bos[b].heap ==> AllInPlace(ss[k].mem, v, b)
  {
    RunInv(ss, sts, k);
    var m := ss[k].mem;
    assert ViewFits(m, v) && RangeFits(m, v, b);
    CompleteIsMapped(m, v, b);
  }

  /** Every populated page of buffer `b` is installed in its range, and mapped to the buffer's own page. */
  ghost predicate AllInPlace(m: Mem, v: VmId, b: BoId)
    requires LiveVa(m, v, b)
  {
    forall p {:trigger p in m.Table(v)} | m.Vas(v)[b].start <= p < Tail(m.Vas(v)[b], m.bos[b]) ::
      InPlace(m, v, b, p)
  }

  predicate InPlace(m: Mem, v: VmId, b: BoId, p: nat)
    requires LiveVa(m, v, b)
  {
    && p in m.Vas(v)[b].pages && p in m.Table(v)
    && 0 <= p - m.Vas(v)[b].start < |m.bos[b].backing|
    && m.Table(v)[p] == m.bos[b].backing[p - m.Vas(v)[b].start]
  }

  lemma CompleteIsMapped(m: Mem, v: VmId, b: BoId)
    requires ViewsFit(m) && LiveVa(m, v, b)
    ensures Complete(m.bos[b], m.Vas(v)[b]) <==> AllInPlace(m, v, b)
    ensures AllMapped(m, v, b) && !m.vms[v].spoiled ==> AllInPlace(m, v, b)
  {
    assert ViewFits(m, v) && RangeFits(m, v, b);
    var n := m.Vas(v)[b];
    forall p | n.start <= p < Tail(n, m.bos[b])
      ensures p in n.pages <==> InPlace(m, v, b, p)
      ensures p in m.Table(v) && !m.vms[v].spoiled ==> p in n.pages
    {
      MappedIffInstalled(m, v, b, p);
    }
  }

  /**
   The exception is real: when the size of a grown heap is stored, every address space `w` in which
   its first new page is not installed has a page that is populated but not mapped, in use by a job
   or not.
   */
  lemma GrowthElsewhereIsMissed(m: Mem, w: VmId)
    requires ViewsFit(m) && BosFit(m) && m.work.stage.Installed? && LiveVa(m, w, m.work.b) && !m.vms[w].spoiled
    requires Tail(m.Vas(w)[m.work.b], m.bos[m.work.b]) !in m.Vas(w)[m.work.b].pages
    ensures var m' := GrowNext(m, StoreSize);
            && LiveVa(m', w, m.work.b) && !AllMapped(m', w, m.work.b) && (w, m.work.b) in m'.missed
            && Tail(m.Vas(w)[m.work.b], m.bos[m.work.b]) !in m'.Table(w)
  {
    var b, n, m' := m.work.b, m.Vas(w)[m.work.b], GrowNext(m, StoreSize);
    var x := Tail(n, m.bos[b]);
    assert ViewFits(m, w) && RangeFits(m, w, b) && BoOk(m.bos[b], StageOf(m.work, b));
    MappedIffInstalled(m, w, b, x);
    assert m'.Vas(w)[b] == n && m'.bos[b] == m.bos[b].Stored(m.bos[b].Next());
    assert n.start <= x < Tail(n, m'.bos[b]) && x !in m'.Table(w);
  }

  /**
   Nothing but live buffers: where no deletion has left pages behind, a table entry names the DLBU page
   or a page of a buffer that still exists.
   */
  lemma TablesNameLiveBuffers(ss: seq<State>, sts: seq<Step>, k: nat, v: VmId, page: nat)
    requires IsRun(ss, sts) && k < |ss| && v in ss[k].mem.vms && page in ss[k].mem.Table(v) && !ss[k].mem.vms[v].spoiled
    ensures page in ss[k].mem.vms[v].view.reserved ||
            exists b :: LiveVa(ss[k].mem, v, b) && ss[k].mem.Vas(v)[b].Owns(page) &&
                        ss[k].mem.Table(v)[page] in ss[k].mem.bos[b].backing
  {
    RunInv(ss, sts, k);
    var m := ss[k].mem;
    assert ViewFits(m, v) && Explained(m.Vas(v), m.vms[v].view.reserved, page);
    if page !in m.vms[v].view.reserved {
      var b :| b in m.Vas(v) && page in m.Vas(v)[b].pages;
      assert m.Vas(v)[b].Sane() && RangeFits(m, v, b);
      MappedIffInstalled(m, v, b, page);
    }
  }

  /**
   The counters are exact.  A range has as many users as open handles, submissions and jobs list
   its buffer in that address space; an address space as many as its file, queued or unfreed jobs,
   and pipes naming it; a buffer as many as handles, submissions, jobs, user mappings, and the
   references that failed job initialisations left behind.
   */
  lemma CountersAreExact(ss: seq<State>, sts: seq<Step>, k: nat, c: Claim)
    requires IsRun(ss, sts) && k < |ss|
    ensures Amount(ss[k].mem, c) == Sum(ss[k].mem.holders, c) + PipeClaims(ss[k].hw.pipes, c)
  {
    RunInv(ss, sts, k);
    assert CountOk(ss[k].mem, ss[k].hw.pipes, c);
  }

  /** A buffer that a range refers to is never freed; an address space with a range is never released. */
  lemma MappedIsAlive(ss: seq<State>, sts: seq<Step>, k: nat, v: VmId, b: BoId)
    requires IsRun(ss, sts) && k < |ss| && v in ss[k].mem.vms && b in ss[k].mem.Vas(v)
    ensures b in ss[k].mem.bos && ss[k].mem.bos[b].refs >= ss[k].mem.Vas(v)[b].refs > 0
  {
    RunInv(ss, sts, k);
    var m := ss[k].mem;
    assert ViewFits(m, v);
    PlainCounts(m, ss[k].hw.pipes);
    assert m.Vas(v)[b].Sane();
    FreedIsUnmapped(m, v, b);
  }

  /**
   The pipes: a task is recorded exactly while an address space is; fences were signalled in
   creation order and the running job's fence is newer than all of them; and the PM count is one
   per busy pipe, plus one for each forced teardown.
   */
  lemma PipesInEveryState(ss: seq<State>, sts: seq<Step>, k: nat, p: nat)
    requires IsRun(ss, sts) && k < |ss| && p < 2
    ensures |ss[k].hw.pipes| == 2
    ensures var pipe := ss[k].hw.pipes[p];
            && (pipe.task.None? <==> pipe.vm.None?)
            && (forall a, b | 0 <= a < b < |pipe.log| :: pipe.log[a] < pipe.log[b])
            && (InFlight(ss[k].hw, p) ==>
                  forall a | 0 <= a < |pipe.log| :: pipe.log[a] < ss[k].hw.fences[pipe.task.value].ordinal)
    ensures ss[k].hw.pm == Busy(ss[k].hw, 0) + Busy(ss[k].hw, 1) + ss[k].hw.forced
  {
    RunInv(ss, sts, k);
    assert PipeShape(ss[k].hw, p);
  }

  /** The seqno of a fence: pipe->fence_seqno is a u32. */
  function Seqno(ordinal: nat): u32 { ordinal % U32_LIMIT }

  /**
   Signalled seqnos increase with creation order exactly while the u32 does not wrap: of two fences
   fewer than 2^32 apart, the later has the larger seqno if and only if both were created between
   the same two wraps.
   */
  lemma SeqnoOrder(ss: seq<State>, sts: seq<Step>, k: nat, p: nat, a: nat, b: nat)
    requires IsRun(ss, sts) && k < |ss| && p < |ss[k].hw.pipes| && a < b < |ss[k].hw.pipes[p].log|
    requires ss[k].hw.pipes[p].log[b] - ss[k].hw.pipes[p].log[a] < U32_LIMIT
    ensures var x, y := ss[k].hw.pipes[p].log[a], ss[k].hw.pipes[p].log[b];
            Seqno(x) < Seqno(y) <==> x / U32_LIMIT == y / U32_LIMIT
  {
    RunInv(ss, sts, k);
    PipesInEveryState(ss, sts, k, p);
    EpochOrder(ss[k].hw.pipes[p].log[a], ss[k].hw.pipes[p].log[b]);
  }

  lemma EpochOrder(x: nat, y: nat)
    requires x < y < x + U32_LIMIT
    ensures Seqno(x) < Seqno(y) <==> x / U32_LIMIT == y / U32_LIMIT
  {}
}
