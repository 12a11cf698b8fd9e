/**
 What a busy pipe's MMUs may still have cached.  lima_vm_bo_del unmaps pages and flushes no TLB, so that an
 entry can outlive the range it was read from, though not one of the job's own buffers (`OwnPages`).
 */
module StaleTlb {
  import opened Wrappers
  import opened VmSpec
  import opened Claims
  import opened JobSystem
  import opened JobSafety
  import opened PipeSafety
  import opened JobRuns
  import opened DeviceTheorems
  import opened GrowthRaces
  import opened OwnPages

  /** Some live range has page `q` installed with this translation, or it is the reserved page's. */
  ghost predicate Named(w: View, q: nat, dma: nat) {
    Entry(w.reserved, q, dma) || exists c :: Gives(w, c, q, dma)
  }

  ghost predicate AllNamed(w: View, mmus: seq<Mmu>) {
    forall j, q {:trigger q in mmus[j].tlb} | 0 <= j < |mmus| && q in mmus[j].tlb :: Named(w, q, mmus[j].tlb[q])
  }

  /** Some MMU has a page of range `b` cached. */
  predicate Caches(w: View, mmus: seq<Mmu>, b: BoId) {
    exists j, q {:trigger q in mmus[j].tlb} :: 0 <= j < |mmus| && q in mmus[j].tlb && Gives(w, b, q, mmus[j].tlb[q])
  }

  /** The step is the last deletion of a range of the job's address space that has a page cached. */
  predicate Orphans(s: State, st: Step, p: nat) {
    && Victim(s.mem, st).Some? && Victim(s.mem, st).value.OnVa? && p < |s.hw.pipes|
    && s.hw.pipes[p].vm == Some(Victim(s.mem, st).value.v) && Victim(s.mem, st).value.b in JobView(s, p).vas
    && JobView(s, p).vas[Victim(s.mem, st).value.b].refs <= 1
    && Caches(JobView(s, p), Mmus(s, p), Victim(s.mem, st).value.b)
  }

  /** The step is a table walk that meets an entry an earlier deletion has left. */
  ghost predicate ReadsLeftover(s: State, st: Step, p: nat) {
    && st.Fill? && st.p == p && st.page in JobView(s, p).table
    && !Named(JobView(s, p), st.page, JobView(s, p).table[st.page])
  }

  // ----- single address spaces

  predicate AllThere(w: View, w': View) { forall c | c in w.vas :: c in w'.vas }

  /** Ranges that survive keep their names. */
  lemma NamedStays(w: View, w': View, q: nat, dma: nat, gone: BoId)
    requires ViewSurvives(w, w') && Named(w, q, dma) && !Gives(w, gone, q, dma)
    requires forall c | c in w.vas && c != gone :: c in w'.vas
    ensures Named(w', q, dma)
  {
    if !Entry(w.reserved, q, dma) {
      var c :| Gives(w, c, q, dma);
      assert Survives(w, w', c);
      assert Gives(w', c, q, dma);
    }
  }

  /** A released range leaves its pages without a name. */
  lemma NameGoes(w: View, b: BoId, cut: nat, q: nat, dma: nat)
    requires VmSound(w) && Gives(w, b, q, dma) && w.vas[b].refs <= 1
    ensures !Named(Drop(w, b, cut), q, dma)
  {
    var w' := Drop(w, b, cut);
    assert w.vas[b].Sane() && w.vas[b].Avoids(w.reserved);
    assert forall c | c in w.vas && c != b :: w.vas[b].Apart(w.vas[c]);
  }

  lemma DropNames(w: View, mmus: seq<Mmu>, b: BoId, cut: nat)
    requires VmSound(w) && b in w.vas && cut <= w.vas[b].size && AllNamed(w, mmus)
    ensures AllNamed(Drop(w, b, cut), mmus) <==> w.vas[b].refs > 1 || !Caches(w, mmus, b)
  {
    var w' := Drop(w, b, cut);
    DeletedKept(w, b, cut);
    if w.vas[b].refs > 1 {
      forall j, q | 0 <= j < |mmus| && q in mmus[j].tlb ensures Named(w', q, mmus[j].tlb[q]) {
        SharedNameStays(w, w', q, mmus[j].tlb[q]);
      }
    } else if Caches(w, mmus, b) {
      var j, q :| 0 <= j < |mmus| && q in mmus[j].tlb && Gives(w, b, q, mmus[j].tlb[q]);
      NameGoes(w, b, cut, q, mmus[j].tlb[q]);
    } else {
      forall j, q | 0 <= j < |mmus| && q in mmus[j].tlb ensures Named(w', q, mmus[j].tlb[q]) {
        NamedStays(w, w', q, mmus[j].tlb[q], b);
      }
    }
  }

  lemma SharedNameStays(w: View, w': View, q: nat, dma: nat)
    requires ViewSurvives(w, w') && Named(w, q, dma) && AllThere(w, w')
    ensures Named(w', q, dma)
  {
    if !Entry(w.reserved, q, dma) {
      var c :| Gives(w, c, q, dma);
      assert Survives(w, w', c);
      assert Gives(w', c, q, dma);
    }
  }

  /** With all ranges still there, what the MMUs had is named; what they have read since is if its name was. */
  lemma LearntNames(w: View, mmus: seq<Mmu>, w': View, mmus': seq<Mmu>)
    requires AllNamed(w, mmus) && ViewSurvives(w, w') && AllLearn(map[], mmus, mmus')
    requires AllThere(w, w')
    ensures AllNamed(w', mmus')
  {
    forall j, q | 0 <= j < |mmus'| && q in mmus'[j].tlb ensures Named(w', q, mmus'[j].tlb[q]) {
      assert Learns(map[], mmus[j], mmus'[j]) && q in mmus[j].tlb;
      SharedNameStays(w, w', q, mmus'[j].tlb[q]);
    }
  }

  // ----- what the steps do

  /** Without a deletion every range stays. */
  lemma RangesStay(s: State, st: Step, s': State, v: VmId)
    requires Inv(s) && Outcome(s, st) == Some(s') && Victim(s.mem, st).None? && v in s.mem.vms && v in s'.mem.vms
    ensures AllThere(s.mem.vms[v].view, s'.mem.vms[v].view)
  {
    if FileStep(st) {
      FileRangesStay(s, st, s', v);
    } else if JobStep(st) {
      JobRangesStay(s, st, s', v);
    } else if st.Recovery? {
      GrowthRangesStay(s.mem, st.g, v);
    } else {
      PipeRangesStay(s, st, s', v);
    }
  }

  lemma GrowthRangesStay(m: Mem, g: GrowStep, v: VmId)
    requires ViewsFit(m) && BosFit(m) && GrowEnabled(m, g) && GrowDefined(m, g) && v in m.vms
    ensures v in GrowNext(m, g).vms && AllThere(m.vms[v].view, GrowNext(m, g).vms[v].view)
  {
    GrowthKept(m, g);
  }

  lemma PipeRangesStay(s: State, st: Step, s': State, v: VmId)
    requires Outcome(s, st) == Some(s') && !FileStep(st) && !JobStep(st) && !st.Recovery?
    requires v in s.mem.vms && v in s'.mem.vms
    ensures AllThere(s.mem.vms[v].view, s'.mem.vms[v].view)
  {}

  lemma FileRangesStay(s: State, st: Step, s': State, v: VmId)
    requires Outcome(s, st) == Some(s') && FileStep(st) && !st.CloseHandle? && v in s.mem.vms && v in s'.mem.vms
    ensures AllThere(s.mem.vms[v].view, s'.mem.vms[v].view)
  {}

  lemma JobRangesStay(s: State, st: Step, s': State, v: VmId)
    requires Outcome(s, st) == Some(s') && JobStep(st) && !st.UnwindSubmit? && !st.FreeOne?
    requires v in s.mem.vms && v in s'.mem.vms
    ensures AllThere(s.mem.vms[v].view, s'.mem.vms[v].view)
  {}

  /** Only a table walk caches anything. */
  lemma OthersLearnNothing(s: State, st: Step, s': State, p: nat)
    requires |s.hw.pipes| == 2 && p < 2 && PipeRuns(s.mem, s.hw, p) && Flies(s.hw, p) && Flies(s'.hw, p)
    requires Outcome(s, st) == Some(s') && !(st.Fill? && st.p == p)
    ensures AllLearn(map[], Mmus(s, p), Mmus(s', p))
  {
    if !FileStep(st) && !JobStep(st) {
      PipesLearnNothing(s, st, s', p);
    }
  }

  lemma PipesLearnNothing(s: State, st: Step, s': State, p: nat)
    requires |s.hw.pipes| == 2 && p < 2 && PipeRuns(s.mem, s.hw, p) && Flies(s.hw, p) && Flies(s'.hw, p)
    requires Outcome(s, st) == Some(s') && !FileStep(st) && !JobStep(st) && !(st.Fill? && st.p == p)
    ensures AllLearn(map[], Mmus(s, p), Mmus(s', p))
  {}

  /** The two ways to get a cached entry without a range, and no other. */
  lemma StepNames(s: State, st: Step, s': State, p: nat)
    requires Inv(s) && Outcome(s, st) == Some(s') && Good(s, s') && p < 2 && Flies(s.hw, p) && Flies(s'.hw, p)
    requires AllNamed(JobView(s, p), Mmus(s, p))
    ensures AllNamed(JobView(s', p), Mmus(s', p)) <==> !Orphans(s, st, p) && !ReadsLeftover(s, st, p)
  {
    if Victim(s.mem, st).Some? {
      DeletionNames(s, st, s', p);
    } else if st.Fill? && st.p == p {
      WalkNames(s, st, s', p);
    } else {
      OtherNames(s, st, s', p);
    }
  }

  lemma OtherNames(s: State, st: Step, s': State, p: nat)
    requires Inv(s) && Outcome(s, st) == Some(s') && Good(s, s') && p < 2 && Flies(s.hw, p) && Flies(s'.hw, p)
    requires AllNamed(JobView(s, p), Mmus(s, p)) && Victim(s.mem, st).None? && !(st.Fill? && st.p == p)
    ensures AllNamed(JobView(s', p), Mmus(s', p))
  {
    OthersLearn(s, st, s', p);
    ViewStays(s, st, s', p);
    LearntNames(JobView(s, p), Mmus(s, p), JobView(s', p), Mmus(s', p));
  }

  lemma OthersLearn(s: State, st: Step, s': State, p: nat)
    requires Inv(s) && Outcome(s, st) == Some(s') && p < 2 && Flies(s.hw, p) && Flies(s'.hw, p)
    requires !(st.Fill? && st.p == p)
    ensures AllLearn(map[], Mmus(s, p), Mmus(s', p))
  {
    assert PipeRuns(s.mem, s.hw, p);
    OthersLearnNothing(s, st, s', p);
  }

  lemma ViewStays(s: State, st: Step, s': State, p: nat)
    requires Inv(s) && Outcome(s, st) == Some(s') && Good(s, s') && p < 2 && Flies(s.hw, p) && Flies(s'.hw, p)
    requires Victim(s.mem, st).None?
    ensures ViewSurvives(JobView(s, p), JobView(s', p))
    ensures AllThere(JobView(s, p), JobView(s', p))
  {
    ViewGoesOn(s, st, s', p);
    RangesStay(s, st, s', RunningJob(s, p).vm);
  }

  lemma ViewGoesOn(s: State, st: Step, s': State, p: nat)
    requires Inv(s) && Outcome(s, st) == Some(s') && Good(s, s') && p < 2 && Flies(s.hw, p) && Flies(s'.hw, p)
    ensures ViewSurvives(JobView(s, p), JobView(s', p))
    ensures RunningJob(s, p).Job? && RunningJob(s, p).vm in s.mem.vms && RunningJob(s, p).vm in s'.mem.vms
    ensures JobView(s, p) == s.mem.vms[RunningJob(s, p).vm].view
    ensures JobView(s', p) == s'.mem.vms[RunningJob(s, p).vm].view
  {
    JobAtWork(s, p);
    JobAtWork(s', p);
    JobStays(s, st, s', p);
  }

  lemma DeletionNames(s: State, st: Step, s': State, p: nat)
    requires Inv(s) && Outcome(s, st) == Some(s') && p < 2 && Flies(s.hw, p) && Flies(s'.hw, p)
    requires Victim(s.mem, st).Some? && AllNamed(JobView(s, p), Mmus(s, p))
    ensures AllNamed(JobView(s', p), Mmus(s', p)) <==> !Orphans(s, st, p)
  {
    VictimDropped(s, st, s');
    var v, b := Victim(s.mem, st).value.v, Victim(s.mem, st).value.b;
    assert s'.hw == s.hw;
    DroppedNames(s, s', p, v, b);
  }

  lemma DroppedNames(s: State, s': State, p: nat, v: VmId, b: BoId)
    requires Inv(s) && LosesUser(s.mem, s'.mem, v, b) && s'.hw == s.hw && p < 2 && Flies(s.hw, p)
    requires AllNamed(JobView(s, p), Mmus(s, p))
    ensures AllNamed(JobView(s', p), Mmus(s', p)) <==>
              !(s.hw.pipes[p].vm == Some(v) && s.mem.Vas(v)[b].refs <= 1 && Caches(JobView(s, p), Mmus(s, p), b))
  {
    JobAtWork(s, p);
    if s.hw.pipes[p].vm == Some(v) {
      assert ViewFits(s.mem, v) && RangeFits(s.mem, v, b);
      DropNames(JobView(s, p), Mmus(s, p), b, s.mem.bos[b].populated);
    }
  }

  lemma WalkNames(s: State, st: Step, s': State, p: nat)
    requires Inv(s) && Outcome(s, st) == Some(s') && p < 2 && Flies(s.hw, p) && Flies(s'.hw, p)
    requires st.Fill? && st.p == p && AllNamed(JobView(s, p), Mmus(s, p))
    ensures AllNamed(JobView(s', p), Mmus(s', p)) <==> !ReadsLeftover(s, st, p)
  {
    JobAtWork(s, p);
    var w, mmus, mmus' := JobView(s, p), Mmus(s, p), Mmus(s', p);
    assert JobView(s', p) == w && mmus[st.j].dte == Some(RunningJob(s, p).vm);
    if st.page in w.table {
      assert mmus' == mmus[st.j := Mmu(mmus[st.j].dte, mmus[st.j].tlb[st.page := w.table[st.page]])];
      WalkedNames(w, mmus, st.j, st.page);
    } else {
      assert mmus' == mmus;
    }
  }

  lemma WalkedNames(w: View, mmus: seq<Mmu>, j: nat, page: nat)
    requires AllNamed(w, mmus) && j < |mmus| && page in w.table
    ensures AllNamed(w, mmus[j := Mmu(mmus[j].dte, mmus[j].tlb[page := w.table[page]])]) <==>
              Named(w, page, w.table[page])
  {
    var mmus' := mmus[j := Mmu(mmus[j].dte, mmus[j].tlb[page := w.table[page]])];
    assert page in mmus'[j].tlb && mmus'[j].tlb[page] == w.table[page];
  }

  // ----- runs

  ghost predicate NamedFrom(ss: seq<State>, i: nat, k: nat, p: nat)
    requires k < |ss|
  {
    forall l | i <= l <= k :: AllNamed(JobView(ss[l], p), Mmus(ss[l], p))
  }

  ghost predicate NoneOrphaned(ss: seq<State>, sts: seq<Step>, i: nat, k: nat, p: nat)
    requires k <= |ss| && k <= |sts|
  {
    forall l | i <= l < k :: !Orphans(ss[l], sts[l], p) && !ReadsLeftover(ss[l], sts[l], p)
  }

  /** The step from the l-th state does to cached entries what `StepNames` says. */
  ghost predicate NamesStep(ss: seq<State>, sts: seq<Step>, l: nat, p: nat)
    requires l + 1 < |ss| && l < |sts|
  {
    AllNamed(JobView(ss[l], p), Mmus(ss[l], p)) ==>
      (AllNamed(JobView(ss[l + 1], p), Mmus(ss[l + 1], p)) <==>
         !Orphans(ss[l], sts[l], p) && !ReadsLeftover(ss[l], sts[l], p))
  }

  lemma {:induction false} NamesChain(ss: seq<State>, sts: seq<Step>, i: nat, k: nat, p: nat)
    requires i <= k < |ss| && k <= |sts| && forall l | i <= l < k :: NamesStep(ss, sts, l, p)
    requires AllNamed(JobView(ss[i], p), Mmus(ss[i], p))
    ensures NamedFrom(ss, i, k, p) <==> NoneOrphaned(ss, sts, i, k, p)
  {
    if i < k {
      NamesChain(ss, sts, i, k - 1, p);
      assert NamesStep(ss, sts, k - 1, p);
      assert NamedFrom(ss, i, k, p) <==> NamedFrom(ss, i, k - 1, p) && AllNamed(JobView(ss[k], p), Mmus(ss[k], p));
    }
  }

  lemma NextNames(ss: seq<State>, sts: seq<Step>, i: nat, p: nat)
    requires IsRun(ss, sts) && i < |sts| && p < 2 && Flies(ss[i].hw, p) && Flies(ss[i + 1].hw, p)
    ensures NamesStep(ss, sts, i, p)
  {
    NextInRun(ss, sts, i);
    if AllNamed(JobView(ss[i], p), Mmus(ss[i], p)) {
      StepNames(ss[i], sts[i], ss[i + 1], p);
    }
  }

  /**
   Nothing is cached at state `i`: the pipe has just been switched, or flushed; and it is busy up to state
   `k`.  In all states between, every cached entry is one that a live range or the reserved page has, if
   and only if no step between is the last deletion of a range of the address space with a page cached,
   or a table walk that meets a leftover.
   */
  lemma CachedIff(ss: seq<State>, sts: seq<Step>, i: nat, k: nat, p: nat)
    requires IsRun(ss, sts) && p < 2 && BusyFrom(ss, i, k, p) && AllFresh(Mmus(ss[i], p))
    ensures NamedFrom(ss, i, k, p) <==> NoneOrphaned(ss, sts, i, k, p)
  {
    forall l | i <= l < k ensures NamesStep(ss, sts, l, p) {
      assert Flies(ss[l].hw, p) && Flies(ss[l + 1].hw, p);
      NextNames(ss, sts, l, p);
    }
    NamesChain(ss, sts, i, k, p);
  }

  /** An entry with a name is the reserved page's, or of a page of a buffer that exists. */
  lemma NamedIsLive(ss: seq<State>, sts: seq<Step>, k: nat, p: nat, q: nat, dma: nat)
    requires IsRun(ss, sts) && k < |ss| && p < 2 && Flies(ss[k].hw, p) && Named(JobView(ss[k], p), q, dma)
    ensures Entry(JobView(ss[k], p).reserved, q, dma) ||
            exists b :: b in ss[k].mem.bos && dma in ss[k].mem.bos[b].backing
  {
    if !Entry(JobView(ss[k], p).reserved, q, dma) {
      var b :| Gives(JobView(ss[k], p), b, q, dma);
      InstalledInRun(ss, sts, k, p, b, q, dma);
    }
  }

  /** The TLB flush at the start of the recovery work leaves nothing cached. */
  lemma FlushIsFresh(s: State, s': State)
    requires Outcome(s, FlushTlb) == Some(s')
    ensures AllFresh(Mmus(s', 0))
  {}

  /** Between jobs nothing is promised: an idle pipe's MMUs may come to hold whatever there is. */
  lemma IdleHoldsAnything(s: State, p: nat, mmus: seq<Mmu>)
    requires p < |s.hw.pipes| && p < 2 && !InFlight(s.hw, p)
    ensures exists s' :: Outcome(s, Scramble(p, mmus)) == Some(s') && Mmus(s', p) == mmus && s'.mem == s.mem
  {
    var s' := Next(s, Scramble(p, mmus));
    assert Outcome(s, Scramble(p, mmus)) == Some(s') && Mmus(s', p) == mmus;
  }
}
