/**
 The references over whole runs, told by the steps that were taken: each counter is what the gets of the
 source have added, less what its puts have taken away; and what a failed job initialisation leaks is
 never given back.
 */
module RefTheorems {
  import opened Wrappers
  import opened VmSpec
  import opened Claims
  import opened JobSystem
  import opened JobSafety
  import opened PipeSafety
  import opened JobRuns
  import opened DeviceTheorems
  import opened PipeTheorems

  function HolderAt(s: State, i: nat): Holder { if i < |s.mem.holders| then s.mem.holders[i] else Gone }

  function PipeVm(s: State, p: nat): Option<VmId> { if p < |s.hw.pipes| then s.hw.pipes[p].vm else None }

  /** Claims of each buffer of a list, on the range in address space `v`, or on the buffer itself. */
  function OneOn(v: VmId, b: BoId, c: Claim): nat { Bit(c == OnVa(v, b)) + Bit(c == OnBo(b)) }

  function EachBo(bos: seq<BoId>, c: Claim): nat { if c.OnBo? then Times(bos, c.b) else 0 }

  /** The references of one kind that a step takes. */
  function Takes(s: State, st: Step, c: Claim): nat {
    match st
    case OpenFile(v, _) => Bit(c == OnVm(v))
    case CreateBo(b, _) => Bit(c == OnBo(b))
    case OpenHandle(v, b, _) => OneOn(v, b, c)
    case MapUser(b) => Bit(c == OnBo(b))
    case BeginOpen(_, b) => Bit(c == OnBo(b))
    case AddToSubmit(i, b) => if HolderAt(s, i).Submitting? then OneOn(HolderAt(s, i).vm, b, c) else 0
    case JobInitFails(i) => if HolderAt(s, i).Submitting? then EachBo(HolderAt(s, i).bos, c) else 0
    case Queue(i, _, _) => Bit(HolderAt(s, i).Submitting? && c == OnVm(HolderAt(s, i).vm))
    case StartRun(i) => Bit(HolderAt(s, i).Job? && c == OnVm(HolderAt(s, i).vm))
    case _ => 0
  }

  /** The pipe on which the step forgets the address space it had. */
  function Forgetting(s: State, st: Step): Option<nat> {
    match st
    case StartRun(i) => if HolderAt(s, i).Job? then Some(HolderAt(s, i).pipe) else None
    case TimedOut(p, _) => Some(p)
    case Stop(p, _) => Some(p)
    case _ => None
  }

  /** The references of one kind that a step gives back. */
  function Gives(s: State, st: Step, c: Claim): nat {
    match st
    case CloseFile(i) => Bit(HolderAt(s, i).File? && c == OnVm(HolderAt(s, i).vm))
    case DropCreated(i) => Bit(HolderAt(s, i).Creating? && c == OnBo(HolderAt(s, i).bo))
    case UnmapUser(i) => Bit(HolderAt(s, i).Mapping? && c == OnBo(HolderAt(s, i).bo))
    case EndOpen(i) => Bit(HolderAt(s, i).Opening? && c == OnBo(HolderAt(s, i).bo))
    case CloseHandle(i) => if HolderAt(s, i).Handle? then OneOn(HolderAt(s, i).vm, HolderAt(s, i).bo, c) else 0
    case UnwindSubmit(i) =>
      if HolderAt(s, i).Submitting? && HolderAt(s, i).bos != []
      then OneOn(HolderAt(s, i).vm, HolderAt(s, i).bos[0], c) else 0
    case FreeOne(i) =>
      Bit(HolderAt(s, i).Freeing? && HolderAt(s, i).bos != [] && c == OnVa(HolderAt(s, i).vm, HolderAt(s, i).bos[0]))
    case EndFree(i) =>
      if HolderAt(s, i).Freeing? then Bit(c == OnVm(HolderAt(s, i).vm)) + EachBo(HolderAt(s, i).objs, c) else 0
    case _ =>
      Bit(Forgetting(s, st).Some? && c.OnVm? && PipeVm(s, Forgetting(s, st).value) == Some(c.v))
  }

  // ----- what one step does to the holders

  /** The holder a step adds. */
  function Added(s: State, st: Step): Option<Holder> {
    match st
    case OpenFile(v, _) => Some(File(v))
    case CreateBo(b, _) => Some(Creating(b))
    case OpenHandle(v, b, _) => Some(Handle(v, b))
    case MapUser(b) => Some(Mapping(b))
    case BeginOpen(v, b) => Some(Opening(v, b))
    case BeginSubmit(v) => Some(Submitting(v, []))
    case JobInitFails(i) => if HolderAt(s, i).Submitting? then Some(Leaked(HolderAt(s, i).bos)) else None
    case _ => None
  }

  /** The holder a step changes, if it changes one. */
  function Changed(st: Step): Option<nat> {
    match st
    case CloseFile(i) => Some(i)
    case DropCreated(i) => Some(i)
    case UnmapUser(i) => Some(i)
    case EndOpen(i) => Some(i)
    case CloseHandle(i) => Some(i)
    case AddToSubmit(i, _) => Some(i)
    case UnwindSubmit(i) => Some(i)
    case EndSubmit(i) => Some(i)
    case Queue(i, _, _) => Some(i)
    case BeginFree(i) => Some(i)
    case FreeOne(i) => Some(i)
    case EndFree(i) => Some(i)
    case _ => None
  }

  /** What it becomes. */
  function Becomes(s: State, st: Step, i: nat): Holder {
    var h := HolderAt(s, i);
    match st
    case AddToSubmit(_, b) => if h.Submitting? then Submitting(h.vm, h.bos + [b]) else h
    case UnwindSubmit(_) => if h.Submitting? && h.bos != [] then Submitting(h.vm, h.bos[1..]) else h
    case Queue(_, pipe, heap) => if h.Submitting? then Job(h.vm, pipe, h.bos, heap) else h
    case BeginFree(_) => if h.Job? then Freeing(h.vm, h.bos, h.bos) else h
    case FreeOne(_) => if h.Freeing? && h.bos != [] then Freeing(h.vm, h.bos[1..], h.objs) else h
    case _ => Gone
  }

  /** The memory side after the step. */
  ghost function MemAfter(s: State, st: Step): Mem {
    if Enabled(s, st) && Defined(s, st) then NextMem(s, st) else s.mem
  }

  /** The holders after the step. */
  function HoldersAfter(s: State, st: Step): seq<Holder> {
    if Added(s, st).Some? then s.mem.holders + [Added(s, st).value]
    else if Changed(st).Some? && Changed(st).value < |s.mem.holders|
    then s.mem.holders[Changed(st).value := Becomes(s, st, Changed(st).value)]
    else s.mem.holders
  }

  lemma FileHolders(s: State, st: Step)
    requires Outcome(s, st).Some? && FileStep(st)
    ensures MemAfter(s, st).holders == HoldersAfter(s, st)
  {}

  lemma JobHolders(s: State, st: Step)
    requires Outcome(s, st).Some? && JobStep(st)
    ensures MemAfter(s, st).holders == HoldersAfter(s, st)
  {}

  lemma PipeHolders(s: State, st: Step)
    requires Outcome(s, st).Some? && !FileStep(st) && !JobStep(st)
    ensures MemAfter(s, st).holders == s.mem.holders == HoldersAfter(s, st)
  {}

  /** The holder is of the kind the step works on. */
  predicate Suits(h: Holder, st: Step) {
    match st
    case CloseFile(_) => h.File?
    case DropCreated(_) => h.Creating?
    case UnmapUser(_) => h.Mapping?
    case EndOpen(_) => h.Opening?
    case CloseHandle(_) => h.Handle?
    case AddToSubmit(_, _) => h.Submitting?
    case UnwindSubmit(_) => h.Submitting? && h.bos != []
    case EndSubmit(_) => h.Submitting? && h.bos == []
    case Queue(_, _, _) => h.Submitting?
    case BeginFree(_) => h.Job?
    case FreeOne(_) => h.Freeing? && h.bos != []
    case EndFree(_) => h.Freeing? && h.bos == []
    case _ => true
  }

  lemma ChangedSuits(s: State, st: Step)
    requires Outcome(s, st).Some? && Changed(st).Some?
    ensures Changed(st).value < |s.mem.holders| && Suits(s.mem.holders[Changed(st).value], st)
  {}

  /** Its claims change by what the step takes and gives. */
  predicate WeightOk(s: State, st: Step, h: Holder, h': Holder, c: Claim) {
    Weight(h', c) + Gives(s, st, c) == Weight(h, c) + Takes(s, st, c)
  }

  lemma FileWeight(s: State, st: Step, i: nat, c: Claim)
    requires Changed(st) == Some(i) && i < |s.mem.holders| && Suits(s.mem.holders[i], st) && FileStep(st)
    ensures WeightOk(s, st, s.mem.holders[i], Becomes(s, st, i), c)
  {}

  /** A submission, or a job, with one buffer more or one less. */
  lemma ListWeight(s: State, st: Step, i: nat, c: Claim)
    requires Changed(st) == Some(i) && i < |s.mem.holders| && Suits(s.mem.holders[i], st)
    requires st.AddToSubmit? || st.UnwindSubmit? || st.FreeOne?
    ensures WeightOk(s, st, s.mem.holders[i], Becomes(s, st, i), c)
  {
    if !c.OnVm? {
      var h := s.mem.holders[i];
      if st.AddToSubmit? { TimesPush(h.bos, st.b, c.b); } else { TimesTail(h.bos, c.b); }
    }
  }

  lemma JobWeight(s: State, st: Step, i: nat, c: Claim)
    requires Changed(st) == Some(i) && i < |s.mem.holders| && Suits(s.mem.holders[i], st)
    requires st.EndSubmit? || st.Queue? || st.BeginFree? || st.EndFree?
    ensures WeightOk(s, st, s.mem.holders[i], Becomes(s, st, i), c)
  {}

  lemma WeightStep(s: State, st: Step, i: nat, c: Claim)
    requires Changed(st) == Some(i) && i < |s.mem.holders| && Suits(s.mem.holders[i], st)
    ensures WeightOk(s, st, s.mem.holders[i], Becomes(s, st, i), c)
  {
    if FileStep(st) { FileWeight(s, st, i, c); }
    else if st.AddToSubmit? || st.UnwindSubmit? || st.FreeOne? { ListWeight(s, st, i, c); }
    else { JobWeight(s, st, i, c); }
  }

  lemma AddedWeight(s: State, st: Step, c: Claim)
    requires Added(s, st).Some?
    ensures Weight(Added(s, st).value, c) == Takes(s, st, c) && Gives(s, st, c) == 0
  {}

  lemma NoneWeight(s: State, st: Step, c: Claim)
    requires (FileStep(st) || JobStep(st)) && Added(s, st).None? && Changed(st).None?
    ensures Takes(s, st, c) == 0 == Gives(s, st, c)
  {}

  /** So the sum of all claims does. */
  lemma SumStep(s: State, st: Step, c: Claim)
    requires Outcome(s, st).Some? && (FileStep(st) || JobStep(st))
    ensures Sum(HoldersAfter(s, st), c) + Gives(s, st, c) == Sum(s.mem.holders, c) + Takes(s, st, c)
  {
    if Added(s, st).Some? {
      SumPush(s.mem.holders, Added(s, st).value, c);
      AddedWeight(s, st, c);
    } else if Changed(st).Some? {
      var i := Changed(st).value;
      ChangedSuits(s, st);
      SumSet(s.mem.holders, i, Becomes(s, st, i), c);
      WeightStep(s, st, i, c);
    } else {
      NoneWeight(s, st, c);
    }
  }

  // ----- and to the pipes

  lemma VmUntouched(s: State, st: Step, p: nat)
    requires p < |s.hw.pipes| && !st.StartRun? && !st.TimedOut? && !st.Stop?
    ensures p < |HwAfter(s, st).pipes| && HwAfter(s, st).pipes[p].vm == s.hw.pipes[p].vm
  {}

  /** The address space recorded on a pipe: put where the step forgets it, got where it starts a job. */
  lemma VmsKept(s: State, st: Step, p: nat)
    requires Outcome(s, st).Some? && p < |s.hw.pipes| && Forgetting(s, st) != Some(p)
    ensures p < |HwAfter(s, st).pipes| && HwAfter(s, st).pipes[p].vm == s.hw.pipes[p].vm
  {
    if !st.StartRun? && !st.TimedOut? && !st.Stop? { VmUntouched(s, st, p); }
  }

  lemma VmForgotten(s: State, st: Step)
    requires Outcome(s, st).Some? && Forgetting(s, st).Some?
    ensures var p := Forgetting(s, st).value;
            p < |s.hw.pipes| == |HwAfter(s, st).pipes| &&
            HwAfter(s, st).pipes[p].vm == if st.StartRun? then Some(HolderAt(s, st.i).vm) else None
    ensures st.StartRun? ==> HolderAt(s, st.i).Job?
  {}

  lemma ClaimStep(s: State, st: Step, c: Claim)
    requires Outcome(s, st).Some? && !FileStep(st) && !JobStep(st) && |s.hw.pipes| == 2
    ensures PipeClaims(HwAfter(s, st).pipes, c) + Gives(s, st, c) == PipeClaims(s.hw.pipes, c) + Takes(s, st, c)
  {
    if Forgetting(s, st).Some? { VmForgotten(s, st); }
    forall p: nat | p < 2 && Forgetting(s, st) != Some(p)
      ensures p < |HwAfter(s, st).pipes| && HwAfter(s, st).pipes[p].vm == s.hw.pipes[p].vm
    {
      VmsKept(s, st, p);
    }
  }

  // ----- over a run

  /** Each step of a run leads to the state after it. */
  lemma StateInRun(ss: seq<State>, sts: seq<Step>, i: nat)
    requires IsRun(ss, sts) && i < |sts|
    ensures Outcome(ss[i], sts[i]).Some? && |ss[i].hw.pipes| == 2
    ensures ss[i + 1].mem == MemAfter(ss[i], sts[i]) && ss[i + 1].hw == HwAfter(ss[i], sts[i])
  {
    HwInRun(ss, sts, i);
    PipesInEveryState(ss, sts, i, 0);
  }

  lemma HoldersInRun(ss: seq<State>, sts: seq<Step>, i: nat)
    requires IsRun(ss, sts) && i < |sts|
    ensures ss[i + 1].mem.holders == HoldersAfter(ss[i], sts[i])
  {
    StateInRun(ss, sts, i);
    if FileStep(sts[i]) { FileHolders(ss[i], sts[i]); }
    else if JobStep(sts[i]) { JobHolders(ss[i], sts[i]); }
    else { PipeHolders(ss[i], sts[i]); }
  }

  /** Every step changes every counter by exactly the references it takes and gives back. */
  lemma CountersFollowSteps(ss: seq<State>, sts: seq<Step>, i: nat, c: Claim)
    requires IsRun(ss, sts) && i < |sts|
    ensures Amount(ss[i + 1].mem, c) + Gives(ss[i], sts[i], c) == Amount(ss[i].mem, c) + Takes(ss[i], sts[i], c)
  {
    CountersAreExact(ss, sts, i, c);
    CountersAreExact(ss, sts, i + 1, c);
    StateInRun(ss, sts, i);
    HoldersInRun(ss, sts, i);
    if FileStep(sts[i]) || JobStep(sts[i]) {
      SumStep(ss[i], sts[i], c);
    } else {
      PipeHolders(ss[i], sts[i]);
      ClaimStep(ss[i], sts[i], c);
    }
  }

  /** The references the first `k` steps take, and give back. */
  ghost function Taken(ss: seq<State>, sts: seq<Step>, k: nat, c: Claim): nat
    requires k <= |sts| < |ss|
  {
    if k == 0 then 0 else Taken(ss, sts, k - 1, c) + Takes(ss[k - 1], sts[k - 1], c)
  }

  ghost function Given(ss: seq<State>, sts: seq<Step>, k: nat, c: Claim): nat
    requires k <= |sts| < |ss|
  {
    if k == 0 then 0 else Given(ss, sts, k - 1, c) + Gives(ss[k - 1], sts[k - 1], c)
  }

  ghost predicate CountMoves(ss: seq<State>, sts: seq<Step>, i: nat, c: Claim)
    requires i < |sts| < |ss|
  {
    Amount(ss[i + 1].mem, c) + Gives(ss[i], sts[i], c) == Amount(ss[i].mem, c) + Takes(ss[i], sts[i], c)
  }

  lemma CountTrace(ss: seq<State>, sts: seq<Step>, k: nat, c: Claim)
    requires k <= |sts| < |ss| && Amount(ss[0].mem, c) == 0 && forall i | 0 <= i < |sts| :: CountMoves(ss, sts, i, c)
    ensures Amount(ss[k].mem, c) == Taken(ss, sts, k, c) - Given(ss, sts, k, c)
  {
    for i := 0 to k
      invariant Amount(ss[i].mem, c) == Taken(ss, sts, i, c) - Given(ss, sts, i, c)
    {
      assert CountMoves(ss, sts, i, c);
    }
  }

  /**
   Conservation.  In every state the refcount of an address space, the users of a range and the GEM
   refcount of a buffer are the references taken so far less those given back.
   */
  lemma ReferencesAreConserved(ss: seq<State>, sts: seq<Step>, k: nat, c: Claim)
    requires IsRun(ss, sts) && k < |ss|
    ensures Amount(ss[k].mem, c) == Taken(ss, sts, k, c) - Given(ss, sts, k, c)
  {
    forall i | 0 <= i < |sts| ensures CountMoves(ss, sts, i, c) {
      CountersFollowSteps(ss, sts, i, c);
    }
    CountTrace(ss, sts, k, c);
  }

  // ----- the leak

  lemma LeakedKept(s: State, st: Step, j: nat)
    requires Outcome(s, st).Some? && j < |s.mem.holders| && s.mem.holders[j].Leaked?
    ensures j < |HoldersAfter(s, st)| && HoldersAfter(s, st)[j] == s.mem.holders[j]
  {
    if Changed(st).Some? { ChangedSuits(s, st); }
  }

  ghost predicate LeakMoves(ss: seq<State>, i: nat, j: nat)
    requires i + 1 < |ss|
  {
    HolderAt(ss[i], j).Leaked? ==> HolderAt(ss[i + 1], j) == HolderAt(ss[i], j)
  }

  lemma LeakInRun(ss: seq<State>, sts: seq<Step>, i: nat, j: nat)
    requires IsRun(ss, sts) && i < |sts|
    ensures LeakMoves(ss, i, j)
  {
    StateInRun(ss, sts, i);
    HoldersInRun(ss, sts, i);
    if HolderAt(ss[i], j).Leaked? { LeakedKept(ss[i], sts[i], j); }
  }

  lemma LeakTrace(ss: seq<State>, i: nat, k: nat, j: nat)
    requires i <= k < |ss| && HolderAt(ss[i], j).Leaked? && forall n | 0 <= n < |ss| - 1 :: LeakMoves(ss, n, j)
    ensures HolderAt(ss[k], j) == HolderAt(ss[i], j)
  {
    for n := i to k
      invariant HolderAt(ss[n], j) == HolderAt(ss[i], j)
    {
      assert LeakMoves(ss, n, j);
    }
  }

  /** What has leaked stays leaked. */
  lemma LeakedStays(ss: seq<State>, sts: seq<Step>, i: nat, k: nat, j: nat)
    requires IsRun(ss, sts) && i <= k < |ss| && HolderAt(ss[i], j).Leaked?
    ensures HolderAt(ss[k], j) == HolderAt(ss[i], j)
  {
    forall n | 0 <= n < |ss| - 1 ensures LeakMoves(ss, n, j) {
      LeakInRun(ss, sts, n, j);
    }
    LeakTrace(ss, i, k, j);
  }

  /**
   A submission whose drm_sched_job_init fails leaks: whatever is closed, unwound and freed afterwards,
   none of its buffers is ever freed again.
   */
  lemma LeakIsForGood(ss: seq<State>, sts: seq<Step>, i: nat, k: nat, b: BoId)
    requires IsRun(ss, sts) && i < k < |ss| && sts[i].JobInitFails?
    requires HolderAt(ss[i], sts[i].i).Submitting? && b in HolderAt(ss[i], sts[i].i).bos
    ensures b in ss[k].mem.bos && ss[k].mem.bos[b].refs > 0
  {
    StateInRun(ss, sts, i);
    HoldersInRun(ss, sts, i);
    var j := |ss[i].mem.holders|;
    LeakedStays(ss, sts, i + 1, k, j);
    SumAtLeast(ss[k].mem.holders, j, OnBo(b));
    CountersAreExact(ss, sts, k, OnBo(b));
  }
}
