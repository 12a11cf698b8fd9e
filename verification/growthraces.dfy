/**
 What a growth of a heap does to the clients it is shared with.  lima_heap_alloc replaces the sg table
 and stores the new size without a lock; a client that opens the heap between the two installs pages
 which its last deletion, going by the old size, does not unmap.
 */
module GrowthRaces {
  import opened Wrappers
  import opened Geometry
  import opened VmSpec
  import opened Claims
  import opened JobSystem
  import opened JobSafety
  import opened PipeSafety
  import opened JobRuns
  import opened DeviceTheorems

  /** The range a step deletes a user of. */
  function Victim(m: Mem, st: Step): Option<Claim> {
    match st
    case CloseHandle(i) =>
      if i < |m.holders| && m.holders[i].Handle? then Some(OnVa(m.holders[i].vm, m.holders[i].bo)) else None
    case UnwindSubmit(i) =>
      if i < |m.holders| && m.holders[i].Submitting? && m.holders[i].bos != []
      then Some(OnVa(m.holders[i].vm, m.holders[i].bos[0])) else None
    case FreeOne(i) =>
      if i < |m.holders| && m.holders[i].Freeing? && m.holders[i].bos != []
      then Some(OnVa(m.holders[i].vm, m.holders[i].bos[0])) else None
    case _ => None
  }

  /** The last deletion of a range with an installed page past the size it goes by. */
  predicate Leaves(m: Mem, v: VmId, b: BoId) {
    LiveVa(m, v, b) && m.Vas(v)[b].refs <= 1 && Overhangs(m.Vas(v)[b], m.bos[b].populated)
  }

  predicate Forgets(s: State, st: Step, v: VmId) {
    Victim(s.mem, st).Some? && Victim(s.mem, st).value.v == v && Leaves(s.mem, v, Victim(s.mem, st).value.b)
  }

  // ----- exactly such a deletion leaves pages behind

  /** On one address space: the entry stays, no range owns it, and the table is no longer exact. */
  lemma ForgottenPage(m: Mem, v: VmId, b: BoId) returns (p: nat)
    requires ViewsFit(m) && Leaves(m, v, b)
    ensures DropVa(m, v, b).vms[v].spoiled && !NoStrays(DropVa(m, v, b).vms[v].view)
    ensures m.Vas(v)[b].Owns(p) && p in DropVa(m, v, b).Table(v)
    ensures DropVa(m, v, b).Table(v)[p] == m.bos[b].backing[p - m.Vas(v)[b].start]
    ensures forall c | c in DropVa(m, v, b).Vas(v) :: !DropVa(m, v, b).Vas(v)[c].Owns(p)
  {
    assert ViewFits(m, v) && RangeFits(m, v, b);
    var n := m.Vas(v)[b];
    assert n.Sane();
    p :| p in n.pages && p >= n.start + m.bos[b].populated;
    LeftBehind(m.vms[v].view, b, m.bos[b].populated, p);
    forall c | c in DropVa(m, v, b).Vas(v) ensures !DropVa(m, v, b).Vas(v)[c].Owns(p) {
      assert n.Apart(m.Vas(v)[c]);
    }
  }

  /** Buffer `b` has the populated size and the table it had, or is new. */
  predicate SameStore(m: Mem, m': Mem, b: BoId)
    requires b in m'.bos
  {
    if b in m.bos then
      m'.bos[b].populated == m.bos[b].populated && m'.bos[b].sgt == m.bos[b].sgt && m'.bos[b].heap == m.bos[b].heap
    else m'.bos[b].sgt == Lists(m'.bos[b].populated)
  }

  /** One user of range `b` of `v` goes; references are put, and nothing else moves. */
  ghost predicate LosesUser(m: Mem, m': Mem, v: VmId, b: BoId) {
    && LiveVa(m, v, b) && m'.work == m.work
    && m'.vms == m.vms[v := Deleted(m.vms[v], b, m.bos[b].populated)]
    && forall c | c in m'.bos :: c in m.bos && SameStore(m, m', c)
  }

  lemma HolderDropped(m: Mem, i: nat, h: Holder, v: VmId, b: BoId)
    requires LiveVa(m, v, b) && i < |m.holders|
    ensures LosesUser(m, DropVa(Swap(m, i, h), v, b), v, b)
    ensures LosesUser(m, PutBos(DropVa(Swap(m, i, h), v, b), [b]), v, b)
  {}

  /** A deletion happens in the address space and to the range `Victim` names. */
  lemma VictimDropped(s: State, st: Step, s': State)
    requires Outcome(s, st) == Some(s') && Victim(s.mem, st).Some?
    ensures Victim(s.mem, st).value.OnVa?
    ensures LosesUser(s.mem, s'.mem, Victim(s.mem, st).value.v, Victim(s.mem, st).value.b)
  {
    var m, v, b := s.mem, Victim(s.mem, st).value.v, Victim(s.mem, st).value.b;
    match st
    case CloseHandle(i) => HolderDropped(m, i, Gone, v, b);
    case UnwindSubmit(i) => HolderDropped(m, i, Submitting(v, m.holders[i].bos[1..]), v, b);
    case FreeOne(i) => HolderDropped(m, i, Freeing(v, m.holders[i].bos[1..], m.holders[i].objs), v, b);
  }

  /** No other step spoils an address space. */
  lemma OthersSpoilNothing(s: State, st: Step, s': State, v: VmId)
    requires Outcome(s, st) == Some(s') && Victim(s.mem, st).None? && v in s'.mem.vms
    ensures s'.mem.vms[v].spoiled ==> v in s.mem.vms && s.mem.vms[v].spoiled
  {
    if FileStep(st) {
      FileSpoilsNothing(s, st, s', v);
    } else if JobStep(st) {
      JobSpoilsNothing(s, st, s', v);
    }
  }

  lemma FileSpoilsNothing(s: State, st: Step, s': State, v: VmId)
    requires Outcome(s, st) == Some(s') && FileStep(st) && !st.CloseHandle? && v in s'.mem.vms
    ensures s'.mem.vms[v].spoiled ==> v in s.mem.vms && s.mem.vms[v].spoiled
  {}

  lemma JobSpoilsNothing(s: State, st: Step, s': State, v: VmId)
    requires Outcome(s, st) == Some(s') && JobStep(st) && !st.UnwindSubmit? && !st.FreeOne? && v in s'.mem.vms
    ensures s'.mem.vms[v].spoiled ==> v in s.mem.vms && s.mem.vms[v].spoiled
  {}

  lemma SpoiledOnlyByForgetting(s: State, st: Step, s': State, v: VmId)
    requires Outcome(s, st) == Some(s') && v in s'.mem.vms
    ensures s'.mem.vms[v].spoiled ==> v in s.mem.vms && (s.mem.vms[v].spoiled || Forgets(s, st, v))
  {
    if Victim(s.mem, st).Some? {
      VictimDropped(s, st, s');
    } else {
      OthersSpoilNothing(s, st, s', v);
    }
  }

  lemma ForgettingShows(s: State, st: Step, s': State, v: VmId)
    requires ViewsFit(s.mem) && Outcome(s, st) == Some(s') && Forgets(s, st, v)
    ensures v in s'.mem.vms && !VmOk(s'.mem.vms[v].view)
  {
    VictimDropped(s, st, s');
    var p := ForgottenPage(s.mem, v, Victim(s.mem, st).value.b);
  }

  ghost predicate AllExact(m: Mem) { forall v | v in m.vms :: VmOk(m.vms[v].view) }

  predicate NoneSpoiled(m: Mem) { forall v | v in m.vms :: !m.vms[v].spoiled }

  predicate StepForgets(s: State, st: Step) { Victim(s.mem, st).Some? && Forgets(s, st, Victim(s.mem, st).value.v) }

  ghost predicate ExactUpTo(ss: seq<State>, k: nat)
    requires k < |ss|
  {
    forall i | 0 <= i <= k :: AllExact(ss[i].mem)
  }

  ghost predicate NoneForgets(ss: seq<State>, sts: seq<Step>, k: nat)
    requires k <= |ss| && k <= |sts|
  {
    forall i | 0 <= i < k :: !StepForgets(ss[i], sts[i])
  }

  lemma UnspoiledIsExact(s: State)
    requires Inv(s) && NoneSpoiled(s.mem)
    ensures AllExact(s.mem)
  {
    forall v | v in s.mem.vms ensures VmOk(s.mem.vms[v].view) {
      assert ViewFits(s.mem, v);
    }
  }

  lemma StepUnspoiled(s: State, st: Step, s': State)
    requires Outcome(s, st) == Some(s') && NoneSpoiled(s.mem) && !StepForgets(s, st)
    ensures NoneSpoiled(s'.mem)
  {
    forall v | v in s'.mem.vms ensures !s'.mem.vms[v].spoiled {
      SpoiledOnlyByForgetting(s, st, s', v);
    }
  }

  lemma StepExact(s: State, st: Step, s': State)
    requires ViewsFit(s.mem) && Outcome(s, st) == Some(s')
    ensures StepForgets(s, st) ==> !AllExact(s'.mem)
    ensures !StepForgets(s, st) && NoneSpoiled(s.mem) ==> NoneSpoiled(s'.mem)
  {
    if StepForgets(s, st) {
      ForgettingShows(s, st, s', Victim(s.mem, st).value.v);
    } else if NoneSpoiled(s.mem) {
      StepUnspoiled(s, st, s');
    }
  }

  /**
   The page tables of all address spaces are exact in every state up to the k-th, if and only if none
   of the k steps was the last deletion of a range with an installed page past the heap's size.
   */
  lemma {:induction false} ExactIff(ss: seq<State>, sts: seq<Step>, k: nat)
    requires IsRun(ss, sts) && k < |ss|
    ensures ExactUpTo(ss, k) <==> NoneForgets(ss, sts, k)
    ensures NoneForgets(ss, sts, k) ==> NoneSpoiled(ss[k].mem)
  {
    RunInv(ss, sts, k);
    if k > 0 {
      ExactIff(ss, sts, k - 1);
      RunInv(ss, sts, k - 1);
      var s, st, s' := ss[k - 1], sts[k - 1], ss[k];
      NextInRun(ss, sts, k - 1);
      StepExact(s, st, s');
    }
    if NoneSpoiled(ss[k].mem) {
      UnspoiledIsExact(ss[k]);
    }
  }

  // ----- and it takes an open in the middle of a growth, or a task freed there

  predicate Growing(w: Work) { !w.stage.Idle? && !w.stage.Stored? }

  /**
   The step creates a range of a heap whose new table is in place and whose new size is not stored, or
   not to be stored as the growth has failed.
   */
  predicate OpensEarly(s: State, st: Step) {
    st.OpenHandle? && st.v in s.mem.vms && st.b in s.mem.bos && st.b !in s.mem.Vas(st.v) &&
    |s.mem.bos[st.b].Listed()| > s.mem.bos[st.b].populated
  }

  /** The step begins to free the task for which a heap is being grown. */
  predicate FreesEarly(s: State, st: Step) { st.BeginFree? && Growing(s.mem.work) && st.i == s.mem.work.job }

  /** The heap's range has the first page of the growth that is due. */
  predicate Ahead(m: Mem, v: VmId, b: BoId) { LiveVa(m, v, b) && Tail(m.Vas(v)[b], m.bos[b]) in m.Vas(v)[b].pages }

  /** The range is that of the growth in progress, between mapping and storing. */
  predicate Expected(m: Mem, v: VmId, b: BoId) { m.work.stage.Installed? && v == m.work.v && b == m.work.b }

  ghost predicate OneAhead(m: Mem) { forall v, b {:trigger Ahead(m, v, b)} | Ahead(m, v, b) :: Expected(m, v, b) }

  /** Nothing left behind, and no range ahead but that of the growth, whose task is queued. */
  ghost predicate Calm(m: Mem) {
    NoneSpoiled(m) && OneAhead(m) && (Growing(m.work) ==> TaskLives(m, m.work.job))
  }

  predicate SameInstalled(vm: Vm, vm': Vm) {
    forall b | b in vm'.view.vas ::
      b in vm.view.vas && vm'.view.vas[b].start == vm.view.vas[b].start && vm'.view.vas[b].pages == vm.view.vas[b].pages
  }

  /** Address space `v` has no page installed that it had not before, and no range of a buffer new to it. */
  predicate NothingNew(m: Mem, m': Mem, v: VmId)
    requires v in m'.vms
  {
    if v in m.vms then SameInstalled(m.vms[v], m'.vms[v]) else m'.Vas(v) == map[]
  }

  /** A step that installs no page and stores no size. */
  ghost predicate Still(m: Mem, m': Mem) {
    && m'.work == m.work
    && (forall v | v in m'.vms :: NothingNew(m, m', v))
    && (forall b | b in m'.bos :: SameStore(m, m', b))
  }

  lemma NoneComesAhead(m: Mem, m': Mem)
    requires OneAhead(m) && Still(m, m') && ViewsFit(m)
    ensures OneAhead(m')
  {
    MappedExist(m);
    forall v, b | Ahead(m', v, b) ensures Expected(m', v, b) {
      assert NothingNew(m, m', v) && SameStore(m, m', b);
      assert b in m.Vas(v);
      assert Ahead(m, v, b);
    }
  }

  /** Steps that are neither opens nor of a recovery. */
  predicate Plain(st: Step) { !st.OpenHandle? && !st.Recovery? && !st.BeginRecover? && !st.ScheduleWork? }

  lemma DeletionStill(s: State, st: Step, s': State)
    requires Outcome(s, st) == Some(s') && Victim(s.mem, st).Some?
    ensures Still(s.mem, s'.mem)
  {
    VictimDropped(s, st, s');
  }

  lemma FileStepStill(s: State, st: Step, s': State)
    requires Outcome(s, st) == Some(s') && Plain(st) && FileStep(st) && !st.CloseHandle?
    ensures Still(s.mem, s'.mem)
  {
    var m := s.mem;
    if st.OpenFile? {
      NewVmStill(m, st.v, st.reserved);
    } else if st.CloseFile? {
      PutVmStill(Swap(m, st.i, Gone), m.holders[st.i].vm);
    } else if st.FailedOpen? {
      UndoneStill(m, st.v, st.start, st.done, st.slots);
    } else if st.MapUser? {
      TakenStill(m, st.b, Mapping(st.b));
    } else if st.BeginOpen? {
      TakenStill(m, st.b, Opening(st.v, st.b));
    } else if st.DropCreated? || st.UnmapUser? || st.EndOpen? {
      DroppedStill(m, st.i, m.holders[st.i].bo);
    }
  }

  lemma TakenStill(m: Mem, b: BoId, h: Holder)
    ensures Still(m, Hold(GetBos(m, [b]), h))
  {}

  lemma DroppedStill(m: Mem, i: nat, b: BoId)
    requires i < |m.holders|
    ensures Still(m, PutBos(Swap(m, i, Gone), [b]))
  {}

  lemma NewVmStill(m: Mem, v: VmId, reserved: Table)
    requires v !in m.vms
    ensures Still(m, WithVm(m, v, NewVm(reserved)))
  {}

  lemma UndoneStill(m: Mem, v: VmId, start: nat, done: nat, slots: set<nat>)
    requires v in m.vms
    ensures Still(m, WithVm(m, v, Undone(m.vms[v], start, done, slots)))
  {}

  lemma JobStepStill(s: State, st: Step, s': State)
    requires Outcome(s, st) == Some(s') && JobStep(st) && !st.UnwindSubmit? && !st.FreeOne?
    ensures Still(s.mem, s'.mem)
  {
    var m := s.mem;
    match st
    case AddToSubmit(i, b) => AddStill(m, i, m.holders[i].vm, b, Submitting(m.holders[i].vm, m.holders[i].bos + [b]));
    case EndFree(i) => EndFreeStill(m, i, m.holders[i].vm, m.holders[i].objs);
    case _ =>
  }

  lemma AddStill(m: Mem, i: nat, v: VmId, b: BoId, h: Holder)
    requires LiveVa(m, v, b) && i < |m.holders|
    ensures Still(m, Swap(GetBos(RefVa(m, v, b), [b]), i, h))
  {}

  lemma EndFreeStill(m: Mem, i: nat, v: VmId, objs: seq<BoId>)
    requires v in m.vms && i < |m.holders|
    ensures Still(m, PutVm(PutBos(Swap(m, i, Gone), objs), v))
  {}

  lemma PipeStepStill(s: State, st: Step, s': State)
    requires Outcome(s, st) == Some(s') && Plain(st) && !FileStep(st) && !JobStep(st)
    ensures Still(s.mem, s'.mem)
  {
    var m, hw := s.mem, s.hw;
    if st.StartRun? {
      SwitchStill(m, hw.pipes[m.holders[st.i].pipe].vm, m.holders[st.i].vm);
    } else if st.TimedOut? || st.Stop? {
      PutOldStill(m, hw.pipes[st.p].vm);
    }
  }

  lemma PutVmStill(m: Mem, v: VmId)
    requires v in m.vms
    ensures Still(m, PutVm(m, v))
  {}

  lemma PutOldStill(m: Mem, vm: Option<VmId>)
    ensures vm.Some? && vm.value in m.vms ==> Still(m, PutOld(m, vm))
  {
    if vm.Some? && vm.value in m.vms { PutVmStill(m, vm.value); }
  }

  lemma SwitchStill(m: Mem, vm: Option<VmId>, v: VmId)
    requires (vm.Some? ==> vm.value in m.vms) && v in PutOld(m, vm).vms
    ensures Still(m, GetVm(PutOld(m, vm), v))
  {}

  lemma PlainStill(s: State, st: Step, s': State)
    requires Outcome(s, st) == Some(s') && Plain(st)
    ensures Still(s.mem, s'.mem)
  {
    if Victim(s.mem, st).Some? {
      DeletionStill(s, st, s');
    } else if FileStep(st) {
      FileStepStill(s, st, s');
    } else if JobStep(st) {
      JobStepStill(s, st, s');
    } else {
      PipeStepStill(s, st, s');
    }
  }

  /** A queued task stays one until it is freed. */
  lemma TaskStays(s: State, st: Step, s': State, t: nat)
    requires Outcome(s, st) == Some(s') && TaskLives(s.mem, t) && !(st.BeginFree? && st.i == t)
    ensures TaskLives(s'.mem, t)
  {
    if FileStep(st) {
      TaskStaysFile(s, st, s', t);
    } else if JobStep(st) {
      TaskStaysJob(s, st, s', t);
    }
  }

  lemma TaskStaysFile(s: State, st: Step, s': State, t: nat)
    requires Outcome(s, st) == Some(s') && FileStep(st) && TaskLives(s.mem, t)
    ensures TaskLives(s'.mem, t)
  {}

  lemma TaskStaysJob(s: State, st: Step, s': State, t: nat)
    requires Outcome(s, st) == Some(s') && JobStep(st) && TaskLives(s.mem, t) && !(st.BeginFree? && st.i == t)
    ensures TaskLives(s'.mem, t)
  {}

  /** Past the heap's size a range can only have the growth that is due. */
  lemma OverhangIsAhead(m: Mem, v: VmId, b: BoId)
    requires ViewsFit(m) && LiveVa(m, v, b) && Overhangs(m.Vas(v)[b], m.bos[b].populated)
    ensures Ahead(m, v, b)
  {
    assert ViewFits(m, v) && RangeFits(m, v, b);
  }

  /** The task of the growth keeps its range in use, so nobody else's deletion is the last. */
  lemma CalmForgetsNothing(s: State, st: Step)
    requires Inv(s) && Calm(s.mem)
    ensures !StepForgets(s, st)
  {
    var m := s.mem;
    if StepForgets(s, st) {
      var v, b, job := Victim(m, st).value.v, Victim(m, st).value.b, m.work.job;
      OverhangIsAhead(m, v, b);
      assert Expected(m, v, b) && WorkFits(m.holders, m.work);
      GrowingUser(m.holders, job, v, b);
      var i := VictimHolder(m, st);
      TwoUsers(m, s.hw.pipes, job, i, v, b);
    }
  }

  /** A job is a user of its heap's range. */
  lemma GrowingUser(hs: seq<Holder>, i: nat, v: VmId, b: BoId)
    requires i < |hs| && HolderFits(hs, i) && hs[i].Job? && hs[i].vm == v && hs[i].heap == Some(b)
    ensures Weight(hs[i], OnVa(v, b)) > 0
  {
    assert multiset(hs[i].bos)[b] > 0;
  }

  lemma VictimHolder(m: Mem, st: Step) returns (i: nat)
    requires Victim(m, st).Some?
    ensures i < |m.holders| && !m.holders[i].Job? && Weight(m.holders[i], Victim(m, st).value) > 0
    ensures Victim(m, st).value.OnVa?
  {
    i := st.i;
    if !st.CloseHandle? {
      assert multiset(m.holders[i].bos)[m.holders[i].bos[0]] > 0;
    }
  }

  /**
   A deletion leaves pages behind exactly if it is the last of a range that is ahead: one that was
   created early, or mapped by a growth, and whose heap has not had its size stored since.
   */
  lemma ForgetsIff(s: State, st: Step, s': State)
    requires Inv(s) && Outcome(s, st) == Some(s') && Victim(s.mem, st).Some?
    ensures var v, b := Victim(s.mem, st).value.v, Victim(s.mem, st).value.b;
            StepForgets(s, st) <==> LiveVa(s.mem, v, b) && s.mem.Vas(v)[b].refs == 1 && Ahead(s.mem, v, b)
  {
    VictimDropped(s, st, s');
    LeavesIff(s.mem, Victim(s.mem, st).value.v, Victim(s.mem, st).value.b);
  }

  lemma LeavesIff(m: Mem, v: VmId, b: BoId)
    requires ViewsFit(m) && LiveVa(m, v, b)
    ensures Leaves(m, v, b) <==> m.Vas(v)[b].refs == 1 && Ahead(m, v, b)
  {
    assert ViewFits(m, v) && RangeFits(m, v, b) && m.Vas(v)[b].Sane();
    if Leaves(m, v, b) { OverhangIsAhead(m, v, b); }
  }

  /** An early open creates such a range, in the middle of a growth of the heap. */
  lemma EarlyIsAhead(s: State, st: Step, s': State)
    requires BosFit(s.mem) && Outcome(s, st) == Some(s') && OpensEarly(s, st)
    ensures Ahead(s'.mem, st.v, st.b) && s'.mem.Vas(st.v)[st.b].refs == 1
    ensures s.mem.work.NamesBo(st.b) && s.mem.work.stage in {Swapped, Installed, Failed}
  {
    assert BoOk(s.mem.bos[st.b], StageOf(s.mem.work, st.b));
    CreatedAhead(s.mem, st.v, st.b, st.start, [st.b], Handle(st.v, st.b));
  }

  lemma CreatedAhead(m: Mem, v: VmId, b: BoId, start: nat, objs: seq<BoId>, h: Holder)
    requires v in m.vms && b in m.bos && b !in m.Vas(v) && |m.bos[b].Listed()| > m.bos[b].populated
    ensures Ahead(Hold(GetBos(Mapped(m, v, b, start), objs), h), v, b)
    ensures Mapped(m, v, b, start).Vas(v)[b].refs == 1
  {
    var n := Offered(m.bos[b], start);
    assert Mapped(m, v, b, start).Vas(v)[b] == n;
    assert Between(start, Tail(n, m.bos[b]), |m.bos[b].Listed()|);
  }

  lemma TwoUsers(m: Mem, pipes: seq<Pipe>, i: nat, k: nat, v: VmId, b: BoId)
    requires MemInv(m, pipes) && i < |m.holders| && k < |m.holders| && i != k && LiveVa(m, v, b)
    requires Weight(m.holders[i], OnVa(v, b)) > 0 && Weight(m.holders[k], OnVa(v, b)) > 0
    ensures m.Vas(v)[b].refs > 1
  {
    SumAtLeastTwo(m.holders, i, k, OnVa(v, b));
    assert CountOk(m, pipes, OnVa(v, b));
  }

  lemma OpenKeepsOneAhead(m: Mem, v: VmId, b: BoId, start: nat)
    requires OneAhead(m) && ViewsFit(m) && v in m.vms && b in m.bos
    requires b !in m.Vas(v) ==> |m.bos[b].Listed()| <= m.bos[b].populated
    ensures OneAhead(Mapped(m, v, b, start))
  {
    MappedExist(m);
    var m' := Mapped(m, v, b, start);
    forall w, c | Ahead(m', w, c) ensures Expected(m', w, c) {
      if !(w == v && c == b && b !in m.Vas(v)) {
        assert c in m.Vas(w);
        assert Ahead(m, w, c);
      }
    }
  }

  /** Counting references moves nothing. */
  lemma HeldAhead(m: Mem, objs: seq<BoId>, h: Holder)
    requires OneAhead(m)
    ensures OneAhead(Hold(GetBos(m, objs), h))
  {
    var m' := Hold(GetBos(m, objs), h);
    forall v, b | Ahead(m', v, b) ensures Expected(m', v, b) {
      assert Ahead(m, v, b);
    }
  }

  lemma HandleKeepsOneAhead(m: Mem, v: VmId, b: BoId, start: nat)
    requires OneAhead(m) && ViewsFit(m) && v in m.vms && b in m.bos
    requires b !in m.Vas(v) ==> |m.bos[b].Listed()| <= m.bos[b].populated
    ensures OneAhead(Hold(GetBos(Mapped(m, v, b, start), [b]), Handle(v, b)))
  {
    OpenKeepsOneAhead(m, v, b, start);
    HeldAhead(Mapped(m, v, b, start), [b], Handle(v, b));
  }

  lemma InstallKeepsOneAhead(m: Mem)
    requires OneAhead(m) && m.work.stage.Swapped? && LiveVa(m, m.work.v, m.work.b)
    ensures OneAhead(AtStage(MapMore(m), Installed))
  {
    forall v, b | !(v == m.work.v && b == m.work.b) ensures !Ahead(AtStage(MapMore(m), Installed), v, b) {
      assert !Ahead(m, v, b);
    }
  }

  lemma StoreKeepsOneAhead(m: Mem)
    requires OneAhead(m) && ViewsFit(m) && BosFit(m) && m.work.stage.Installed? && m.work.b in m.bos
    ensures OneAhead(AtStage(Grown(m), Stored))
  {
    var m' := AtStage(Grown(m), Stored);
    forall v, b | LiveVa(m, v, b) ensures !Ahead(m', v, b) {
      assert ViewFits(m, v) && RangeFits(m, v, b) && BoOk(m.bos[b], StageOf(m.work, b));
      if b == m.work.b {
        StoredFits(m.bos[b], m.Vas(v)[b]);
      } else {
        assert !Ahead(m, v, b);
      }
    }
  }

  /** With no range ahead, none comes ahead by a new stage or a new table... */
  lemma StageKeepsOneAhead(m: Mem, stage: Stage)
    requires OneAhead(m) && !m.work.stage.Installed?
    ensures OneAhead(AtStage(m, stage))
  {
    forall v, b ensures !Ahead(AtStage(m, stage), v, b) {
      assert !Ahead(m, v, b);
    }
  }

  lemma TableKeepsOneAhead(m: Mem, sg: Sg, stage: Stage)
    requires OneAhead(m) && !m.work.stage.Installed? && m.work.b in m.bos
    ensures OneAhead(Retabled(m, sg, stage))
  {
    forall v, b ensures !Ahead(Retabled(m, sg, stage), v, b) {
      assert !Ahead(m, v, b);
    }
  }

  /** ...or a mapping that is undone. */
  lemma UndoneKeepsOneAhead(m: Mem, done: nat, slots: set<nat>)
    requires OneAhead(m) && !m.work.stage.Installed? && m.work.v in m.vms && m.work.b in m.bos
    ensures OneAhead(MapUndone(m, done, slots))
  {
    forall v, b ensures !Ahead(MapUndone(m, done, slots), v, b) {
      assert !Ahead(m, v, b);
    }
  }

  /** Only the mapping brings a range ahead, and storing the size lets all catch up. */
  lemma GrowthKeepsOneAhead(m: Mem, g: GrowStep)
    requires OneAhead(m) && ViewsFit(m) && BosFit(m) && GrowEnabled(m, g) && GrowDefined(m, g)
    ensures OneAhead(GrowNext(m, g))
  {
    match g
    case GiveUp => StageKeepsOneAhead(m, Idle);
    case DropTable(ok) =>
      StageKeepsOneAhead(m, Idle);
      TableKeepsOneAhead(m, Lists(0), Dropped);
      TableKeepsOneAhead(m, Raw, Dropped);
    case DmaFails => StageKeepsOneAhead(m, Failed);
    case SwapTable => TableKeepsOneAhead(m, Lists(m.bos[m.work.b].Next()), Swapped);
    case InstallPages => InstallKeepsOneAhead(m);
    case InstallFails(done, slots) =>
      UndoneKeepsOneAhead(m, done, slots);
      StageKeepsOneAhead(MapUndone(m, done, slots), Failed);
    case StoreSize => StoreKeepsOneAhead(m);
    case FreeTable => TableKeepsOneAhead(m, Raw, Failing);
    case ClearTable => TableKeepsOneAhead(m, Absent, Idle);
    case EndRecover => StageKeepsOneAhead(m, Idle);
  }

  lemma StepKeepsOneAhead(s: State, st: Step, s': State)
    requires ViewsFit(s.mem) && BosFit(s.mem) && Outcome(s, st) == Some(s') && OneAhead(s.mem) && !OpensEarly(s, st)
    ensures OneAhead(s'.mem)
  {
    if Plain(st) {
      PlainStill(s, st, s');
      NoneComesAhead(s.mem, s'.mem);
    } else {
      OtherKeepsOneAhead(s, st, s');
    }
  }

  /** What opening a handle comes to. */
  lemma OpenOutcome(s: State, st: Step, s': State)
    requires Outcome(s, st) == Some(s') && st.OpenHandle?
    ensures st.v in s.mem.vms && st.b in s.mem.bos
    ensures s'.mem == Hold(GetBos(Mapped(s.mem, st.v, st.b, st.start), [st.b]), Handle(st.v, st.b))
  {}

  /** Scheduling or beginning a recovery concerns the work alone, and begins it at most. */
  lemma WorkOutcome(s: State, st: Step, s': State)
    requires Outcome(s, st) == Some(s') && (st.BeginRecover? || st.ScheduleWork?)
    ensures s'.mem == WithWork(s.mem, s'.mem.work)
    ensures var w, w' := s.mem.work, s'.mem.work;
            w.stage.Installed? ==> w'.stage.Installed? && w'.v == w.v && w'.b == w.b
  {}

  lemma OtherKeepsOneAhead(s: State, st: Step, s': State)
    requires ViewsFit(s.mem) && BosFit(s.mem) && Outcome(s, st) == Some(s') && OneAhead(s.mem)
    requires !OpensEarly(s, st) && !Plain(st)
    ensures OneAhead(s'.mem)
  {
    if st.OpenHandle? {
      OpenOutcome(s, st, s');
      HandleKeepsOneAhead(s.mem, st.v, st.b, st.start);
    } else if st.Recovery? {
      GrowthKeepsOneAhead(s.mem, st.g);
    } else {
      WorkOutcome(s, st, s');
      WorkKeepsOneAhead(s.mem, s'.mem.work);
    }
  }

  lemma WorkKeepsOneAhead(m: Mem, w: Work)
    requires OneAhead(m) && (m.work.stage.Installed? ==> w.stage.Installed? && w.v == m.work.v && w.b == m.work.b)
    ensures OneAhead(WithWork(m, w))
  {
    forall v, b | Ahead(WithWork(m, w), v, b) ensures Expected(WithWork(m, w), v, b) {
      assert Ahead(m, v, b);
    }
  }

  lemma GrowingTaskLives(s: State, st: Step, s': State)
    requires Outcome(s, st) == Some(s') && !FreesEarly(s, st)
    requires Growing(s.mem.work) ==> TaskLives(s.mem, s.mem.work.job)
    ensures Growing(s'.mem.work) ==> TaskLives(s'.mem, s'.mem.work.job)
  {
    if st.BeginRecover? {
      assert s'.mem.holders == s.mem.holders;
    } else if Growing(s'.mem.work) {
      GrowingStays(s, st, s');
      TaskStays(s, st, s', s.mem.work.job);
    }
  }

  lemma GrowingStays(s: State, st: Step, s': State)
    requires Outcome(s, st) == Some(s') && !st.BeginRecover?
    ensures s'.mem.work.job == s.mem.work.job && (Growing(s'.mem.work) ==> Growing(s.mem.work))
  {
    if Plain(st) {
      PlainStill(s, st, s');
    } else if st.OpenHandle? {
      assert Mapped(s.mem, st.v, st.b, st.start).work == s.mem.work;
    } else if st.Recovery? {
      StaysGrowing(s.mem, st.g);
    }
  }

  lemma StaysGrowing(m: Mem, g: GrowStep)
    requires GrowEnabled(m, g) && GrowDefined(m, g)
    ensures GrowNext(m, g).work.job == m.work.job && (Growing(GrowNext(m, g).work) ==> Growing(m.work))
  {}

  lemma StepKeepsCalm(s: State, st: Step, s': State)
    requires Inv(s) && Outcome(s, st) == Some(s') && Calm(s.mem) && !OpensEarly(s, st) && !FreesEarly(s, st)
    ensures Calm(s'.mem)
  {
    CalmForgetsNothing(s, st);
    StepUnspoiled(s, st, s');
    StepKeepsOneAhead(s, st, s');
    GrowingTaskLives(s, st, s');
  }

  ghost predicate NoRace(ss: seq<State>, sts: seq<Step>, k: nat)
    requires k <= |ss| && k <= |sts|
  {
    forall i | 0 <= i < k :: !OpensEarly(ss[i], sts[i]) && !FreesEarly(ss[i], sts[i])
  }

  /**
   In a run in which nobody opens a heap between the store of its new table and the store of its new
   size, or the end of a failed growth, and no task is freed while its heap is being grown, no deletion
   ever leaves a page behind: all page tables are exact in every state, so that no job meets an entry left
   over, and `TablesNameLiveBuffers` holds everywhere.
   */
  lemma {:induction false} CalmRuns(ss: seq<State>, sts: seq<Step>, k: nat)
    requires IsRun(ss, sts) && k < |ss| && NoRace(ss, sts, k)
    ensures Calm(ss[k].mem) && NoneSpoiled(ss[k].mem) && AllExact(ss[k].mem)
  {
    RunInv(ss, sts, k);
    if k > 0 {
      CalmRuns(ss, sts, k - 1);
      RunInv(ss, sts, k - 1);
      NextInRun(ss, sts, k - 1);
      StepKeepsCalm(ss[k - 1], sts[k - 1], ss[k]);
    }
    UnspoiledIsExact(ss[k]);
  }

  // ----- and when a table is missing

  predicate AllListed(m: Mem) { forall b | b in m.bos :: m.bos[b].sgt.Lists? }

  /** The step is a growth giving up after it has dropped the table. */
  predicate LosesTable(st: Step) { st.Recovery? && st.g.FreeTable? }

  lemma StepKeepsListed(s: State, st: Step, s': State)
    requires ViewsFit(s.mem) && BosFit(s.mem) && Outcome(s, st) == Some(s') && AllListed(s.mem) && !LosesTable(st)
    ensures AllListed(s'.mem)
  {
    var m, m' := s.mem, s'.mem;
    if Plain(st) {
      PlainStill(s, st, s');
      forall b | b in m'.bos ensures m'.bos[b].sgt.Lists? {
        assert SameStore(m, m', b);
      }
    } else {
      OtherKeepsListed(s, st, s');
    }
  }

  lemma OtherKeepsListed(s: State, st: Step, s': State)
    requires ViewsFit(s.mem) && BosFit(s.mem) && Outcome(s, st) == Some(s') && AllListed(s.mem) && !LosesTable(st)
    requires !Plain(st)
    ensures AllListed(s'.mem)
  {
    if st.OpenHandle? {
      OpenOutcome(s, st, s');
      OpenKeepsListed(s.mem, st.v, st.b, st.start);
    } else if st.Recovery? {
      GrowthKeepsListed(s.mem, st.g);
    } else {
      WorkOutcome(s, st, s');
    }
  }

  lemma OpenKeepsListed(m: Mem, v: VmId, b: BoId, start: nat)
    requires v in m.vms && b in m.bos && AllListed(m)
    ensures AllListed(Hold(GetBos(Mapped(m, v, b, start), [b]), Handle(v, b)))
  {}

  lemma GrowthKeepsListed(m: Mem, g: GrowStep)
    requires BosFit(m) && AllListed(m) && GrowEnabled(m, g) && GrowDefined(m, g) && !g.FreeTable?
    ensures AllListed(GrowNext(m, g))
  {
    assert BoOk(m.bos[m.work.b], StageOf(m.work, m.work.b));
    assert MapMore.requires(m) ==> MapMore(m).bos == m.bos;
  }

  /** As long as no growth fails, every buffer has a table, so that any client can open it. */
  lemma {:induction false} TablesUnlessFailed(ss: seq<State>, sts: seq<Step>, k: nat)
    requires IsRun(ss, sts) && k < |ss| && forall i | 0 <= i < k :: !LosesTable(sts[i])
    ensures AllListed(ss[k].mem)
    ensures forall v, b | v in ss[k].mem.vms && b in ss[k].mem.bos :: CanMap(ss[k].mem, v, b)
  {
    if k > 0 {
      TablesUnlessFailed(ss, sts, k - 1);
      RunInv(ss, sts, k - 1);
      NextInRun(ss, sts, k - 1);
      StepKeepsListed(ss[k - 1], sts[k - 1], ss[k]);
    }
  }
}
