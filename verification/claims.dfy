/**
 Who keeps what alive.  Every reference the driver counts is a claim of some holder: an open file,
 a GEM handle, a submission being built, a queued or running job, a job being freed.  The three
 counters of the source (struct lima_vm refcount, struct lima_bo_va ref_count, the GEM object
 refcount) are compared with the sum of the claims.
 */
module Claims {
  import opened Wrappers
  import opened VmSpec

  type VmId = nat

  /**
   The holders.  Identities are positions in a sequence and are never reused, so that a fence can
   outlive the job it belongs to.

   - `Submitting` is a lima_gem_submit in progress: the buffers taken so far.
   - `Job` has been queued; `heap` is the growable buffer among its `bos`, if it has one.
   - `Freeing` is a lima_sched_free_job in progress: `bos` still have to be given back to the
     address space, `objs` are the GEM references dropped at the end.
   - `Mapping` is a user mapping of a buffer, which keeps a GEM reference of its own.
   - `Opening` is a lima_vm_bo_add in the middle of reading a buffer's sg table, with the reference its
     caller has from looking the buffer up.
   - `Leaked` holds the GEM references lima_sched_task_init took before drm_sched_job_init failed.
   */
  datatype Holder =
    | File(vm: VmId)
    | Creating(bo: BoId)
    | Mapping(bo: BoId)
    | Opening(vm: VmId, bo: BoId)
    | Handle(vm: VmId, bo: BoId)
    | Submitting(vm: VmId, bos: seq<BoId>)
    | Job(vm: VmId, pipe: nat, bos: seq<BoId>, heap: Option<BoId>)
    | Freeing(vm: VmId, bos: seq<BoId>, objs: seq<BoId>)
    | Leaked(objs: seq<BoId>)
    | Gone

  /** What can be counted: an address space, one buffer's range in one address space, a buffer. */
  datatype Claim = OnVm(v: VmId) | OnVa(v: VmId, b: BoId) | OnBo(b: BoId)

  function Times(bos: seq<BoId>, b: BoId): nat { multiset(bos)[b] }

  /** How many references of one kind one holder keeps. */
  function Weight(h: Holder, c: Claim): nat {
    match c
    case OnVm(v) => Bit((h.File? || h.Job? || h.Freeing?) && h.vm == v)
    case OnVa(v, b) =>
      (match h
       case Handle(w, bo) => Bit(w == v && bo == b)
       case Submitting(w, bos) => if w == v then Times(bos, b) else 0
       case Job(w, _, bos, _) => if w == v then Times(bos, b) else 0
       case Freeing(w, bos, _) => if w == v then Times(bos, b) else 0
       case _ => 0)
    case OnBo(b) =>
      (match h
       case Creating(bo) => Bit(bo == b)
       case Mapping(bo) => Bit(bo == b)
       case Opening(_, bo) => Bit(bo == b)
       case Handle(_, bo) => Bit(bo == b)
       case Submitting(_, bos) => Times(bos, b)
       case Job(_, _, bos, _) => Times(bos, b)
       case Freeing(_, _, objs) => Times(objs, b)
       case Leaked(objs) => Times(objs, b)
       case _ => 0)
  }

  function Sum(hs: seq<Holder>, c: Claim): nat {
    if hs == [] then 0 else Sum(hs[..|hs| - 1], c) + Weight(hs[|hs| - 1], c)
  }

  lemma SumPush(hs: seq<Holder>, h: Holder, c: Claim)
    ensures Sum(hs + [h], c) == Sum(hs, c) + Weight(h, c)
  {}

  lemma {:induction false} SumSet(hs: seq<Holder>, i: nat, h: Holder, c: Claim)
    requires i < |hs|
    ensures Sum(hs[i := h], c) + Weight(hs[i], c) == Sum(hs, c) + Weight(h, c)
  {
    var n := |hs| - 1;
    if i == n {
      assert hs[i := h][..n] == hs[..n];
    } else {
      assert hs[i := h][..n] == hs[..n][i := h];
      SumSet(hs[..n], i, h, c);
    }
  }

  lemma {:induction false} SumAtLeast(hs: seq<Holder>, i: nat, c: Claim)
    requires i < |hs|
    ensures Weight(hs[i], c) <= Sum(hs, c)
  {
    if i < |hs| - 1 {
      SumAtLeast(hs[..|hs| - 1], i, c);
    }
  }

  /** Two different holders' claims add up. */
  lemma SumAtLeastTwo(hs: seq<Holder>, i: nat, j: nat, c: Claim)
    requires i < |hs| && j < |hs| && i != j
    ensures Weight(hs[i], c) + Weight(hs[j], c) <= Sum(hs, c)
  {
    SumSet(hs, i, Gone, c);
    SumAtLeast(hs[i := Gone], j, c);
    assert Weight(Gone, c) == 0;
  }

  lemma {:induction false} SumZero(hs: seq<Holder>, c: Claim)
    requires forall i | 0 <= i < |hs| :: Weight(hs[i], c) == 0
    ensures Sum(hs, c) == 0
  {
    if hs != [] {
      SumZero(hs[..|hs| - 1], c);
    }
  }

  /** A freeing job's remaining ranges are among the buffers it still references. */
  predicate HolderOk(h: Holder) {
    h.Freeing? ==> multiset(h.bos) <= multiset(h.objs)
  }

  /** So nobody has a range of a buffer without a reference on the buffer itself. */
  lemma {:induction false} VaImpliesBo(hs: seq<Holder>, v: VmId, b: BoId)
    requires forall i | 0 <= i < |hs| :: HolderOk(hs[i])
    ensures Sum(hs, OnVa(v, b)) <= Sum(hs, OnBo(b))
  {
    if hs != [] {
      VaImpliesBo(hs[..|hs| - 1], v, b);
      assert HolderOk(hs[|hs| - 1]);
    }
  }

  lemma TimesPush(bos: seq<BoId>, x: BoId, b: BoId)
    ensures Times(bos + [x], b) == Times(bos, b) + Bit(x == b)
  {}

  lemma TimesTail(bos: seq<BoId>, b: BoId)
    requires bos != []
    ensures Times(bos, b) == Times(bos[1..], b) + Bit(bos[0] == b)
  {
    assert bos == [bos[0]] + bos[1..];
  }
}
