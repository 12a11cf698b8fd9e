/**
 lima_gem_submit with its unwinding (lima_gem.c), lima_sched_task_init and lima_sched_task_fini, and
 the buffer loop of lima_sched_free_job.  A counter per buffer is a multiset: `va` counts
 bo_va.ref_count in the file's address space, `gem` the GEM references.
 */
module GemSubmit {
  import opened Wrappers
  import opened VmSpec

  /** Outcomes of the calls lima_gem_submit makes: Ok, or the error they return. */
  datatype Answers = Answers(outSync: Option<bool>,  // out_sync requested, and whether it is found
                             lock: Errno,            // drm_gem_lock_reservations
                             kmemdup: bool, jobInit: Errno, deps: Errno, sync: seq<Errno>)

  /** Counters with one more, or one fewer, per element of a list. */
  function Plus(m: multiset<BoId>, bos: seq<BoId>): multiset<BoId> { m + multiset(bos) }

  function Minus(m: multiset<BoId>, bos: seq<BoId>): multiset<BoId> { m - multiset(bos) }

  lemma PlusOne(m: multiset<BoId>, bos: seq<BoId>, b: BoId)
    ensures Plus(m, bos + [b]) == Plus(m, bos) + multiset{b}
    ensures b in Plus(m, bos) ==> b in m || b in bos
  {}

  lemma PlusSome(m: multiset<BoId>, bos: seq<BoId>)
    requires bos != []
    ensures Plus(m, bos) != m
  {
    assert Plus(m, bos)[bos[0]] == m[bos[0]] + multiset(bos)[bos[0]];
  }

  lemma MinusOne(m: multiset<BoId>, bos: seq<BoId>, i: nat)
    requires i < |bos|
    ensures Minus(m, bos[..i + 1]) == Minus(m, bos[..i]) - multiset{bos[i]}
  {
    assert bos[..i + 1] == bos[..i] + [bos[i]];
  }

  lemma PlusMinus(m: multiset<BoId>, bos: seq<BoId>)
    ensures Minus(Plus(m, bos), bos) == m && multiset(bos) <= Plus(m, bos)
  {}

  /** The buffers a list of handles names. */
  function Listed(handles: map<nat, BoId>, hs: seq<nat>): (bos: seq<BoId>)
    requires forall i | 0 <= i < |hs| :: hs[i] in handles
    ensures |bos| == |hs| && forall i | 0 <= i < |hs| :: bos[i] == handles[hs[i]]
  {
    seq(|hs|, i requires 0 <= i < |hs| => handles[hs[i]])
  }

  /** The submission's buffer array after some lookups: the rest is still NULL. */
  function Recorded(taken: seq<BoId>, n: nat): (r: seq<Option<BoId>>)
    ensures |r| == n && forall i | 0 <= i < n :: r[i] == if i < |taken| then Some(taken[i]) else None
  {
    seq(n, i => if 0 <= i < |taken| then Some(taken[i]) else None)
  }

  /** The handles looked up so far name mapped buffers: these. */
  predicate FirstTaken(handles: map<nat, BoId>, hs: seq<nat>, va: multiset<BoId>, taken: seq<BoId>) {
    |taken| <= |hs| &&
    forall k | 0 <= k < |taken| :: hs[k] in handles && taken[k] == handles[hs[k]] && taken[k] in va
  }

  lemma TakenMore(handles: map<nat, BoId>, hs: seq<nat>, va: multiset<BoId>, taken: seq<BoId>, b: BoId)
    requires FirstTaken(handles, hs, va, taken) && |taken| < |hs|
    requires hs[|taken|] in handles && handles[hs[|taken|]] == b && b in va
    ensures FirstTaken(handles, hs, va, taken + [b])
    ensures Recorded(taken + [b], |hs|) == Recorded(taken, |hs|)[|taken| := Some(b)]
  {}

  class DrmFile {
    var handles: map<nat, BoId>
    var va: multiset<BoId>
    var gem: multiset<BoId>
    var vmRefs: nat
    var syncRefs: nat                 // references held on the out_sync object
    var locked: bool                  // the buffers' reservations
    var queued: seq<seq<BoId>>        // the buffers of each task pushed to the scheduler

    /** Every handle names a mapped buffer of this file. */
    predicate Found(hs: seq<nat>)
      reads this
    {
      forall i | 0 <= i < |hs| :: hs[i] in handles && handles[hs[i]] in va
    }

    /** The lookup loop; it stops at the first handle that is unknown or not mapped. */
    method TakeAll(hs: seq<nat>, lbos: array<Option<BoId>>) returns (err: Errno, ghost taken: seq<BoId>)
      requires lbos.Length == |hs| && lbos[..] == Recorded([], |hs|)
      modifies lbos, `va, `gem
      ensures err == (if old(Found(hs)) then Ok else ENOENT) && |taken| <= |hs|
      ensures err == Ok ==> taken == Listed(handles, hs)
      ensures va == Plus(old(va), taken) && gem == Plus(old(gem), taken)
      ensures lbos[..] == Recorded(taken, |hs|)
    {
      ghost var va0, gem0 := va, gem;
      taken := [];
      err := Ok;
      var i := 0;
      while i < |hs|
        invariant i == |taken| <= |hs| && err == Ok
        invariant va == Plus(va0, taken) && gem == Plus(gem0, taken)
        invariant lbos[..] == Recorded(taken, |hs|) && FirstTaken(handles, hs, va0, taken)
      {
        err := TakeOne(hs[i], va0, gem0, taken);
        if err != Ok {
          break;
        }
        TakenMore(handles, hs, va0, taken, handles[hs[i]]);
        lbos[i] := Some(handles[hs[i]]);
        taken := taken + [handles[hs[i]]];
        i := i + 1;
      }
    }

    /** drm_gem_object_lookup and lima_vm_bo_add(create = false) on one handle. */
    method TakeOne(h: nat, ghost va0: multiset<BoId>, ghost gem0: multiset<BoId>, ghost taken: seq<BoId>)
      returns (err: Errno)
      requires va == Plus(va0, taken) && gem == Plus(gem0, taken) && forall k | 0 <= k < |taken| :: taken[k] in va0
      modifies `va, `gem
      ensures err == if h in handles && handles[h] in va0 then Ok else ENOENT
      ensures err == Ok ==> va == Plus(va0, taken + [handles[h]]) && gem == Plus(gem0, taken + [handles[h]])
      ensures err != Ok ==> va == old(va) && gem == old(gem)
    {
      if h !in handles {
        return ENOENT;
      }
      var bo := handles[h];
      PlusOne(va0, taken, bo);
      PlusOne(gem0, taken, bo);
      gem := gem + multiset{bo};
      if bo !in va {
        gem := gem - multiset{bo};
        return ENOENT;
      }
      va := va + multiset{bo};
      err := Ok;
    }

    /** The err_out0 loop: gives back the buffers taken, up to the first empty slot. */
    method GiveBack(lbos: array<Option<BoId>>, ghost taken: seq<BoId>,
                    ghost va0: multiset<BoId>, ghost gem0: multiset<BoId>)
      requires |taken| <= lbos.Length
      requires lbos[..] == Recorded(taken, lbos.Length)
      requires va == Plus(va0, taken) && gem == Plus(gem0, taken)
      modifies `va, `gem
      ensures va == va0 && gem == gem0
    {
      var i := 0;
      assert taken[..0] == [];
      while i < lbos.Length
        invariant i <= |taken| <= lbos.Length
        invariant va == Minus(Plus(va0, taken), taken[..i]) && gem == Minus(Plus(gem0, taken), taken[..i])
      {
        if lbos[i].None? {
          break;
        }
        MinusOne(Plus(va0, taken), taken, i);
        MinusOne(Plus(gem0, taken), taken, i);
        va := va - multiset{lbos[i].value};
        gem := gem - multiset{lbos[i].value};
        i := i + 1;
      }
      assert taken[..i] == taken;
      PlusMinus(va0, taken);
      PlusMinus(gem0, taken);
    }

    /** drm_gem_object_get, or _put, on each buffer of a list. */
    method GetAll(bos: seq<BoId>)
      modifies `gem
      ensures gem == Plus(old(gem), bos)
    {
      var i := 0;
      while i < |bos|
        invariant i <= |bos| && gem == Plus(old(gem), bos[..i])
      {
        PlusOne(old(gem), bos[..i], bos[i]);
        assert bos[..i + 1] == bos[..i] + [bos[i]];
        gem := gem + multiset{bos[i]};
        i := i + 1;
      }
      assert bos[..i] == bos;
    }

    method PutAll(bos: seq<BoId>)
      requires multiset(bos) <= gem
      modifies `gem
      ensures gem == Minus(old(gem), bos)
    {
      var i := 0;
      while i < |bos|
        invariant i <= |bos| && gem == Minus(old(gem), bos[..i])
      {
        MinusOne(old(gem), bos, i);
        gem := gem - multiset{bos[i]};
        i := i + 1;
      }
      assert bos[..i] == bos;
    }

    /** The same when these references were added before. */
    method PutAdded(bos: seq<BoId>, ghost before: multiset<BoId>)
      requires gem == Plus(before, bos)
      modifies `gem
      ensures gem == before
    {
      PlusMinus(before, bos);
      PutAll(bos);
    }

    /** The loop of lima_sched_free_job: lima_vm_bo_del on each buffer. */
    method UnmapAll(bos: seq<BoId>)
      requires multiset(bos) <= va
      modifies `va
      ensures va == Minus(old(va), bos)
    {
      var i := 0;
      while i < |bos|
        invariant i <= |bos| && va == Minus(old(va), bos[..i])
      {
        MinusOne(old(va), bos, i);
        va := va - multiset{bos[i]};
        i := i + 1;
      }
      assert bos[..i] == bos;
    }

    /**
     lima_sched_task_init: takes the task's references.  When drm_sched_job_init fails the GEM
     references it has just taken are not given back.
     */
    method TaskInit(bos: seq<BoId>, kmemdup: bool, jobInit: Errno) returns (err: Errno)
      modifies `gem, `vmRefs
      ensures err == if !kmemdup then ENOMEM else jobInit
      ensures gem == if kmemdup then Plus(old(gem), bos) else old(gem)
      ensures vmRefs == if err == Ok then old(vmRefs) + 1 else old(vmRefs)
    {
      if !kmemdup {
        return ENOMEM;
      }
      GetAll(bos);
      if jobInit != Ok {
        return jobInit;
      }
      vmRefs := vmRefs + 1;
      err := Ok;
    }

    /** lima_sched_task_fini */
    method TaskFini(bos: seq<BoId>)
      requires multiset(bos) <= gem && vmRefs > 0
      modifies `gem, `vmRefs
      ensures gem == Minus(old(gem), bos) && vmRefs == old(vmRefs) - 1
    {
      PutAll(bos);
      vmRefs := vmRefs - 1;
    }

    /** lima_gem_add_deps, then lima_gem_sync_bo on each buffer: the first error, if any. */
    method Synchronise(deps: Errno, sync: seq<Errno>) returns (err: Errno)
      ensures err == FirstError([deps] + sync)
    {
      if deps != Ok {
        return deps;
      }
      var i := 0;
      while i < |sync|
        invariant i <= |sync| && forall k | 0 <= k < i :: sync[k] == Ok
      {
        if sync[i] != Ok {
          FirstErrorAt([deps] + sync, i + 1);
          return sync[i];
        }
        i := i + 1;
      }
      FirstErrorAt([deps] + sync, |sync| + 1);
      err := Ok;
    }

    /**
     lima_gem_submit.  On success the task holds one range reference and one GEM reference per
     listed buffer, and one on the address space.  On failure every counter is what it was, with one
     exception: if, and only if, drm_sched_job_init is what failed, one GEM reference per listed
     buffer stays behind.
     */
    method Submit(hs: seq<nat>, a: Answers) returns (err: Errno)
      requires !locked && |hs| > 0 && |a.sync| == |hs|
      modifies this
      ensures handles == old(handles) && !locked && syncRefs == old(syncRefs)
      ensures err == SubmitResult(old(Found(hs)), a)
      ensures a.outSync == Some(false) || !old(Found(hs)) ==> err == ENOENT
      ensures a.outSync != Some(false) && old(Found(hs)) ==>
                && (a.lock != Ok ==> err == a.lock)
                && (a.lock == Ok && !a.kmemdup ==> err == ENOMEM)
                && (a.lock == Ok && a.kmemdup && a.jobInit != Ok ==> err == a.jobInit)
      ensures err == Ok <==>
                && a.outSync != Some(false) && old(Found(hs)) && a.lock == Ok && a.kmemdup && a.jobInit == Ok
                && a.deps == Ok && forall i | 0 <= i < |a.sync| :: a.sync[i] == Ok
      ensures err == Ok ==> va == Plus(old(va), Listed(handles, hs)) && gem == Plus(old(gem), Listed(handles, hs))
      ensures err == Ok ==> vmRefs == old(vmRefs) + 1 && queued == old(queued) + [Listed(handles, hs)]
      ensures err != Ok ==> va == old(va) && vmRefs == old(vmRefs) && queued == old(queued)
      ensures err != Ok ==> gem == if Leaks(old(Found(hs)), a) then Plus(old(gem), Listed(handles, hs)) else old(gem)
      ensures err != Ok ==>
                (gem != old(gem) <==>
                   a.outSync != Some(false) && old(Found(hs)) && a.lock == Ok && a.kmemdup && a.jobInit != Ok)
    {
      AllOk([a.deps] + a.sync);
      if Leaks(Found(hs), a) { PlusSome(gem, Listed(handles, hs)); }
      if a.outSync.Some? {
        if !a.outSync.value {
          return ENOENT;
        }
        syncRefs := syncRefs + 1;
      }
      err := TakeAndSubmit(hs, a);
      if a.outSync.Some? {
        syncRefs := syncRefs - 1;
      }
    }

    /** Everything but the out_sync object. */
    method TakeAndSubmit(hs: seq<nat>, a: Answers) returns (err: Errno)
      requires !locked && |hs| > 0 && |a.sync| == |hs|
      modifies this
      ensures handles == old(handles) && !locked && syncRefs == old(syncRefs)
      ensures err == if old(Found(hs)) then AfterLookup(a) else ENOENT
      ensures err == Ok ==> va == Plus(old(va), Listed(handles, hs)) && gem == Plus(old(gem), Listed(handles, hs))
      ensures err == Ok ==> vmRefs == old(vmRefs) + 1 && queued == old(queued) + [Listed(handles, hs)]
      ensures err != Ok ==> va == old(va) && vmRefs == old(vmRefs) && queued == old(queued)
      ensures err != Ok ==>
                gem == if old(Found(hs)) && InitFailed(a) then Plus(old(gem), Listed(handles, hs)) else old(gem)
    {
      ghost var va0, gem0 := va, gem;
      var lbos := new Option<BoId>[|hs|](_ => None);
      ghost var taken;
      err, taken := TakeAll(hs, lbos);
      if err == Ok {
        PlusMinus(gem0, taken);
        err := SubmitTaken(hs, lbos, a, taken);
        gem0 := if InitFailed(a) then Plus(gem0, taken) else gem0;
      }
      if err != Ok {
        GiveBack(lbos, taken, va0, gem0);
      }
    }

    /** kmemdup of the list, all of whose slots are filled. */
    method Duplicate(lbos: array<Option<BoId>>, ghost taken: seq<BoId>) returns (bos: seq<BoId>)
      requires lbos.Length == |taken| && forall i | 0 <= i < |taken| :: lbos[i] == Some(taken[i])
      ensures bos == taken
    {
      bos := [];
      while |bos| < lbos.Length
        invariant |bos| <= |taken| && bos == taken[..|bos|]
      {
        bos := bos + [lbos[|bos|].value];
      }
    }

    /** The part of lima_gem_submit after the lookups, with its err_out2 and err_out1 labels. */
    method SubmitTaken(hs: seq<nat>, lbos: array<Option<BoId>>, a: Answers, ghost taken: seq<BoId>) returns (err: Errno)
      requires !locked && lbos.Length == |hs| == |taken| && |a.sync| == |hs|
      requires forall i | 0 <= i < |hs| :: lbos[i] == Some(taken[i])
      modifies this
      ensures handles == old(handles) && !locked && syncRefs == old(syncRefs) && va == old(va)
      ensures err == AfterLookup(a)
      ensures err == Ok ==> gem == old(gem) && vmRefs == old(vmRefs) + 1 && queued == old(queued) + [taken]
      ensures err != Ok ==> vmRefs == old(vmRefs) && queued == old(queued)
      ensures err != Ok ==> gem == if InitFailed(a) then Plus(old(gem), taken) else old(gem)
    {
      if a.lock != Ok {
        return a.lock;
      }
      locked := true;
      var bos := Duplicate(lbos, taken);
      ghost var before := gem;
      err := QueueTask(bos, a);
      locked := false;
      if err == Ok {
        PutAdded(bos, before);
      }
    }

    /** Task initialisation, synchronisation and the push to the scheduler, or their undoing. */
    method QueueTask(bos: seq<BoId>, a: Answers) returns (err: Errno)
      modifies `gem, `vmRefs, `queued
      ensures err == if !a.kmemdup then ENOMEM else if a.jobInit != Ok then a.jobInit else FirstError([a.deps] + a.sync)
      ensures gem == if a.kmemdup && (err == Ok || a.jobInit != Ok) then Plus(old(gem), bos) else old(gem)
      ensures vmRefs == if err == Ok then old(vmRefs) + 1 else old(vmRefs)
      ensures queued == if err == Ok then old(queued) + [bos] else old(queued)
    {
      PlusMinus(gem, bos);
      err := TaskInit(bos, a.kmemdup, a.jobInit);
      if err == Ok {
        err := Synchronise(a.deps, a.sync);
        if err != Ok {
          TaskFini(bos);
        } else {
          queued := queued + [bos];
        }
      }
    }

    /** lima_sched_free_job for a task with these buffers. */
    method FreeJob(bos: seq<BoId>)
      requires multiset(bos) <= va && multiset(bos) <= gem && vmRefs > 0
      modifies this
      ensures va == Minus(old(va), bos) && gem == Minus(old(gem), bos) && vmRefs == old(vmRefs) - 1
      ensures handles == old(handles) && syncRefs == old(syncRefs) && locked == old(locked) && queued == old(queued)
    {
      UnmapAll(bos);
      TaskFini(bos);
    }

    /** A job that was queued and freed leaves every counter as it found it. */
    method SubmitThenFree(hs: seq<nat>, a: Answers) returns (err: Errno)
      requires !locked && |hs| > 0 && |a.sync| == |hs|
      modifies this
      ensures err == Ok ==> va == old(va) && gem == old(gem) && vmRefs == old(vmRefs)
    {
      ghost var va0, gem0 := va, gem;
      err := Submit(hs, a);
      if err == Ok {
        var bos := queued[|queued| - 1];
        PlusMinus(va0, bos);
        PlusMinus(gem0, bos);
        FreeJob(bos);
      }
    }
  }

  function FirstError(errs: seq<Errno>): Errno {
    if errs == [] then Ok else if errs[0] != Ok then errs[0] else FirstError(errs[1..])
  }

  lemma {:induction false} FirstErrorAt(errs: seq<Errno>, i: nat)
    requires i <= |errs| && forall k | 0 <= k < i :: errs[k] == Ok
    requires i < |errs| ==> errs[i] != Ok
    ensures FirstError(errs) == if i < |errs| then errs[i] else Ok
  {
    if i > 0 {
      FirstErrorAt(errs[1..], i - 1);
    }
  }

  lemma {:induction false} AllOk(errs: seq<Errno>)
    ensures FirstError(errs) == Ok <==> forall i | 0 <= i < |errs| :: errs[i] == Ok
  {
    if errs != [] && errs[0] == Ok {
      AllOk(errs[1..]);
      assert forall i | 1 <= i < |errs| :: errs[i] == errs[1..][i - 1];
    }
  }

  /** The return value once every buffer has been looked up. */
  function AfterLookup(a: Answers): Errno {
    if a.lock != Ok then a.lock
    else if !a.kmemdup then ENOMEM
    else if a.jobInit != Ok then a.jobInit
    else FirstError([a.deps] + a.sync)
  }

  function SubmitResult(found: bool, a: Answers): Errno {
    if a.outSync == Some(false) || !found then ENOENT else AfterLookup(a)
  }

  /** drm_sched_job_init was reached, and failed. */
  predicate Leaks(found: bool, a: Answers) { a.outSync != Some(false) && found && InitFailed(a) }

  predicate InitFailed(a: Answers) { a.lock == Ok && a.kmemdup && a.jobInit != Ok }
}
