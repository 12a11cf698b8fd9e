/**
 The shmem GEM object in place (drm_gem_shmem_helper.c).  Its methods implement the steps of
 `ShmemSpec` on the object's fields, and keep the wirings of the backing pages: one wire per page
 while the pages array exists, none otherwise.  Imported objects are not part of this model; a
 growable heap manages its own pages (`HeapBo`).
 */
module Shmem {
  import opened Wrappers
  import ShmemSpec

  const CONTIG_MAX_PAGES := 4096

  /** What a call finds when it needs the pages: the contiguous run, or the per-page reads. */
  datatype Supply = Supply(backed: bool, pageArray: bool,
                           contig: bool, untouched: bool, run: Option<nat>,
                           frames: seq<nat>, badPage: Option<nat>, readError: Errno)

  /** drm_gem_shmem_fault_index: the page of the object an address lies in, and whether there is one. */
  function FaultIndex(address: nat, start: nat): nat { if address < start then 0 else (address - start) / 4096 }

  predicate InRange(address: nat, start: nat, npages: nat) { address >= start && FaultIndex(address, start) < npages }

  class ShmemObject {
    const npages: nat
    const mapWc: bool
    var pages: array?<nat>             // page frames
    var pagesUseCount: nat
    var vmapUseCount: nat
    var vaddr: Option<nat>
    var sgt: Option<seq<nat>>          // the frames the cached table lists
    var madv: int
    var offset: bool
    var wires: seq<nat>                // how often each page of the object is wired
    var writeCombining: seq<bool>      // the cache attribute of each page
    ghost var pins: nat
    ghost var maps: set<nat>
    ghost var ptes: set<(nat, nat)>

    ghost function Abs(): ShmemSpec.State
      reads this
    {
      ShmemSpec.State(pagesUseCount, pages != null, vmapUseCount, vaddr.Some?, sgt.Some?,
                      madv, offset, pins, maps, ptes)
    }

    /** One wire and the requested cache attribute per page while the array exists; none, and the default, after. */
    ghost predicate Wired(held: bool)
      reads this
    {
      && |wires| == |writeCombining| == npages
      && forall i | 0 <= i < npages :: wires[i] == (if held then 1 else 0) && writeCombining[i] == (held && mapWc)
    }

    ghost predicate Valid()
      reads this, pages
    {
      && ShmemSpec.Accounted(Abs()) && Wired(pages != null)
      && (pages != null ==> pages.Length == npages > 0)
      && (sgt.Some? && pages != null ==> sgt.value == pages[..])
      && forall e {:trigger e in ptes} | e in ptes :: e.1 < npages
    }

    constructor (npages: nat, mapWc: bool)
      ensures Valid() && Abs() == ShmemSpec.Create() && this.npages == npages && this.mapWc == mapWc
    {
      this.npages, this.mapWc := npages, mapWc;
      pages, pagesUseCount, vmapUseCount, vaddr, sgt := null, 0, 0, None, None;
      madv, offset, pins, maps, ptes := 0, true, 0, {}, {};
      wires, writeCombining := seq(npages, _ => 0), seq(npages, _ => false);
    }

    /** Can the pages be had? */
    predicate Obtainable(s: Supply) {
      s.backed && npages > 0 && s.pageArray && (UsesRun(s) || s.badPage.None? || s.badPage.value >= npages)
    }

    /** drm_gem_shmem_freebsd_try_contig gives a run: only for an untouched object of 2 to 4096 pages. */
    predicate UsesRun(s: Supply) { s.contig && 2 <= npages <= CONTIG_MAX_PAGES && s.untouched && s.run.Some? }

    /**
     drm_gem_shmem_freebsd_get_pages.  The contiguous path and the per-page path end in the same
     state but for the frames; a failure at any page gives back every page before it.
     */
    method FetchPages(s: Supply) returns (frames: array?<nat>, err: Errno)
      requires |s.frames| == npages && s.readError != Ok && Wired(false)
      modifies `wires
      ensures frames == null <==> err != Ok
      ensures err == Ok <==> Obtainable(s)
      ensures frames != null ==> fresh(frames) && frames.Length == npages > 0
      ensures frames != null ==> frames[..] == if UsesRun(s) then seq(npages, i => s.run.value + i) else s.frames
      ensures |wires| == npages && forall i | 0 <= i < npages :: wires[i] == if err == Ok then 1 else 0
    {
      if !s.backed || npages == 0 {
        return null, EINVAL;
      }
      if !s.pageArray {
        return null, ENOMEM;
      }
      frames := new nat[npages];
      err := Ok;
      if s.contig && 2 <= npages <= CONTIG_MAX_PAGES && s.untouched && s.run.Some? {
        wires := seq(npages, _ => 1);      // vm_page_alloc_contig wires the whole run
        for i := 0 to npages
          invariant wires == seq(npages, _ => 1)
          invariant forall k | 0 <= k < i :: frames[k] == s.run.value + k
        {
          frames[i] := s.run.value + i;
        }
        assert frames[..] == seq(npages, i => s.run.value + i);
        return;
      }
      err := ReadEach(s, frames);
      if err != Ok {
        frames := null;
      } else {
        assert frames[..] == s.frames;
      }
    }

    /** The per-page loop and its `fail` label. */
    method ReadEach(s: Supply, frames: array<nat>) returns (err: Errno)
      requires |s.frames| == npages == frames.Length && s.readError != Ok && Wired(false)
      modifies `wires, frames
      ensures err == if s.badPage.None? || s.badPage.value >= npages then Ok else s.readError
      ensures |wires| == npages && forall k | 0 <= k < npages :: wires[k] == if err == Ok then 1 else 0
      ensures err == Ok ==> forall k | 0 <= k < npages :: frames[k] == s.frames[k]
    {
      var i := 0;
      while i < npages
        invariant i <= npages && (s.badPage.Some? ==> i <= s.badPage.value)
        invariant |wires| == npages && forall k | 0 <= k < npages :: wires[k] == if k < i then 1 else 0
        invariant forall k | 0 <= k < i :: frames[k] == s.frames[k]
      {
        if s.badPage == Some(i) {
          while i > 0
            invariant i <= npages
            invariant |wires| == npages && forall k | 0 <= k < npages :: wires[k] == if k < i then 1 else 0
          {
            i := i - 1;
            wires := wires[i := wires[i] - 1];
          }
          return s.readError;
        }
        frames[i] := s.frames[i];
        wires := wires[i := wires[i] + 1];
        i := i + 1;
      }
      err := Ok;
    }

    /** drm_gem_shmem_set_pages_memattr */
    method SetAttr(wc: bool)
      requires |writeCombining| == npages
      modifies `writeCombining
      ensures |writeCombining| == npages && forall i | 0 <= i < npages :: writeCombining[i] == wc
    {
      var i := 0;
      while i < npages
        invariant i <= npages == |writeCombining| && forall k | 0 <= k < i :: writeCombining[k] == wc
      {
        writeCombining := writeCombining[i := wc];
        i := i + 1;
      }
    }

    /** drm_gem_shmem_get_pages */
    method GetPages(s: Supply) returns (err: Errno)
      requires |s.frames| == npages && s.readError != Ok
      requires Wired(pages != null) && (pages != null <==> pagesUseCount > 0)
      modifies `pages, `pagesUseCount, `wires, `writeCombining
      ensures err == Ok <==> ShmemSpec.Got(old(Abs()), Obtainable(s))
      ensures Abs() == ShmemSpec.GetPages(old(Abs()), Obtainable(s)) && Wired(pages != null)
      ensures pages == old(pages) || (old(pages) == null && pages != null && fresh(pages) && pages.Length == npages > 0)
    {
      pagesUseCount := pagesUseCount + 1;
      if pagesUseCount != 1 {
        return Ok;
      }
      var frames;
      frames, err := FetchPages(s);
      if err != Ok {
        pagesUseCount := 0;
        return;
      }
      if mapWc {
        SetAttr(true);
      }
      pages := frames;
    }

    /** The loop of drm_gem_shmem_freebsd_put_pages: one wire less on every page. */
    method Unwire()
      requires |wires| == npages && forall i | 0 <= i < npages :: wires[i] > 0
      modifies `wires
      ensures |wires| == npages && forall i | 0 <= i < npages :: wires[i] == old(wires)[i] - 1
    {
      var i := 0;
      while i < npages
        invariant i <= npages == |wires|
        invariant forall k | 0 <= k < npages :: wires[k] == if k < i then old(wires)[k] - 1 else old(wires)[k]
      {
        wires := wires[i := wires[i] - 1];
        i := i + 1;
      }
    }

    /** drm_gem_shmem_put_pages */
    method PutPages()
      requires Wired(pages != null) && (pages != null <==> pagesUseCount > 0)
      modifies `pages, `pagesUseCount, `wires, `writeCombining
      ensures Abs() == ShmemSpec.PutPages(old(Abs())) && Wired(pages != null)
      ensures pages == if pagesUseCount > 0 then old(pages) else null
    {
      if pagesUseCount == 0 {
        return;
      }
      pagesUseCount := pagesUseCount - 1;
      if pagesUseCount > 0 {
        return;
      }
      if mapWc {
        SetAttr(false);
      }
      Unwire();
      pages := null;
    }

    // ----- the operations

    /** drm_gem_shmem_pin; `lock` is whether the interruptible lock was taken. */
    method Pin(lock: bool, s: Supply) returns (err: Errno)
      requires Valid() && |s.frames| == npages && s.readError != Ok
      modifies this
      ensures Valid() && Abs() == ShmemSpec.Pin(old(Abs()), lock, Obtainable(s))
      ensures err == Ok <==> lock && (old(pagesUseCount) > 0 || Obtainable(s))
      ensures err == Ok ==> pins == old(pins) + 1 && pagesUseCount == old(pagesUseCount) + 1
      ensures err != Ok ==> Abs() == old(Abs())
    {
      ShmemSpec.NextAccounted(Abs(), ShmemSpec.OpPin(lock, Obtainable(s)));
      if !lock {
        return EINTR;
      }
      err := GetPages(s);
      if err == Ok {
        pins := pins + 1;
      }
    }

    /** drm_gem_shmem_unpin */
    method Unpin()
      requires Valid() && pins > 0
      modifies this
      ensures Valid() && Abs() == ShmemSpec.Unpin(old(Abs()))
      ensures pins == old(pins) - 1 && pagesUseCount == old(pagesUseCount) - 1
    {
      ShmemSpec.NextAccounted(Abs(), ShmemSpec.OpUnpin);
      PutPages();
      pins := pins - 1;
    }

    /** drm_gem_shmem_vmap; `mapped` is the address vmap() returns, None for NULL. */
    method Vmap(s: Supply, mapped: Option<nat>) returns (err: Errno)
      requires Valid() && |s.frames| == npages && s.readError != Ok
      modifies this
      ensures Valid() && Abs() == ShmemSpec.Vmap(old(Abs()), Obtainable(s), mapped.Some?)
      ensures err == Ok <==> old(vmapUseCount) > 0 || ((old(pagesUseCount) > 0 || Obtainable(s)) && mapped.Some?)
      ensures err == Ok ==> vmapUseCount == old(vmapUseCount) + 1
      ensures err == Ok ==> vaddr == if old(vmapUseCount) > 0 then old(vaddr) else mapped
      ensures err == Ok ==> pagesUseCount == old(pagesUseCount) + if old(vmapUseCount) == 0 then 1 else 0
      ensures err != Ok ==> Abs() == old(Abs())
    {
      if vmapUseCount == 0 {
        err := VmapFirst(s, mapped);
        return;
      }
      ShmemSpec.NextAccounted(Abs(), ShmemSpec.OpVmap(Obtainable(s), mapped.Some?));
      vmapUseCount := vmapUseCount + 1;
      err := Ok;
    }

    /** The first reference maps the pages; a failure leaves no reference, and gives the pages back. */
    method VmapFirst(s: Supply, mapped: Option<nat>) returns (err: Errno)
      requires Valid() && vmapUseCount == 0 && |s.frames| == npages && s.readError != Ok
      modifies this
      ensures Valid() && Abs() == ShmemSpec.Vmap(old(Abs()), Obtainable(s), mapped.Some?)
      ensures err == Ok <==> (old(pagesUseCount) > 0 || Obtainable(s)) && mapped.Some?
      ensures err == Ok ==> vmapUseCount == 1 && vaddr == mapped && pagesUseCount == old(pagesUseCount) + 1
      ensures err != Ok ==> Abs() == old(Abs())
    {
      ShmemSpec.NextAccounted(Abs(), ShmemSpec.OpVmap(Obtainable(s), mapped.Some?));
      vmapUseCount := 1;
      err := GetAndMap(s, mapped);
      if err != Ok {
        vmapUseCount := 0;
      }
    }

    /** One use of the pages and a kernel mapping of them, or neither. */
    method GetAndMap(s: Supply, mapped: Option<nat>) returns (err: Errno)
      requires |s.frames| == npages && s.readError != Ok && vaddr == None
      requires Wired(pages != null) && (pages != null <==> pagesUseCount > 0)
      modifies `vaddr, `pages, `pagesUseCount, `wires, `writeCombining
      ensures err == Ok <==> ShmemSpec.Got(old(Abs()), Obtainable(s)) && mapped.Some?
      ensures Wired(pages != null) && (pages != null <==> pagesUseCount > 0)
      ensures err == Ok ==> pagesUseCount == old(pagesUseCount) + 1 && vaddr == mapped
      ensures err == Ok ==> pages == old(pages) || (old(pages) == null && fresh(pages) && pages.Length == npages > 0)
      ensures err != Ok ==> pagesUseCount == old(pagesUseCount) && vaddr == None && pages == old(pages)
    {
      err := GetPages(s);
      if err == Ok {
        err := MapKernel(mapped);
      }
    }

    /** vmap(), and the pages given back if it returns NULL. */
    method MapKernel(mapped: Option<nat>) returns (err: Errno)
      requires Wired(true) && pages != null && pagesUseCount > 0
      modifies `vaddr, `pages, `pagesUseCount, `wires, `writeCombining
      ensures vaddr == mapped && (err == Ok <==> mapped.Some?) && Wired(pages != null)
      ensures if err == Ok then pages == old(pages) else pages == if old(pagesUseCount) > 1 then old(pages) else null
      ensures pagesUseCount == if err == Ok then old(pagesUseCount) else old(pagesUseCount) - 1
    {
      vaddr := mapped;
      err := Ok;
      if vaddr.None? {
        PutPages();
        err := ENOMEM;
      }
    }

    /** drm_gem_shmem_vunmap */
    method Vunmap()
      requires Valid()
      modifies this
      ensures Valid() && Abs() == ShmemSpec.Vunmap(old(Abs()))
      ensures vmapUseCount == if old(vmapUseCount) > 0 then old(vmapUseCount) - 1 else 0
      ensures vaddr == if vmapUseCount > 0 then old(vaddr) else None
      ensures pagesUseCount == old(pagesUseCount) - if old(vmapUseCount) == 1 then 1 else 0
    {
      ShmemSpec.NextAccounted(Abs(), ShmemSpec.OpVunmap);
      if vmapUseCount == 0 {
        return;
      }
      vmapUseCount := vmapUseCount - 1;
      if vmapUseCount > 0 {
        return;
      }
      PutPages();
      vaddr := None;
    }

    /** drm_gem_shmem_mmap, as mapping `v`. */
    method Mmap(ghost v: nat, s: Supply) returns (err: Errno)
      requires Valid() && v !in maps && |s.frames| == npages && s.readError != Ok
      modifies this
      ensures Valid() && Abs() == ShmemSpec.Mmap(old(Abs()), v, Obtainable(s))
      ensures err == Ok <==> old(pagesUseCount) > 0 || Obtainable(s)
      ensures err == Ok ==> maps == old(maps) + {v} && pagesUseCount == old(pagesUseCount) + 1
      ensures err != Ok ==> Abs() == old(Abs())
    {
      ShmemSpec.NextAccounted(Abs(), ShmemSpec.OpMmap(v, Obtainable(s)));
      err := GetPages(s);
      if err == Ok {
        maps := maps + {v};
      }
    }

    /** drm_gem_shmem_vm_open */
    method VmOpen(ghost v: nat)
      requires Valid() && v !in maps && maps != {}
      modifies this
      ensures Valid() && Abs() == ShmemSpec.VmOpen(old(Abs()), v)
      ensures maps == old(maps) + {v} && pagesUseCount == old(pagesUseCount) + 1
    {
      ShmemSpec.NextAccounted(Abs(), ShmemSpec.OpVmOpen(v));
      if pagesUseCount != 0 {
        pagesUseCount := pagesUseCount + 1;
      }
      maps := maps + {v};
    }

    /** drm_gem_shmem_vm_close */
    method VmClose(ghost v: nat)
      requires Valid() && v in maps
      modifies this
      ensures Valid() && Abs() == ShmemSpec.VmClose(old(Abs()), v)
      ensures maps == old(maps) - {v} && pagesUseCount == old(pagesUseCount) - 1
      ensures forall e {:trigger e in ptes} :: e in ptes <==> e in old(ptes) && e.0 != v
    {
      ShmemSpec.NextAccounted(Abs(), ShmemSpec.OpVmClose(v));
      PutPages();
      maps := maps - {v};
      ptes := set e | e in ptes && e.0 != v;
    }

    /** drm_gem_shmem_fault: the page it inserts, or None for SIGBUS. */
    method Fault(ghost v: nat, address: nat, start: nat) returns (page: Option<nat>)
      requires Valid() && v in maps
      modifies this
      ensures Valid()
      ensures Abs() == ShmemSpec.Fault(old(Abs()), v, FaultIndex(address, start), InRange(address, start, npages))
      ensures page.Some? <==> InRange(address, start, npages) && pages != null && madv >= 0
      ensures page.Some? ==> page.value == pages[FaultIndex(address, start)]
      ensures pages == old(pages)
      ensures ptes == if page.Some? then old(ptes) + {(v, FaultIndex(address, start))} else old(ptes)
    {
      ShmemSpec.NextAccounted(Abs(), ShmemSpec.OpFault(v, FaultIndex(address, start), InRange(address, start, npages)));
      if !InRange(address, start, npages) || pages == null || madv < 0 {
        return None;
      }
      var idx := FaultIndex(address, start);
      ptes := ptes + {(v, idx)};
      page := Some(pages[idx]);
    }

    /**
     drm_gem_shmem_get_pages_sgt; `build` and `dmaMap` are the results of building the table and
     mapping it for DMA.
     */
    method GetPagesSgt(lock: bool, s: Supply, build: Errno, dmaMap: Errno) returns (err: Errno)
      requires Valid() && |s.frames| == npages && s.readError != Ok
      modifies this
      ensures Valid() && Abs() == ShmemSpec.GetSgt(old(Abs()), lock, Obtainable(s), build == Ok && dmaMap == Ok)
      ensures err == Ok <==> sgt.Some? && lock
      ensures err == Ok <==>
                lock && (old(sgt).Some? || ((old(pagesUseCount) > 0 || Obtainable(s)) && build == Ok && dmaMap == Ok))
      ensures old(sgt).Some? ==> sgt == old(sgt)
      ensures pagesUseCount == old(pagesUseCount) + if old(sgt).None? && sgt.Some? then 1 else 0
      ensures err != Ok ==> Abs() == old(Abs())
    {
      ShmemSpec.NextAccounted(Abs(), ShmemSpec.OpGetSgt(lock, Obtainable(s), build == Ok && dmaMap == Ok));
      if !lock {
        return EINTR;
      }
      if sgt.Some? {
        return Ok;
      }
      err := GetPages(s);
      if err != Ok {
        return;
      }
      if build != Ok {
        PutPages();
        return build;
      }
      if dmaMap != Ok {
        PutPages();
        return dmaMap;
      }
      sgt := Some(pages[..]);
    }

    /** drm_gem_shmem_madvise */
    method Madvise(advice: int) returns (usable: bool)
      requires Valid()
      modifies `madv
      ensures Valid() && Abs() == ShmemSpec.Madvise(old(Abs()), advice)
      ensures madv == if old(madv) >= 0 then advice else old(madv)
      ensures usable <==> madv >= 0
    {
      if madv >= 0 {
        madv := advice;
      }
      usable := madv >= 0;
    }

    /** drm_gem_shmem_zap_ptes: page by page, every user's mapping of it goes. */
    method ZapPtes()
      requires forall e {:trigger e in ptes} | e in ptes :: e.1 < npages
      modifies `ptes
      ensures ptes == {}
    {
      var i := 0;
      while i < npages
        invariant i <= npages && forall e {:trigger e in ptes} | e in ptes :: i <= e.1 < npages
      {
        ptes := set e | e in ptes && e.1 != i;
        i := i + 1;
      }
    }

    /** drm_gem_shmem_purge */
    method Purge()
      requires Valid() && ShmemSpec.Purgeable(Abs())
      modifies this
      ensures Valid() && Abs() == ShmemSpec.Purge(old(Abs()))
      ensures ptes == {} && sgt == None && madv == -1 && !offset && pagesUseCount == old(pagesUseCount) - 1
    {
      ShmemSpec.NextAccounted(Abs(), ShmemSpec.OpPurge);
      ZapPtes();
      sgt := None;
      PutPages();
      madv := -1;
      offset := false;
    }

    /** drm_gem_shmem_free up to its final check of the count, which it returns. */
    method Free() returns (left: nat)
      requires Valid()
      modifies this
      ensures left == ShmemSpec.FreeUses(old(Abs())) && Wired(pages != null)
      ensures old(pins == 0 && maps == {} && vmapUseCount == 0) ==> left == 0 && pages == null
    {
      sgt := None;
      if pages != null {
        PutPages();
      }
      left := pagesUseCount;
    }
  }
}
