/**
 A shmem GEM object as a state machine over values (drm_gem_shmem_helper.c): one use count shared by
 pins, user mappings, the kernel mapping and the cached sg table.  `Shmem.ShmemObject` implements
 these steps on the object's fields.
 */
module ShmemSpec {
  import opened Wrappers

  /**
   `held`: the pages array exists; `vaddr`: the kernel mapping exists; `offset`: the fake mmap offset
   exists.  `pins`, `maps` (user mappings by id) and `ptes` (mapping, page) are the users' side.
   */
  datatype State = State(uses: nat, held: bool, vmaps: nat, vaddr: bool, sgt: bool, madv: int, offset: bool,
                         pins: nat, maps: set<nat>, ptes: set<(nat, nat)>)

  /** pages_use_count is the number of users, and the pages exist exactly while there is one. */
  ghost predicate Accounted(s: State) {
    && s.uses == s.pins + |s.maps| + Bit(s.vmaps > 0) + Bit(s.sgt)
    && (s.held <==> s.uses > 0) && (s.vaddr <==> s.vmaps > 0)
    && (forall e {:trigger e in s.ptes} | e in s.ptes :: e.0 in s.maps)
  }

  function Create(): State { State(0, false, 0, false, false, 0, true, 0, {}, {}) }

  /** drm_gem_shmem_get_pages: `ok` is whether the pages could be had, were they needed. */
  function GetPages(s: State, ok: bool): State {
    if s.uses > 0 || ok
    then State(s.uses + 1, true, s.vmaps, s.vaddr, s.sgt, s.madv, s.offset, s.pins, s.maps, s.ptes)
    else State(0, s.held, s.vmaps, s.vaddr, s.sgt, s.madv, s.offset, s.pins, s.maps, s.ptes)
  }

  /** drm_gem_shmem_put_pages: an underflow is refused. */
  function PutPages(s: State): State {
    if s.uses == 0 then s
    else State(s.uses - 1, s.uses > 1 && s.held, s.vmaps, s.vaddr, s.sgt, s.madv, s.offset, s.pins, s.maps, s.ptes)
  }

  predicate Got(s: State, ok: bool) { s.uses > 0 || ok }

  function WithPins(s: State, n: nat): State {
    State(s.uses, s.held, s.vmaps, s.vaddr, s.sgt, s.madv, s.offset, n, s.maps, s.ptes)
  }

  function WithVmap(s: State, n: nat, vaddr: bool): State {
    State(s.uses, s.held, n, vaddr, s.sgt, s.madv, s.offset, s.pins, s.maps, s.ptes)
  }

  function WithMaps(s: State, maps: set<nat>): State {
    State(s.uses, s.held, s.vmaps, s.vaddr, s.sgt, s.madv, s.offset, s.pins, maps, s.ptes)
  }

  function WithPtes(s: State, ptes: set<(nat, nat)>): State {
    State(s.uses, s.held, s.vmaps, s.vaddr, s.sgt, s.madv, s.offset, s.pins, s.maps, ptes)
  }

  function WithSgt(s: State, sgt: bool): State {
    State(s.uses, s.held, s.vmaps, s.vaddr, sgt, s.madv, s.offset, s.pins, s.maps, s.ptes)
  }

  function WithMadv(s: State, madv: int, offset: bool): State {
    State(s.uses, s.held, s.vmaps, s.vaddr, s.sgt, madv, offset, s.pins, s.maps, s.ptes)
  }

  // ----- the operations; each Boolean is the outcome of an outside call, used only if it is made

  function Pin(s: State, lock: bool, ok: bool): State {
    if !lock then s else if Got(s, ok) then WithPins(GetPages(s, ok), s.pins + 1) else GetPages(s, ok)
  }

  function Unpin(s: State): State { WithPins(PutPages(s), if s.pins > 0 then s.pins - 1 else 0) }

  function Vmap(s: State, ok: bool, mapped: bool): State {
    if s.vmaps > 0 then WithVmap(s, s.vmaps + 1, s.vaddr)
    else if !Got(s, ok) then WithVmap(GetPages(s, ok), 0, s.vaddr)
    else if mapped then WithVmap(GetPages(s, ok), 1, true)
    else WithVmap(PutPages(GetPages(s, ok)), 0, false)
  }

  function Vunmap(s: State): State {
    if s.vmaps == 0 then s
    else if s.vmaps > 1 then WithVmap(s, s.vmaps - 1, s.vaddr)
    else WithVmap(PutPages(s), 0, false)
  }

  function Mmap(s: State, v: nat, ok: bool): State {
    if Got(s, ok) then WithMaps(GetPages(s, ok), s.maps + {v}) else GetPages(s, ok)
  }

  /** drm_gem_shmem_vm_open: counts the new mapping only if the pages are in use. */
  function VmOpen(s: State, v: nat): State {
    WithMaps(if s.uses > 0 then GetPages(s, true) else s, s.maps + {v})
  }

  function VmClose(s: State, v: nat): State {
    WithPtes(WithMaps(PutPages(s), s.maps - {v}), set e | e in s.ptes && e.0 != v)
  }

  /** drm_gem_shmem_fault at page `idx` of the mapping. */
  function Fault(s: State, v: nat, idx: nat, inRange: bool): State {
    if !inRange || !s.held || s.madv < 0 then s else WithPtes(s, s.ptes + {(v, idx)})
  }

  function GetSgt(s: State, lock: bool, ok: bool, built: bool): State {
    if !lock || s.sgt then s
    else if !Got(s, ok) then GetPages(s, ok)
    else if built then WithSgt(GetPages(s, ok), true)
    else PutPages(GetPages(s, ok))
  }

  function Madvise(s: State, madv: int): State { if s.madv >= 0 then WithMadv(s, madv, s.offset) else s }

  predicate Purgeable(s: State) { s.madv > 0 && s.vmaps == 0 && s.sgt }

  function Purge(s: State): State { WithMadv(PutPages(WithSgt(WithPtes(s, {}), false)), -1, false) }

  /** What drm_gem_shmem_free leaves of the count. */
  function FreeUses(s: State): nat { if s.held then PutPages(s).uses else s.uses }

  datatype Op =
    | OpPin(lock: bool, ok: bool)
    | OpUnpin
    | OpVmap(ok: bool, mapped: bool)
    | OpVunmap
    | OpMmap(v: nat, ok: bool)
    | OpVmOpen(v: nat)
    | OpVmClose(v: nat)
    | OpFault(v: nat, idx: nat, inRange: bool)
    | OpGetSgt(lock: bool, ok: bool, built: bool)
    | OpMadvise(madv: int)
    | OpPurge

  /** What callers promise: undo only what was done; a new mapping has a new id, or copies a live one. */
  ghost predicate Legal(s: State, op: Op) {
    match op
    case OpUnpin => s.pins > 0
    case OpMmap(v, _) => v !in s.maps
    case OpVmOpen(v) => v !in s.maps && s.maps != {}
    case OpVmClose(v) => v in s.maps
    case OpFault(v, _, _) => v in s.maps
    case OpPurge => Purgeable(s)
    case _ => true
  }

  function Next(s: State, op: Op): State {
    match op
    case OpPin(lock, ok) => Pin(s, lock, ok)
    case OpUnpin => Unpin(s)
    case OpVmap(ok, mapped) => Vmap(s, ok, mapped)
    case OpVunmap => Vunmap(s)
    case OpMmap(v, ok) => Mmap(s, v, ok)
    case OpVmOpen(v) => VmOpen(s, v)
    case OpVmClose(v) => VmClose(s, v)
    case OpFault(v, idx, inRange) => Fault(s, v, idx, inRange)
    case OpGetSgt(lock, ok, built) => GetSgt(s, lock, ok, built)
    case OpMadvise(madv) => Madvise(s, madv)
    case OpPurge => Purge(s)
  }

  ghost predicate IsRun(ss: seq<State>, ops: seq<Op>) {
    && |ss| == |ops| + 1 && ss[0] == Create()
    && forall i | 0 <= i < |ops| :: Legal(ss[i], ops[i]) && ss[i + 1] == Next(ss[i], ops[i])
  }

  lemma MapsAccounted(s: State, v: nat, ok: bool)
    requires Accounted(s)
    ensures v !in s.maps ==> Accounted(Mmap(s, v, ok))
    ensures v !in s.maps && s.maps != {} ==> Accounted(VmOpen(s, v))
    ensures v in s.maps ==> Accounted(VmClose(s, v))
  {}

  /** Every operation, failures included, keeps the accounting. */
  lemma NextAccounted(s: State, op: Op)
    requires Accounted(s) && Legal(s, op)
    ensures Accounted(Next(s, op))
  {
    match op
    case OpMmap(v, ok) => MapsAccounted(s, v, ok);
    case OpVmClose(v) => MapsAccounted(s, v, true);
    case OpVmOpen(v) => MapsAccounted(s, v, true);
    case _ =>
  }

  lemma {:induction false} AlwaysAccounted(ss: seq<State>, ops: seq<Op>, k: nat)
    requires IsRun(ss, ops) && k < |ss|
    ensures Accounted(ss[k])
  {
    if k > 0 {
      AlwaysAccounted(ss, ops, k - 1);
      NextAccounted(ss[k - 1], ops[k - 1]);
    }
  }

  // ----- the users, counted over a run

  /** The operation takes, or gives back, a kernel mapping. */
  predicate TakesVmap(s: State, op: Op) { op.OpVmap? && (s.vmaps > 0 || ((s.uses > 0 || op.ok) && op.mapped)) }

  predicate GivesVmap(s: State, op: Op) { op.OpVunmap? && s.vmaps > 0 }

  predicate TakesPin(s: State, op: Op) { op.OpPin? && op.lock && (s.uses > 0 || op.ok) }

  predicate GivesPin(s: State, op: Op) { op.OpUnpin? && s.pins > 0 }

  /** Mapping `v` is made, or copied from another; it goes. */
  predicate TakesMap(s: State, op: Op, v: nat) {
    (op.OpMmap? && op.v == v && (s.uses > 0 || op.ok)) || (op.OpVmOpen? && op.v == v)
  }

  predicate GivesMap(op: Op, v: nat) { op.OpVmClose? && op.v == v }

  /** The kernel mappings, and the pins, taken and not given back by the first `k` operations. */
  function Vmaps(ss: seq<State>, ops: seq<Op>, k: nat): int
    requires k <= |ops| < |ss|
  {
    if k == 0 then 0
    else Vmaps(ss, ops, k - 1) + Bit(TakesVmap(ss[k - 1], ops[k - 1])) - Bit(GivesVmap(ss[k - 1], ops[k - 1]))
  }

  function Pins(ss: seq<State>, ops: seq<Op>, k: nat): int
    requires k <= |ops| < |ss|
  {
    if k == 0 then 0
    else Pins(ss, ops, k - 1) + Bit(TakesPin(ss[k - 1], ops[k - 1])) - Bit(GivesPin(ss[k - 1], ops[k - 1]))
  }

  /** Mapping `v` has been made by one of the first `k` operations, and not gone since. */
  ghost predicate MapLives(ss: seq<State>, ops: seq<Op>, k: nat, v: nat)
    requires k <= |ops| < |ss|
  {
    exists i :: 0 <= i < k && TakesMap(ss[i], ops[i], v) && forall j | i < j < k :: !GivesMap(ops[j], v)
  }

  lemma MapLivesStep(ss: seq<State>, ops: seq<Op>, k: nat, v: nat)
    requires k < |ops| < |ss|
    ensures MapLives(ss, ops, k + 1, v) <==>
              TakesMap(ss[k], ops[k], v) || (MapLives(ss, ops, k, v) && !GivesMap(ops[k], v))
  {
    if MapLives(ss, ops, k, v) && !GivesMap(ops[k], v) {
      var i :| 0 <= i < k && TakesMap(ss[i], ops[i], v) && forall j | i < j < k :: !GivesMap(ops[j], v);
      assert forall j | i < j < k + 1 :: !GivesMap(ops[j], v);
    }
  }

  /** What one operation does to the users. */
  lemma UsersStep(s: State, op: Op)
    requires Accounted(s) && Legal(s, op)
    ensures Next(s, op).vmaps == s.vmaps + Bit(TakesVmap(s, op)) - Bit(GivesVmap(s, op))
    ensures Next(s, op).pins == s.pins + Bit(TakesPin(s, op)) - Bit(GivesPin(s, op))
  {}

  lemma MapStep(s: State, op: Op, v: nat)
    requires Accounted(s) && Legal(s, op)
    ensures v in Next(s, op).maps <==> TakesMap(s, op, v) || (v in s.maps && !GivesMap(op, v))
  {}

  /**
   The users are exactly those whose calls have succeeded and not been undone: so many kernel mappings, so
   many pins, and these user mappings.  So the kernel address is there until the last vunmap, and the
   pages until the last user of any kind is gone.
   */
  lemma {:induction false} UsersAreCounted(ss: seq<State>, ops: seq<Op>, k: nat, v: nat)
    requires IsRun(ss, ops) && k < |ss|
    ensures ss[k].vmaps == Vmaps(ss, ops, k) && ss[k].pins == Pins(ss, ops, k)
    ensures v in ss[k].maps <==> MapLives(ss, ops, k, v)
    ensures ss[k].vaddr <==> Vmaps(ss, ops, k) > 0
    ensures Vmaps(ss, ops, k) > 0 || Pins(ss, ops, k) > 0 || MapLives(ss, ops, k, v) ==> ss[k].held
  {
    AlwaysAccounted(ss, ops, k);
    if k > 0 {
      UsersAreCounted(ss, ops, k - 1, v);
      AlwaysAccounted(ss, ops, k - 1);
      UsersStep(ss[k - 1], ops[k - 1]);
      MapStep(ss[k - 1], ops[k - 1], v);
      MapLivesStep(ss, ops, k - 1, v);
    }
    if MapLives(ss, ops, k, v) { MappedIsHeldBy(ss[k], v); }
  }

  lemma MappedIsHeldBy(s: State, v: nat)
    requires Accounted(s) && v in s.maps
    ensures s.held
  {
    assert |s.maps| > 0;
  }

  /** A user's page-table entry always maps a page that is held. */
  lemma MappedIsHeld(ss: seq<State>, ops: seq<Op>, k: nat, e: (nat, nat))
    requires IsRun(ss, ops) && k < |ss| && e in ss[k].ptes
    ensures ss[k].held && e.0 in ss[k].maps
  {
    AlwaysAccounted(ss, ops, k);
    assert ss[k].maps != {} && |ss[k].maps| > 0;
  }

  ghost predicate Purged(s: State) { s.ptes == {} && s.madv < 0 && !s.offset }

  lemma PurgedStays(s: State, op: Op)
    requires Purged(s) && Legal(s, op)
    ensures Purged(Next(s, op))
  {}

  /**
   Purge is final.  From the purge on, through every later run, no user mapping of any page exists
   and none can be made: not by a fault, an madvise, a forked mapping or a new one.
   */
  lemma {:induction false} PurgeIsFinal(ss: seq<State>, ops: seq<Op>, p: nat, k: nat)
    requires IsRun(ss, ops) && p < k < |ss| && ops[p] == OpPurge
    ensures Purged(ss[k])
  {
    if k - 1 > p {
      PurgeIsFinal(ss, ops, p, k - 1);
      PurgedStays(ss[k - 1], ops[k - 1]);
    } else {
      assert ss[k] == Next(ss[p], OpPurge);
    }
  }

  /** Though purged, the pages stay held as long as a pin or a mapping is left. */
  lemma PurgeKeepsPinned(s: State)
    requires Accounted(s) && Purgeable(s)
    ensures Purge(s).held <==> s.pins > 0 || s.maps != {}
    ensures Purge(s).uses == s.pins + |s.maps|
  {}

  /** An object freed without users other than its sg table ends with a use count of zero. */
  lemma FreeEndsAtZero(ss: seq<State>, ops: seq<Op>, k: nat)
    requires IsRun(ss, ops) && k < |ss| && ss[k].pins == 0 && ss[k].maps == {}
    ensures FreeUses(ss[k]) == 0 <==> ss[k].vmaps == 0 || !ss[k].sgt
  {
    AlwaysAccounted(ss, ops, k);
  }
}
