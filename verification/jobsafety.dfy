/**
 What holds in every state the device can reach: the three reference counts are exact, the
 address spaces hold exactly what the ranges say, and each busy pipe's MMUs see the running job's
 buffers.
 */
module JobSafety {
  import opened Wrappers
  import opened Geometry
  import opened HeapSize
  import opened VmSpec
  import opened Claims
  import opened JobSystem

  // ----- the invariant

  /** The counter the driver keeps for a claim; 0 when the object does not exist. */
  function Amount(m: Mem, c: Claim): nat {
    match c
    case OnVm(v) => if v in m.vms then m.vms[v].refs else 0
    case OnVa(v, b) => if v in m.vms && b in m.Vas(v) then m.Vas(v)[b].refs else 0
    case OnBo(b) => if b in m.bos then m.bos[b].refs else 0
  }

  /** Every counter equals the claims of its holders, plus the pipes naming the address space. */
  ghost predicate Counted(m: Mem, pipes: seq<Pipe>) {
    forall c :: CountOk(m, pipes, c)
  }

  predicate CountOk(m: Mem, pipes: seq<Pipe>, c: Claim) {
    Amount(m, c) == Sum(m.holders, c) + PipeClaims(pipes, c)
  }

  ghost predicate CountsRanges(m: Mem) { forall v, b :: Amount(m, OnVa(v, b)) == Sum(m.holders, OnVa(v, b)) }

  ghost predicate CountsBuffers(m: Mem) { forall b :: Amount(m, OnBo(b)) == Sum(m.holders, OnBo(b)) }

  ghost predicate HolderFits(hs: seq<Holder>, i: nat)
    requires i < |hs|
  {
    && HolderOk(hs[i])
    && (hs[i].Opening? || hs[i].Handle? || hs[i].Submitting? ==> FileOpen(hs, hs[i].vm))
    && (hs[i].Job? && hs[i].heap.Some? ==> hs[i].heap.value in hs[i].bos)
  }

  ghost predicate HoldersFit(hs: seq<Holder>) { forall i | 0 <= i < |hs| :: HolderFits(hs, i) }

  /** The installed pages of a range are the buffer's own. */
  ghost predicate Mirrors(bo: Bo, n: Node) {
    && n.size == |bo.backing| && 0 < bo.populated <= |bo.backing|
    && forall p {:trigger p in n.pages} {:trigger n.pages[p]} | p in n.pages ::
         n.start <= p < n.start + |bo.backing| && n.pages[p] == bo.backing[p - n.start]
  }

  /** Every populated page of the buffer is installed. */
  ghost predicate Complete(bo: Bo, n: Node) {
    forall p {:trigger p in n.pages} | n.start <= p < Tail(n, bo) :: p in n.pages
  }

  /** Where the populated part will end after the next growth. */
  function Limit(n: Node, bo: Bo): nat { n.start + bo.Next() }

  /** Past the populated part nothing is installed, or just the pages of the next growth. */
  ghost predicate Whole(bo: Bo, n: Node) {
    if Tail(n, bo) in n.pages then
      && (forall p {:trigger p in n.pages} | p in n.pages :: p < Limit(n, bo))
      && (forall p {:trigger p in n.pages} | Tail(n, bo) <= p < Limit(n, bo) :: p in n.pages)
    else
      forall p {:trigger p in n.pages} | p in n.pages :: p < Tail(n, bo)
  }

  ghost predicate RangeOk(bo: Bo, n: Node, missed: bool) {
    Mirrors(bo, n) && Whole(bo, n) && (Complete(bo, n) <==> !missed) && (missed ==> bo.heap)
  }

  ghost predicate RangeFits(m: Mem, v: VmId, b: BoId)
    requires v in m.vms && b in m.Vas(v)
  {
    b in m.bos && RangeOk(m.bos[b], m.Vas(v)[b], (v, b) in m.missed)
  }

  /** The reference counts of a range and of its buffer, and the sg table, are no part of this. */
  lemma SameRange(bo: Bo, n: Node, missed: bool, bo': Bo, n': Node)
    requires RangeOk(bo, n, missed)
    requires SamePart(bo, bo') && n'.start == n.start && n'.size == n.size && n'.pages == n.pages
    ensures RangeOk(bo', n', missed)
  {}

  predicate SamePart(bo: Bo, bo': Bo) {
    bo'.backing == bo.backing && bo'.populated == bo.populated && bo'.heap == bo.heap
  }

  /** Every mapped page has its backing table. */
  ghost predicate SlotsFit(vm: Vm) {
    forall p {:trigger p in vm.view.table} | p in vm.view.table :: Slot(p) in vm.slots
  }

  /** The table holds what the ranges say, and nothing else unless a deletion has left something. */
  ghost predicate VmFits(vm: Vm) {
    vm.refs > 0 && VmSound(vm.view) && (!vm.spoiled ==> NoStrays(vm.view)) && SlotsFit(vm)
  }

  ghost predicate ViewFits(m: Mem, v: VmId)
    requires v in m.vms
  {
    VmFits(m.vms[v]) && forall b | b in m.Vas(v) :: RangeFits(m, v, b)
  }

  ghost predicate ViewsFit(m: Mem) {
    && (forall v | v in m.vms :: ViewFits(m, v))
    && (forall v, b {:trigger (v, b) in m.missed} | (v, b) in m.missed :: v in m.vms && b in m.Vas(v))
  }

  /** The sg table lists the populated pages, or is gone after a failed growth; else a growth is at work on it. */
  predicate SgtFits(bo: Bo, stage: Stage) {
    match stage
    case Dropped => bo.sgt == Lists(0) || bo.sgt == Raw
    case Swapped => bo.sgt == Lists(bo.Next())
    case Installed => bo.sgt == Lists(bo.Next())
    case Failed => bo.sgt == Lists(0) || bo.sgt == Raw || bo.sgt == Lists(bo.Next())
    case Failing => bo.sgt == Raw
    case _ => bo.sgt == Lists(bo.populated) || bo.sgt == Absent
  }

  function StageOf(w: Work, b: BoId): Stage { if w.b == b then w.stage else Idle }

  predicate BoOk(bo: Bo, stage: Stage) {
    BoFits(bo) && SgtFits(bo, stage) && (!stage.Idle? && !stage.Stored? ==> bo.populated < |bo.backing|)
  }

  ghost predicate BosFit(m: Mem) { forall b | b in m.bos :: BoOk(m.bos[b], StageOf(m.work, b)) }

  ghost predicate MemInv(m: Mem, pipes: seq<Pipe>) {
    Counted(m, pipes) && HoldersFit(m.holders) && ViewsFit(m) && BosFit(m)
  }

  // ----- how the counters move

  lemma AmountGetVm(m: Mem, v: VmId, c: Claim)
    requires v in m.vms
    ensures Amount(GetVm(m, v), c) == Amount(m, c) + Bit(c == OnVm(v))
  {}

  lemma AmountPutVm(m: Mem, v: VmId, c: Claim)
    requires v in m.vms && m.vms[v].refs > 0 && (m.vms[v].refs == 1 ==> m.Vas(v) == map[])
    ensures Amount(PutVm(m, v), c) + Bit(c == OnVm(v)) == Amount(m, c)
  {}

  lemma AmountGetBos(m: Mem, objs: seq<BoId>, c: Claim)
    requires forall b | b in objs :: b in m.bos
    ensures Amount(GetBos(m, objs), c) == Amount(m, c) + if c.OnBo? then Times(objs, c.b) else 0
  {}

  lemma AmountPutBos(m: Mem, objs: seq<BoId>, c: Claim)
    requires c.OnBo? ==> Times(objs, c.b) <= Amount(m, c)
    ensures Amount(PutBos(m, objs), c) + (if c.OnBo? then Times(objs, c.b) else 0) == Amount(m, c)
  {}

  lemma AmountRefVa(m: Mem, v: VmId, b: BoId, c: Claim)
    requires v in m.vms && b in m.Vas(v)
    ensures Amount(RefVa(m, v, b), c) == Amount(m, c) + Bit(c == OnVa(v, b))
  {}

  lemma AmountDropVa(m: Mem, v: VmId, b: BoId, c: Claim)
    requires LiveVa(m, v, b) && m.Vas(v)[b].refs > 0
    ensures Amount(DropVa(m, v, b), c) + Bit(c == OnVa(v, b)) == Amount(m, c)
  {}

  // ----- how the address spaces move

  /** A step that changes one address space only has to be checked there. */
  lemma OneView(m: Mem, m': Mem, v: VmId)
    requires ViewsFit(m) && v in m.vms && v in m'.vms && m'.bos == m.bos && m'.vms == m.vms[v := m'.vms[v]]
    requires forall w, c {:trigger (w, c) in m'.missed} | w != v :: (w, c) in m'.missed <==> (w, c) in m.missed
    requires forall c {:trigger (v, c) in m'.missed} | (v, c) in m'.missed :: c in m'.Vas(v)
    requires ViewFits(m', v)
    ensures ViewsFit(m')
  {
    forall w | w in m'.vms ensures ViewFits(m', w) {
      assert ViewFits(m, w);
      if w != v {
        forall c | c in m'.Vas(w) ensures RangeFits(m', w, c) {
          assert RangeFits(m, w, c);
        }
      }
    }
  }

  lemma RefVaFits(m: Mem, v: VmId, b: BoId)
    requires ViewsFit(m) && v in m.vms && b in m.Vas(v)
    ensures ViewsFit(RefVa(m, v, b))
  {
    var m' := RefVa(m, v, b);
    assert ViewFits(m, v);
    RefSound(m.vms[v].view, b, m.Vas(v)[b].refs + 1);
    forall c | c in m'.Vas(v) ensures RangeFits(m', v, c) {
      assert RangeFits(m, v, c);
      SameRange(m.bos[c], m.Vas(v)[c], (v, c) in m.missed, m'.bos[c], m'.Vas(v)[c]);
    }
    OneView(m, m', v);
  }

  /** A new range in an address space. */
  lemma OpenedFits(vm: Vm, b: BoId, n: Node)
    requires VmFits(vm) && b !in vm.view.vas && Free(vm.view, n)
    ensures VmFits(Opened(vm, b, n))
  {
    InsertSound(vm.view, b, n);
    if !vm.spoiled { InsertOk(vm.view, b, n); }
    forall p | p in n.pages ensures Slot(p) in SlotsOf(n.pages) {}
  }

  lemma NewVaFits(m: Mem, v: VmId, b: BoId, start: nat)
    requires ViewsFit(m) && v in m.vms && b !in m.Vas(v) && b in m.bos && BoOk(m.bos[b], StageOf(m.work, b))
    requires m.bos[b].sgt.Lists? && Free(m.vms[v].view, Offered(m.bos[b], start))
    ensures ViewsFit(NewVa(m, v, b, start))
  {
    var m' := NewVa(m, v, b, start);
    assert ViewFits(m, v);
    OpenedFits(m.vms[v], b, Offered(m.bos[b], start));
    OfferedFits(m.bos[b], start, StageOf(m.work, b));
    forall c | c in m'.Vas(v) ensures RangeFits(m', v, c) {
      if c != b {
        assert RangeFits(m, v, c);
      }
    }
    OneView(m, m', v);
  }

  /** What is installed depends on how far a growth has come: nothing, the populated part, or that and the next. */
  lemma OfferedFits(bo: Bo, start: nat, stage: Stage)
    requires BoOk(bo, stage) && bo.sgt.Lists?
    ensures Mirrors(bo, Offered(bo, start)) && Whole(bo, Offered(bo, start))
    ensures Complete(bo, Offered(bo, start)) <==> |bo.Listed()| >= bo.populated
    ensures |bo.Listed()| < bo.populated ==> bo.heap
  {
    var n := Offered(bo, start);
    assert forall p: nat :: p in n.pages <==> start <= p < start + |bo.Listed()|;
    assert start in n.pages || |bo.Listed()| == 0;
  }

  lemma DeletedFits(vm: Vm, b: BoId, cut: nat)
    requires VmFits(vm) && b in vm.view.vas && cut <= vm.view.vas[b].size
    ensures VmFits(Deleted(vm, b, cut))
  {
    DropSound(vm.view, b, cut);
    assert vm.view.vas[b].Sane();
    if !Deleted(vm, b, cut).spoiled { DropOk(vm.view, b, cut); }
  }

  lemma DeletedRange(m: Mem, v: VmId, b: BoId, c: BoId)
    requires LiveVa(m, v, b) && c in DropVa(m, v, b).Vas(v) && RangeFits(m, v, c)
    ensures RangeFits(DropVa(m, v, b), v, c)
  {
    var m' := DropVa(m, v, b);
    if c == b {
      SameRange(m.bos[c], m.Vas(v)[c], (v, c) in m.missed, m'.bos[c], m'.Vas(v)[c]);
    } else {
      assert m'.Vas(v)[c] == m.Vas(v)[c] && ((v, c) in m'.missed <==> (v, c) in m.missed);
    }
  }

  lemma DropVaFits(m: Mem, v: VmId, b: BoId)
    requires ViewsFit(m) && LiveVa(m, v, b)
    ensures ViewsFit(DropVa(m, v, b))
  {
    var m' := DropVa(m, v, b);
    assert ViewFits(m, v) && RangeFits(m, v, b);
    DeletedFits(m.vms[v], b, m.bos[b].populated);
    forall c | c in m'.Vas(v) ensures RangeFits(m', v, c) {
      assert RangeFits(m, v, c);
      DeletedRange(m, v, b, c);
    }
    OneView(m, m', v);
  }

  /** A mapping loop that fails in an unused stretch of pages, and unmaps what it had mapped. */
  lemma UndoneFits(vm: Vm, start: nat, done: nat, slots: set<nat>)
    requires VmFits(vm)
    requires forall p | Between(start, p, done) :: p !in vm.view.reserved && forall b | b in vm.view.vas ::
               p !in vm.view.vas[b].pages
    ensures VmFits(Undone(vm, start, done, slots))
    ensures !vm.spoiled ==> Undone(vm, start, done, slots).view == vm.view
  {
    CutSound(vm.view, start, done);
  }

  lemma UndoneViewFits(m: Mem, v: VmId, start: nat, done: nat, slots: set<nat>)
    requires ViewsFit(m) && v in m.vms && VmFits(Undone(m.vms[v], start, done, slots))
    ensures ViewsFit(WithVm(m, v, Undone(m.vms[v], start, done, slots)))
  {
    var m' := WithVm(m, v, Undone(m.vms[v], start, done, slots));
    assert ViewFits(m, v);
    forall c | c in m'.Vas(v) ensures RangeFits(m', v, c) {
      assert RangeFits(m, v, c);
    }
    OneView(m, m', v);
  }

  // ----- how a growth moves them

  /** Mapping the pages of a growth. */
  lemma MoreRoom(w: View, b: BoId, bo: Bo)
    requires b in w.vas && Mirrors(bo, w.vas[b]) && Whole(bo, w.vas[b])
    ensures Room(w, b, Range(Tail(w.vas[b], bo), bo.More()))
  {}

  lemma ExtendedFits(vm: Vm, b: BoId, part: Table)
    requires VmFits(vm) && Room(vm.view, b, part)
    ensures VmFits(Extended(vm, b, part))
    ensures !vm.spoiled ==> Holds(Extended(vm, b, part).view.table, vm.view.table)
  {
    ExtendSound(vm.view, b, part);
    if !vm.spoiled { ExtendOk(vm.view, b, part); }
    forall p | p in part ensures Slot(p) in SlotsOf(part) {}
  }

  lemma MoreInstalled(bo: Bo, n: Node)
    requires Mirrors(bo, n) && Whole(bo, n) && bo.populated < |bo.backing|
    ensures var n' := n.Grown(Range(Tail(n, bo), bo.More()));
            Mirrors(bo, n') && Whole(bo, n') && (Complete(bo, n') <==> Complete(bo, n)) && Tail(n, bo) in n'.pages
  {
    MoreMirrors(bo, n);
    var n' := n.Grown(Range(Tail(n, bo), bo.More()));
    assert forall p: nat :: p in n'.pages <==> p in n.pages || Tail(n, bo) <= p < Limit(n, bo);
  }

  lemma MoreMirrors(bo: Bo, n: Node)
    requires Mirrors(bo, n)
    ensures Mirrors(bo, n.Grown(Range(Tail(n, bo), bo.More())))
  {}

  lemma MapMoreFits(m: Mem)
    requires ViewsFit(m) && LiveVa(m, m.work.v, m.work.b) && m.bos[m.work.b].populated < |m.bos[m.work.b].backing|
    ensures ViewsFit(MapMore(m))
  {
    var v, b, m' := m.work.v, m.work.b, MapMore(m);
    assert ViewFits(m, v) && RangeFits(m, v, b);
    MoreRoom(m.vms[v].view, b, m.bos[b]);
    ExtendedFits(m.vms[v], b, Range(Tail(m.Vas(v)[b], m.bos[b]), m.bos[b].More()));
    MoreInstalled(m.bos[b], m.Vas(v)[b]);
    forall c | c in m'.Vas(v) ensures RangeFits(m', v, c) {
      assert RangeFits(m, v, c);
    }
    OneView(m, m', v);
  }

  lemma MapUndoneFits(m: Mem, done: nat, slots: set<nat>)
    requires ViewsFit(m) && m.work.v in m.vms && m.work.b in m.bos && CanFail(m) && done <= |m.bos[m.work.b].More()|
    ensures ViewsFit(MapUndone(m, done, slots))
    ensures !m.vms[m.work.v].spoiled ==> MapUndone(m, done, slots).vms[m.work.v].view == m.vms[m.work.v].view
  {
    var v, b := m.work.v, m.work.b;
    if b in m.Vas(v) {
      assert ViewFits(m, v) && RangeFits(m, v, b);
      OwnTailUnused(m.vms[v].view, b, Tail(m.Vas(v)[b], m.bos[b]), done);
      UndoneFits(m.vms[v], Tail(m.Vas(v)[b], m.bos[b]), done, slots);
      UndoneViewFits(m, v, Tail(m.Vas(v)[b], m.bos[b]), done, slots);
    }
  }

  /** Storing the size: an address space has all of the heap's pages if it had all before and has the new ones. */
  lemma StoredFits(bo: Bo, n: Node)
    requires Mirrors(bo, n) && Whole(bo, n) && bo.populated < |bo.backing|
    ensures Mirrors(bo.Stored(bo.Next()), n) && Whole(bo.Stored(bo.Next()), n)
    ensures Complete(bo.Stored(bo.Next()), n) <==> Complete(bo, n) && Tail(n, bo) in n.pages
  {}

  /** After a growth the address spaces that did not get the new pages are incomplete, and only those more. */
  lemma GrownFits(m: Mem)
    requires ViewsFit(m) && m.work.b in m.bos
    requires m.bos[m.work.b].heap && m.bos[m.work.b].populated < |m.bos[m.work.b].backing|
    ensures ViewsFit(Grown(m))
  {
    var b, m' := m.work.b, Grown(m);
    forall w | w in m'.vms ensures ViewFits(m', w) {
      assert ViewFits(m, w);
      forall c | c in m'.Vas(w) ensures RangeFits(m', w, c) {
        assert RangeFits(m, w, c);
        if c == b {
          StoredFits(m.bos[b], m.Vas(w)[b]);
        }
      }
    }
  }

  lemma GetVmFits(m: Mem, v: VmId)
    requires ViewsFit(m) && v in m.vms
    ensures ViewsFit(GetVm(m, v))
  {
    var m' := GetVm(m, v);
    assert ViewFits(m, v);
    forall c | c in m'.Vas(v) ensures RangeFits(m', v, c) {
      assert RangeFits(m, v, c);
    }
    OneView(m, m', v);
  }

  /** An address space may be released once no range is left in it. */
  lemma PutVmFits(m: Mem, v: VmId)
    requires ViewsFit(m) && v in m.vms && (m.vms[v].refs == 1 ==> m.Vas(v) == map[])
    ensures ViewsFit(PutVm(m, v))
  {
    var m' := PutVm(m, v);
    forall w | w in m'.vms ensures ViewFits(m', w) {
      assert ViewFits(m, w);
      forall c | c in m'.Vas(w) ensures RangeFits(m', w, c) {
        assert RangeFits(m, w, c);
      }
    }
  }

  ghost predicate SamePages(m: Mem, m': Mem) {
    && m'.vms == m.vms && m'.missed == m.missed
    && (forall b | b in m'.bos :: b in m.bos && SamePart(m.bos[b], m'.bos[b]))
    && (forall v, b {:trigger b in m.Vas(v)} | v in m.vms && b in m.Vas(v) :: b in m'.bos)
  }

  /** The GEM counts and the sg tables may change freely, as long as no mapped buffer goes. */
  lemma SamePagesFit(m: Mem, m': Mem)
    requires ViewsFit(m) && SamePages(m, m')
    ensures ViewsFit(m')
  {
    forall v | v in m'.vms ensures ViewFits(m', v) {
      assert ViewFits(m, v);
      forall c | c in m'.Vas(v) ensures RangeFits(m', v, c) {
        assert RangeFits(m, v, c);
        assert c in m.Vas(v);
        SameRange(m.bos[c], m.Vas(v)[c], (v, c) in m.missed, m'.bos[c], m'.Vas(v)[c]);
      }
    }
  }

  lemma NewVmFits(m: Mem, v: VmId, reserved: Table)
    requires ViewsFit(m) && v !in m.vms
    ensures ViewsFit(WithVm(m, v, NewVm(reserved)))
  {
    var m' := WithVm(m, v, NewVm(reserved));
    forall p | p in reserved ensures Slot(p) in SlotsOf(reserved) {}
    forall w | w in m'.vms ensures ViewFits(m', w) {
      if w != v {
        assert ViewFits(m, w);
        forall c | c in m'.Vas(w) ensures RangeFits(m', w, c) {
          assert RangeFits(m, w, c);
        }
      }
    }
  }

  // ----- what the counts imply

  /** A counted range or buffer exists. */
  lemma HeldVa(m: Mem, pipes: seq<Pipe>, i: nat, v: VmId, b: BoId)
    requires MemInv(m, pipes) && i < |m.holders| && Weight(m.holders[i], OnVa(v, b)) > 0
    ensures LiveVa(m, v, b) && m.Vas(v)[b].refs >= Weight(m.holders[i], OnVa(v, b))
  {
    SumAtLeast(m.holders, i, OnVa(v, b));
    assert CountOk(m, pipes, OnVa(v, b));
    assert ViewFits(m, v) && RangeFits(m, v, b);
  }

  lemma HeldVm(m: Mem, pipes: seq<Pipe>, i: nat, v: VmId)
    requires MemInv(m, pipes) && i < |m.holders| && Weight(m.holders[i], OnVm(v)) > 0
    ensures v in m.vms && m.vms[v].refs >= 1 + PipeClaims(pipes, OnVm(v))
  {
    SumAtLeast(m.holders, i, OnVm(v));
    assert CountOk(m, pipes, OnVm(v));
  }

  lemma HeldBo(m: Mem, pipes: seq<Pipe>, i: nat, b: BoId)
    requires MemInv(m, pipes) && i < |m.holders| && Weight(m.holders[i], OnBo(b)) > 0
    ensures b in m.bos && m.bos[b].refs >= Weight(m.holders[i], OnBo(b))
  {
    SumAtLeast(m.holders, i, OnBo(b));
    assert CountOk(m, pipes, OnBo(b));
  }

  /** An open file keeps its address space alive. */
  lemma OpenFileVm(m: Mem, pipes: seq<Pipe>, v: VmId)
    requires MemInv(m, pipes) && FileOpen(m.holders, v)
    ensures v in m.vms
  {
    var i :| 0 <= i < |m.holders| && m.holders[i] == File(v);
    HeldVm(m, pipes, i, v);
  }

  /**
   No buffer is freed while a range of it exists anywhere: the error message of
   lima_gem_free_object ("free bo still has va") is never printed.
   */
  lemma FreedIsUnmapped(m: Mem, v: VmId, b: BoId)
    requires CountsRanges(m) && CountsBuffers(m) && HoldersFit(m.holders)
    requires v in m.vms && b in m.Vas(v) && m.Vas(v)[b].refs > 0
    ensures b in m.bos && m.bos[b].refs >= m.Vas(v)[b].refs
  {
    forall i | 0 <= i < |m.holders| ensures HolderOk(m.holders[i]) {
      assert HolderFits(m.holders, i);
    }
    VaImpliesBo(m.holders, v, b);
    assert Amount(m, OnVa(v, b)) == Sum(m.holders, OnVa(v, b)) && Amount(m, OnBo(b)) == Sum(m.holders, OnBo(b));
  }

  /**
   No range is left when nobody names the address space any more: the allocator that
   lima_vm_release takes down is empty.
   */
  lemma ReleasedIsEmpty(m: Mem, v: VmId)
    requires CountsRanges(m) && HoldersFit(m.holders)
    requires v in m.vms && Sum(m.holders, OnVm(v)) == 0 && forall b | b in m.Vas(v) :: m.Vas(v)[b].refs > 0
    ensures m.Vas(v) == map[]
  {
    forall b | b in m.Vas(v) ensures false {
      assert Amount(m, OnVa(v, b)) == Sum(m.holders, OnVa(v, b));
      forall i | 0 <= i < |m.holders| ensures Weight(m.holders[i], OnVa(v, b)) == 0 {
        assert HolderFits(m.holders, i);
        SumAtLeast(m.holders, i, OnVm(v));
        if NeedsFile(m.holders[i], v) {
          var k :| 0 <= k < |m.holders| && m.holders[k] == File(v);
          SumAtLeast(m.holders, k, OnVm(v));
        }
      }
      SumZero(m.holders, OnVa(v, b));
    }
  }

  // ----- each memory step keeps the invariant

  lemma PushedHolders(hs: seq<Holder>, h: Holder)
    requires HoldersFit(hs) && HolderFits(hs + [h], |hs|)
    ensures HoldersFit(hs + [h])
  {
    forall k | 0 <= k < |hs| ensures HolderFits(hs + [h], k) {
      assert HolderFits(hs, k);
      assert forall v | FileOpen(hs, v) :: File(v) in hs + [h];
    }
  }

  lemma SwappedHolders(hs: seq<Holder>, i: nat, h: Holder)
    requires HoldersFit(hs) && i < |hs| && HolderFits(hs[i := h], i)
    requires hs[i].File? ==> forall k | 0 <= k < |hs| :: !NeedsFile(hs[k], hs[i].vm)
    ensures HoldersFit(hs[i := h])
  {
    var hs' := hs[i := h];
    forall k | 0 <= k < |hs'| ensures HolderFits(hs', k) {
      assert HolderFits(hs, k);
      if k != i && (hs[k].Opening? || hs[k].Handle? || hs[k].Submitting?) {
        var j :| 0 <= j < |hs| && hs[j] == File(hs[k].vm);
        assert NeedsFile(hs[k], hs[k].vm);
        assert hs'[j] == File(hs[k].vm);
      }
    }
  }

  lemma PutBosFits(m: Mem, objs: seq<BoId>)
    requires ViewsFit(m) && CountsRanges(PutBos(m, objs)) && CountsBuffers(PutBos(m, objs)) && HoldersFit(m.holders)
    ensures ViewsFit(PutBos(m, objs))
  {
    var m' := PutBos(m, objs);
    forall v, b {:trigger b in m.Vas(v)} | v in m.vms && b in m.Vas(v) ensures b in m'.bos {
      assert ViewFits(m, v);
      FreedIsUnmapped(m', v, b);
    }
    SamePagesFit(m, m');
  }

  lemma PlainCounts(m: Mem, pipes: seq<Pipe>)
    requires Counted(m, pipes)
    ensures CountsRanges(m) && CountsBuffers(m)
  {
    forall v, b ensures Amount(m, OnVa(v, b)) == Sum(m.holders, OnVa(v, b)) {
      assert CountOk(m, pipes, OnVa(v, b));
    }
    forall b ensures Amount(m, OnBo(b)) == Sum(m.holders, OnBo(b)) {
      assert CountOk(m, pipes, OnBo(b));
    }
  }

  lemma GetBosFits(m: Mem, objs: seq<BoId>)
    requires ViewsFit(m) && BosFit(m)
    ensures ViewsFit(GetBos(m, objs)) && BosFit(GetBos(m, objs))
  {
    forall v, b {:trigger b in m.Vas(v)} | v in m.vms && b in m.Vas(v) ensures b in m.bos {
      assert ViewFits(m, v) && RangeFits(m, v, b);
    }
    SamePagesFit(m, GetBos(m, objs));
    forall b | b in m.bos ensures BoOk(GetBos(m, objs).bos[b], StageOf(m.work, b)) {
      assert BoOk(m.bos[b], StageOf(m.work, b));
    }
  }

  lemma PutBosFit(m: Mem, objs: seq<BoId>)
    requires BosFit(m)
    ensures BosFit(PutBos(m, objs))
  {
    forall b | b in PutBos(m, objs).bos ensures BoOk(PutBos(m, objs).bos[b], StageOf(m.work, b)) {
      assert BoOk(m.bos[b], StageOf(m.work, b));
    }
  }

  // -- a handle, or a submission under construction, gives one range and one reference back

  lemma DropCount(m: Mem, pipes: seq<Pipe>, i: nat, v: VmId, b: BoId, h: Holder, c: Claim)
    requires CountOk(m, pipes, c) && i < |m.holders| && LiveVa(m, v, b) && m.Vas(v)[b].refs > 0 && m.bos[b].refs > 0
    requires Weight(m.holders[i], c) == Weight(h, c) + Bit(c == OnVa(v, b)) + Bit(c == OnBo(b))
    ensures CountOk(PutBos(DropVa(Swap(m, i, h), v, b), [b]), pipes, c)
  {
    var m1 := Swap(m, i, h);
    SumSet(m.holders, i, h, c);
    assert Amount(m1, c) == Amount(m, c);
    AmountDropVa(m1, v, b, c);
    AmountPutBos(DropVa(m1, v, b), [b], c);
  }

  lemma DropKeeps(m: Mem, pipes: seq<Pipe>, i: nat, v: VmId, b: BoId, h: Holder)
    requires MemInv(m, pipes) && i < |m.holders| && !m.holders[i].File? && HolderFits(m.holders[i := h], i)
    requires forall c :: Weight(m.holders[i], c) == Weight(h, c) + Bit(c == OnVa(v, b)) + Bit(c == OnBo(b))
    ensures LiveVa(m, v, b)
    ensures MemInv(PutBos(DropVa(Swap(m, i, h), v, b), [b]), pipes)
  {
    assert Weight(m.holders[i], OnVa(v, b)) > 0 && Weight(m.holders[i], OnBo(b)) > 0;
    HeldVa(m, pipes, i, v, b);
    HeldBo(m, pipes, i, b);
    var m1 := Swap(m, i, h);
    var m2 := DropVa(m1, v, b);
    var m3 := PutBos(m2, [b]);
    forall c ensures CountOk(m3, pipes, c) {
      assert CountOk(m, pipes, c);
      DropCount(m, pipes, i, v, b, h, c);
    }
    SwappedHolders(m.holders, i, h);
    SamePagesFit(m, m1);
    DropVaFits(m1, v, b);
    PlainCounts(m3, pipes);
    PutBosFits(m2, [b]);
    PutBosFit(m2, [b]);
  }

  // -- a new handle

  lemma AmountMapped(m: Mem, v: VmId, b: BoId, start: nat, c: Claim)
    requires v in m.vms && b in m.bos
    ensures Amount(Mapped(m, v, b, start), c) == Amount(m, c) + Bit(c == OnVa(v, b))
    ensures Mapped(m, v, b, start).holders == m.holders && Mapped(m, v, b, start).bos == m.bos
  {}

  lemma AmountGetBo(m: Mem, b: BoId, c: Claim)
    requires b in m.bos
    ensures Amount(GetBos(m, [b]), c) == Amount(m, c) + Bit(c == OnBo(b))
  {
    AmountGetBos(m, [b], c);
  }

  lemma OpenHandleCount(m: Mem, m1: Mem, pipes: seq<Pipe>, v: VmId, b: BoId, c: Claim)
    requires CountOk(m, pipes, c) && Amount(m1, c) == Amount(m, c) + Bit(c == OnVa(v, b))
    requires m1.holders == m.holders && b in m1.bos
    ensures CountOk(Hold(GetBos(m1, [b]), Handle(v, b)), pipes, c)
  {
    SumPush(m.holders, Handle(v, b), c);
    AmountGetBo(m1, b, c);
    assert Amount(Hold(GetBos(m1, [b]), Handle(v, b)), c) == Amount(GetBos(m1, [b]), c);
  }

  lemma MappedFits(m: Mem, v: VmId, b: BoId, start: nat)
    requires ViewsFit(m) && BosFit(m) && v in m.vms && b in m.bos && CanMap(m, v, b)
    requires b !in m.Vas(v) ==> Free(m.vms[v].view, Offered(m.bos[b], start))
    ensures ViewsFit(Mapped(m, v, b, start)) && BosFit(Mapped(m, v, b, start))
  {
    assert BoOk(m.bos[b], StageOf(m.work, b));
    if b in m.Vas(v) {
      RefVaFits(m, v, b);
    } else {
      NewVaFits(m, v, b, start);
    }
    SameBosFit(m, Mapped(m, v, b, start));
  }

  lemma SameBosFit(m: Mem, m': Mem)
    requires BosFit(m) && m'.bos == m.bos && m'.work == m.work
    ensures BosFit(m')
  {}

  lemma OpenHandleKeeps(m: Mem, pipes: seq<Pipe>, v: VmId, b: BoId, start: nat)
    requires MemInv(m, pipes) && CanOpen(m, v, b, start) && v in m.vms && CanMap(m, v, b)
    ensures MemInv(Hold(GetBos(Mapped(m, v, b, start), [b]), Handle(v, b)), pipes)
  {
    var m1 := Mapped(m, v, b, start);
    var m2 := GetBos(m1, [b]);
    var m3 := Hold(m2, Handle(v, b));
    forall c ensures CountOk(m3, pipes, c) {
      assert CountOk(m, pipes, c);
      AmountMapped(m, v, b, start, c);
      OpenHandleCount(m, m1, pipes, v, b, c);
    }
    PushedHolders(m.holders, Handle(v, b));
    MappedFits(m, v, b, start);
    GetBosFits(m1, [b]);
    SamePagesFit(m2, m3);
    SameBosFit(m2, m3);
  }

  /** A failed open leaves at most backing tables behind. */
  lemma FailedOpenKeeps(m: Mem, pipes: seq<Pipe>, v: VmId, b: BoId, start: nat, done: nat, slots: set<nat>)
    requires MemInv(m, pipes) && CanOpen(m, v, b, start) && v in m.vms && b !in m.Vas(v)
    requires done <= |m.bos[b].Listed()|
    ensures MemInv(WithVm(m, v, Undone(m.vms[v], start, done, slots)), pipes)
    ensures !m.vms[v].spoiled ==> Undone(m.vms[v], start, done, slots).view == m.vms[v].view
  {
    assert ViewFits(m, v);
    FreeIsUnused(m.vms[v].view, Offered(m.bos[b], start), done);
    UndoneFits(m.vms[v], start, done, slots);
    UndoneViewFits(m, v, start, done, slots);
    SameUsers(m, pipes, v, Undone(m.vms[v], start, done, slots));
    SameBosFit(m, WithVm(m, v, Undone(m.vms[v], start, done, slots)));
  }

  /** A step that moves no counter. */
  lemma SameAmounts(m: Mem, m': Mem, pipes: seq<Pipe>)
    requires Counted(m, pipes) && m'.holders == m.holders && forall c :: Amount(m', c) == Amount(m, c)
    ensures Counted(m', pipes)
  {
    forall c ensures CountOk(m', pipes, c) {
      assert CountOk(m, pipes, c);
    }
  }

  // -- a submission takes one more buffer

  lemma AddToSubmitCount(m: Mem, pipes: seq<Pipe>, i: nat, v: VmId, b: BoId, h: Holder, c: Claim)
    requires CountOk(m, pipes, c) && i < |m.holders| && LiveVa(m, v, b)
    requires Weight(h, c) == Weight(m.holders[i], c) + Bit(c == OnVa(v, b)) + Bit(c == OnBo(b))
    ensures CountOk(Swap(GetBos(RefVa(m, v, b), [b]), i, h), pipes, c)
  {
    var m1 := RefVa(m, v, b);
    SumSet(m.holders, i, h, c);
    AmountRefVa(m, v, b, c);
    AmountGetBos(m1, [b], c);
    assert Amount(Swap(GetBos(m1, [b]), i, h), c) == Amount(GetBos(m1, [b]), c);
  }

  lemma AddToSubmitCounted(m: Mem, pipes: seq<Pipe>, i: nat, v: VmId, b: BoId, h: Holder)
    requires Counted(m, pipes) && i < |m.holders| && m.holders[i].Submitting? && m.holders[i].vm == v
    requires h == Submitting(v, m.holders[i].bos + [b]) && LiveVa(m, v, b)
    ensures Counted(Swap(GetBos(RefVa(m, v, b), [b]), i, h), pipes)
  {
    forall c ensures CountOk(Swap(GetBos(RefVa(m, v, b), [b]), i, h), pipes, c) {
      assert CountOk(m, pipes, c);
      if c.OnVa? || c.OnBo? { TimesPush(m.holders[i].bos, b, c.b); }
      AddToSubmitCount(m, pipes, i, v, b, h, c);
    }
  }

  lemma AddToSubmitKeeps(m: Mem, pipes: seq<Pipe>, i: nat, v: VmId, b: BoId, h: Holder)
    requires MemInv(m, pipes) && i < |m.holders| && m.holders[i].Submitting? && m.holders[i].vm == v
    requires h == Submitting(v, m.holders[i].bos + [b]) && LiveVa(m, v, b)
    ensures MemInv(Swap(GetBos(RefVa(m, v, b), [b]), i, h), pipes)
  {
    var m2 := GetBos(RefVa(m, v, b), [b]);
    var m3 := Swap(m2, i, h);
    AddToSubmitCounted(m, pipes, i, v, b, h);
    StillSubmitting(m.holders, i, h);
    RefVaFits(m, v, b);
    GetBosFits(RefVa(m, v, b), [b]);
    SamePagesFit(m2, m3);
  }

  lemma StillSubmitting(hs: seq<Holder>, i: nat, h: Holder)
    requires HoldersFit(hs) && i < |hs| && hs[i].Submitting? && h.Submitting? && h.vm == hs[i].vm
    ensures HoldersFit(hs[i := h])
  {
    assert HolderFits(hs, i);
    var j :| 0 <= j < |hs| && hs[j] == File(h.vm);
    assert hs[i := h][j] == File(h.vm);
    SwappedHolders(hs, i, h);
  }

  /** The buffers a submission lists are mapped while its file is open. */
  lemma SubmittedIsLive(m: Mem, pipes: seq<Pipe>, i: nat, b: BoId)
    requires MemInv(m, pipes) && i < |m.holders| && m.holders[i].Submitting?
    requires m.holders[i].vm in m.vms ==> b in m.Vas(m.holders[i].vm)
    ensures LiveVa(m, m.holders[i].vm, b)
  {
    assert HolderFits(m.holders, i);
    OpenFileVm(m, pipes, m.holders[i].vm);
    assert ViewFits(m, m.holders[i].vm) && RangeFits(m, m.holders[i].vm, b);
  }

  /** Replacing a holder by one with the same claims. */
  lemma SwapKeeps(m: Mem, pipes: seq<Pipe>, i: nat, h: Holder)
    requires MemInv(m, pipes) && i < |m.holders| && !m.holders[i].File? && HolderFits(m.holders[i := h], i)
    requires forall c :: Weight(m.holders[i], c) == Weight(h, c)
    ensures MemInv(Swap(m, i, h), pipes)
  {
    var m' := Swap(m, i, h);
    forall c ensures CountOk(m', pipes, c) {
      assert CountOk(m, pipes, c);
      SumSet(m.holders, i, h, c);
      assert Amount(m', c) == Amount(m, c);
    }
    SwappedHolders(m.holders, i, h);
    SamePagesFit(m, m');
  }

  /** A new holder with no claims. */
  lemma HoldKeeps(m: Mem, pipes: seq<Pipe>, h: Holder)
    requires MemInv(m, pipes) && HolderFits(m.holders + [h], |m.holders|)
    requires forall c :: Weight(h, c) == 0
    ensures MemInv(Hold(m, h), pipes)
  {
    var m' := Hold(m, h);
    forall c ensures CountOk(m', pipes, c) {
      assert CountOk(m, pipes, c);
      SumPush(m.holders, h, c);
      assert Amount(m', c) == Amount(m, c);
    }
    PushedHolders(m.holders, h);
    SamePagesFit(m, m');
  }

  lemma ListedExist(m: Mem, pipes: seq<Pipe>, i: nat, objs: seq<BoId>)
    requires MemInv(m, pipes) && i < |m.holders|
    requires forall b :: Weight(m.holders[i], OnBo(b)) == Times(objs, b)
    ensures forall b | b in objs :: b in m.bos
  {
    forall b | b in objs ensures b in m.bos {
      assert multiset(objs)[b] > 0;
      HeldBo(m, pipes, i, b);
    }
  }

  lemma JobInitFailsCount(m: Mem, pipes: seq<Pipe>, objs: seq<BoId>, c: Claim)
    requires CountOk(m, pipes, c) && forall b | b in objs :: b in m.bos
    ensures CountOk(Hold(GetBos(m, objs), Leaked(objs)), pipes, c)
  {
    SumPush(m.holders, Leaked(objs), c);
    AmountGetBos(m, objs, c);
    assert Amount(Hold(GetBos(m, objs), Leaked(objs)), c) == Amount(GetBos(m, objs), c);
  }

  /** lima_sched_task_init failing leaves one reference behind per listed buffer. */
  lemma JobInitFailsKeeps(m: Mem, pipes: seq<Pipe>, objs: seq<BoId>)
    requires MemInv(m, pipes) && forall b | b in objs :: b in m.bos
    ensures MemInv(Hold(GetBos(m, objs), Leaked(objs)), pipes)
  {
    var m1 := GetBos(m, objs);
    var m2 := Hold(m1, Leaked(objs));
    forall c ensures CountOk(m2, pipes, c) {
      assert CountOk(m, pipes, c);
      JobInitFailsCount(m, pipes, objs, c);
    }
    PushedHolders(m.holders, Leaked(objs));
    GetBosFits(m, objs);
    SamePagesFit(m1, m2);
  }

  // -- references on address spaces

  /** One reference on `v` more than its remaining holders claim: it is about to be put. */
  ghost predicate OwedOk(m: Mem, pipes: seq<Pipe>, v: VmId, c: Claim) {
    Amount(m, c) == Sum(m.holders, c) + PipeClaims(pipes, c) + Bit(c == OnVm(v))
  }

  ghost predicate Owed(m: Mem, pipes: seq<Pipe>, v: VmId) { forall c :: OwedOk(m, pipes, v, c) }

  lemma OwedPlain(m: Mem, pipes: seq<Pipe>, v: VmId)
    requires Owed(m, pipes, v)
    ensures CountsRanges(m) && CountsBuffers(m)
  {
    forall w, b ensures Amount(m, OnVa(w, b)) == Sum(m.holders, OnVa(w, b)) {
      assert OwedOk(m, pipes, v, OnVa(w, b));
    }
    forall b ensures Amount(m, OnBo(b)) == Sum(m.holders, OnBo(b)) {
      assert OwedOk(m, pipes, v, OnBo(b));
    }
  }

  /** lima_vm_put of that reference, whether or not it is the last. */
  lemma PutVmKeeps(m: Mem, pipes: seq<Pipe>, v: VmId)
    requires Owed(m, pipes, v) && HoldersFit(m.holders) && ViewsFit(m) && BosFit(m)
    ensures v in m.vms && MemInv(PutVm(m, v), pipes)
  {
    assert OwedOk(m, pipes, v, OnVm(v));
    if m.vms[v].refs == 1 {
      OwedPlain(m, pipes, v);
      assert ViewFits(m, v);
      ReleasedIsEmpty(m, v);
    }
    forall c ensures CountOk(PutVm(m, v), pipes, c) {
      assert OwedOk(m, pipes, v, c);
      AmountPutVm(m, v, c);
    }
    PutVmFits(m, v);
  }

  lemma GetVmKeeps(m: Mem, pipes: seq<Pipe>, v: VmId, pipes': seq<Pipe>)
    requires MemInv(m, pipes) && v in m.vms
    requires forall c :: PipeClaims(pipes', c) == PipeClaims(pipes, c) + Bit(c == OnVm(v))
    ensures MemInv(GetVm(m, v), pipes')
  {
    forall c ensures CountOk(GetVm(m, v), pipes', c) {
      assert CountOk(m, pipes, c);
      AmountGetVm(m, v, c);
    }
    GetVmFits(m, v);
  }

  lemma OpenFileKeeps(m: Mem, pipes: seq<Pipe>, v: VmId, reserved: Table)
    requires MemInv(m, pipes) && v !in m.vms
    ensures MemInv(Hold(WithVm(m, v, NewVm(reserved)), File(v)), pipes)
  {
    var m1 := WithVm(m, v, NewVm(reserved));
    var m2 := Hold(m1, File(v));
    forall c ensures CountOk(m2, pipes, c) {
      assert CountOk(m, pipes, c);
      SumPush(m.holders, File(v), c);
    }
    PushedHolders(m.holders, File(v));
    NewVmFits(m, v, reserved);
    SamePagesFitHolders(m1, m2);
  }

  lemma SamePagesFitHolders(m: Mem, m': Mem)
    requires ViewsFit(m) && m'.vms == m.vms && m'.bos == m.bos && m'.missed == m.missed
    ensures ViewsFit(m')
  {
    forall v, b {:trigger b in m.Vas(v)} | v in m.vms && b in m.Vas(v) ensures b in m'.bos {
      assert ViewFits(m, v) && RangeFits(m, v, b);
    }
    SamePagesFit(m, m');
  }

  lemma CloseFileKeeps(m: Mem, pipes: seq<Pipe>, i: nat)
    requires MemInv(m, pipes) && i < |m.holders| && m.holders[i].File?
    requires forall k | 0 <= k < |m.holders| :: !NeedsFile(m.holders[k], m.holders[i].vm)
    ensures m.holders[i].vm in m.vms && MemInv(PutVm(Swap(m, i, Gone), m.holders[i].vm), pipes)
  {
    var m1, v := Swap(m, i, Gone), m.holders[i].vm;
    forall c ensures OwedOk(m1, pipes, v, c) {
      assert CountOk(m, pipes, c);
      SumSet(m.holders, i, Gone, c);
      assert Amount(m1, c) == Amount(m, c);
    }
    SwappedHolders(m.holders, i, Gone);
    SamePagesFitHolders(m, m1);
    PutVmKeeps(m1, pipes, v);
  }

  lemma QueueKeeps(m: Mem, pipes: seq<Pipe>, i: nat, v: VmId, h: Holder)
    requires MemInv(m, pipes) && i < |m.holders| && m.holders[i].Submitting? && m.holders[i].vm == v
    requires h.Job? && h.vm == v && h.bos == m.holders[i].bos && (h.heap.Some? ==> h.heap.value in h.bos)
    ensures v in m.vms && MemInv(GetVm(Swap(m, i, h), v), pipes)
  {
    assert HolderFits(m.holders, i);
    OpenFileVm(m, pipes, v);
    var m1 := Swap(m, i, h);
    var m2 := GetVm(m1, v);
    forall c ensures CountOk(m2, pipes, c) {
      assert CountOk(m, pipes, c);
      SumSet(m.holders, i, h, c);
      AmountGetVm(m1, v, c);
      assert Amount(m1, c) == Amount(m, c);
    }
    SwappedHolders(m.holders, i, h);
    SamePagesFitHolders(m, m1);
    GetVmFits(m1, v);
  }

  // -- creating and freeing

  lemma CreateBoKeeps(m: Mem, pipes: seq<Pipe>, b: BoId, bo: Bo)
    requires MemInv(m, pipes) && b !in m.bos && !m.work.NamesBo(b)
    requires BoFits(bo) && bo.refs == 1 && bo.sgt == Lists(bo.populated)
    ensures MemInv(Hold(WithBo(m, b, bo), Creating(b)), pipes)
  {
    var m2 := Hold(WithBo(m, b, bo), Creating(b));
    forall c ensures CountOk(m2, pipes, c) {
      assert CountOk(m, pipes, c);
      SumPush(m.holders, Creating(b), c);
    }
    PushedHolders(m.holders, Creating(b));
    forall v | v in m2.vms ensures ViewFits(m2, v) {
      assert ViewFits(m, v);
      forall c | c in m2.Vas(v) ensures RangeFits(m2, v, c) {
        assert RangeFits(m, v, c);
      }
    }
    forall c | c in m2.bos ensures BoOk(m2.bos[c], StageOf(m2.work, c)) {
      assert c != b ==> BoOk(m.bos[c], StageOf(m.work, c));
    }
  }

  /** The creator's reference, or that of a user mapping or of a caller of lima_vm_bo_add, goes. */
  lemma DropRefKeeps(m: Mem, pipes: seq<Pipe>, i: nat, b: BoId)
    requires MemInv(m, pipes) && i < |m.holders|
    requires !m.holders[i].File? && forall c :: Weight(m.holders[i], c) == Bit(c == OnBo(b))
    ensures b in m.bos && MemInv(PutBos(Swap(m, i, Gone), [b]), pipes)
  {
    assert Weight(m.holders[i], OnBo(b)) > 0;
    HeldBo(m, pipes, i, b);
    var m1 := Swap(m, i, Gone);
    var m2 := PutBos(m1, [b]);
    forall c ensures CountOk(m2, pipes, c) {
      assert CountOk(m, pipes, c);
      SumSet(m.holders, i, Gone, c);
      assert Amount(m1, c) == Amount(m, c);
      AmountPutBos(m1, [b], c);
    }
    SwappedHolders(m.holders, i, Gone);
    SamePagesFitHolders(m, m1);
    SameBosFit(m, m1);
    PlainCounts(m2, pipes);
    PutBosFits(m1, [b]);
    PutBosFit(m1, [b]);
  }

  /** A user mapping, or a lookup, takes a reference. */
  lemma TakeRefKeeps(m: Mem, pipes: seq<Pipe>, b: BoId, h: Holder)
    requires MemInv(m, pipes) && b in m.bos && (h.Mapping? || (h.Opening? && FileOpen(m.holders, h.vm))) && h.bo == b
    ensures MemInv(Hold(GetBos(m, [b]), h), pipes)
  {
    var m1 := GetBos(m, [b]);
    var m2 := Hold(m1, h);
    forall c ensures CountOk(m2, pipes, c) {
      assert CountOk(m, pipes, c);
      SumPush(m.holders, h, c);
      AmountGetBos(m, [b], c);
      assert Amount(m2, c) == Amount(m1, c);
    }
    PushedHolders(m.holders, h);
    GetBosFits(m, [b]);
    SamePagesFit(m1, m2);
    SameBosFit(m1, m2);
  }

  lemma FreeOneCount(m: Mem, pipes: seq<Pipe>, i: nat, v: VmId, b: BoId, h: Holder, c: Claim)
    requires CountOk(m, pipes, c) && LiveVa(m, v, b) && m.Vas(v)[b].refs > 0
    requires i < |m.holders| && m.holders[i].Freeing? && m.holders[i].vm == v
    requires m.holders[i].bos != [] && b == m.holders[i].bos[0]
    requires h == Freeing(v, m.holders[i].bos[1..], m.holders[i].objs)
    ensures CountOk(DropVa(Swap(m, i, h), v, b), pipes, c)
  {
    var m1 := Swap(m, i, h);
    if c.OnVa? || c.OnBo? { TimesTail(m.holders[i].bos, c.b); }
    SumSet(m.holders, i, h, c);
    assert Amount(m1, c) == Amount(m, c);
    AmountDropVa(m1, v, b, c);
  }

  lemma FreeOneKeeps(m: Mem, pipes: seq<Pipe>, i: nat, v: VmId, b: BoId, h: Holder)
    requires MemInv(m, pipes) && i < |m.holders| && m.holders[i].Freeing? && m.holders[i].vm == v
    requires m.holders[i].bos != [] && b == m.holders[i].bos[0]
    requires h == Freeing(v, m.holders[i].bos[1..], m.holders[i].objs)
    ensures LiveVa(m, v, b) && MemInv(DropVa(Swap(m, i, h), v, b), pipes)
  {
    TimesTail(m.holders[i].bos, b);
    HeldVa(m, pipes, i, v, b);
    var m1 := Swap(m, i, h);
    forall c ensures CountOk(DropVa(m1, v, b), pipes, c) {
      FreeOneCount(m, pipes, i, v, b, h, c);
    }
    FreedRest(m.holders[i]);
    assert HolderFits(m.holders, i);
    SwappedHolders(m.holders, i, h);
    SamePagesFitHolders(m, m1);
    DropVaFits(m1, v, b);
  }

  lemma FreedRest(h: Holder)
    requires h.Freeing? && h.bos != []
    ensures multiset(h.bos[1..]) <= multiset(h.bos)
  {
    assert h.bos == [h.bos[0]] + h.bos[1..];
  }

  lemma EndFreeOwed(m: Mem, pipes: seq<Pipe>, i: nat, v: VmId, objs: seq<BoId>)
    requires MemInv(m, pipes) && i < |m.holders| && m.holders[i] == Freeing(v, [], objs)
    ensures Owed(PutBos(Swap(m, i, Gone), objs), pipes, v)
  {
    var m1 := Swap(m, i, Gone);
    forall c ensures OwedOk(PutBos(m1, objs), pipes, v, c) {
      assert CountOk(m, pipes, c);
      SumSet(m.holders, i, Gone, c);
      assert Amount(m1, c) == Amount(m, c);
      AmountPutBos(m1, objs, c);
    }
  }

  lemma EndFreeKeeps(m: Mem, pipes: seq<Pipe>, i: nat, v: VmId, objs: seq<BoId>)
    requires MemInv(m, pipes) && i < |m.holders| && m.holders[i] == Freeing(v, [], objs)
    ensures v in m.vms && forall b | b in objs :: b in m.bos
    ensures MemInv(PutVm(PutBos(Swap(m, i, Gone), objs), v), pipes)
  {
    ListedExist(m, pipes, i, objs);
    HeldVm(m, pipes, i, v);
    var m1 := Swap(m, i, Gone);
    EndFreeOwed(m, pipes, i, v, objs);
    OwedPlain(PutBos(m1, objs), pipes, v);
    SwappedHolders(m.holders, i, Gone);
    SamePagesFitHolders(m, m1);
    PutBosFits(m1, objs);
    PutBosFit(m1, objs);
    PutVmKeeps(PutBos(m1, objs), pipes, v);
  }

  // -- growth

  /** An address space changes, but none of its counters. */
  lemma SameUsers(m: Mem, pipes: seq<Pipe>, v: VmId, vm: Vm)
    requires Counted(m, pipes) && v in m.vms && vm.refs == m.vms[v].refs && vm.view.vas.Keys == m.Vas(v).Keys
    requires forall b | b in m.Vas(v) :: vm.view.vas[b].refs == m.Vas(v)[b].refs
    ensures Counted(WithVm(m, v, vm), pipes)
  {
    var m' := WithVm(m, v, vm);
    forall c ensures CountOk(m', pipes, c) {
      assert CountOk(m, pipes, c);
      assert c.OnVa? && c.v == v ==> (c.b in vm.view.vas <==> c.b in m.Vas(v));
    }
  }

  /** Only the recovery work itself changes. */
  lemma WorkKeeps(m: Mem, pipes: seq<Pipe>, w: Work)
    requires MemInv(m, pipes) && forall b | b in m.bos :: BoOk(m.bos[b], StageOf(w, b))
    ensures MemInv(WithWork(m, w), pipes)
  {
    SameAmounts(m, WithWork(m, w), pipes);
    SamePagesFitHolders(m, WithWork(m, w));
  }

  /** The stage moves, where the table is as the new stage has it. */
  lemma StageKeeps(m: Mem, pipes: seq<Pipe>, stage: Stage)
    requires MemInv(m, pipes) && (m.work.b in m.bos ==> BoOk(m.bos[m.work.b], stage))
    ensures MemInv(AtStage(m, stage), pipes)
  {
    var w := Work(m.work.pending, m.work.job, m.work.v, m.work.b, stage);
    forall b | b in m.bos ensures BoOk(m.bos[b], StageOf(w, b)) {
      assert BoOk(m.bos[b], StageOf(m.work, b));
    }
    WorkKeeps(m, pipes, w);
  }

  /** The table of the heap being grown changes, and the stage with it. */
  lemma RetabledKeeps(m: Mem, pipes: seq<Pipe>, sg: Sg, stage: Stage)
    requires MemInv(m, pipes) && m.work.b in m.bos && BoOk(m.bos[m.work.b].WithSgt(sg), stage)
    ensures MemInv(Retabled(m, sg, stage), pipes)
  {
    var m' := Retabled(m, sg, stage);
    SameAmounts(m, m', pipes);
    MappedExist(m);
    SamePagesFit(m, m');
    forall b | b in m'.bos ensures BoOk(m'.bos[b], StageOf(m'.work, b)) {
      assert BoOk(m.bos[b], StageOf(m.work, b));
    }
  }

  /** The buffers with ranges exist. */
  lemma MappedExist(m: Mem)
    requires ViewsFit(m)
    ensures forall v, b {:trigger b in m.Vas(v)} | v in m.vms && b in m.Vas(v) :: b in m.bos
  {
    forall v, b {:trigger b in m.Vas(v)} | v in m.vms && b in m.Vas(v) ensures b in m.bos {
      assert ViewFits(m, v) && RangeFits(m, v, b);
    }
  }

  lemma InstallKeeps(m: Mem, pipes: seq<Pipe>)
    requires MemInv(m, pipes) && m.work.stage.Swapped? && LiveVa(m, m.work.v, m.work.b)
    ensures MemInv(AtStage(MapMore(m), Installed), pipes)
  {
    assert BoOk(m.bos[m.work.b], StageOf(m.work, m.work.b));
    MapMoreFits(m);
    SameUsers(m, pipes, m.work.v, MapMore(m).vms[m.work.v]);
    SameBosFit(m, MapMore(m));
    StageKeeps(MapMore(m), pipes, Installed);
  }

  lemma InstallFailsKeeps(m: Mem, pipes: seq<Pipe>, done: nat, slots: set<nat>)
    requires MemInv(m, pipes) && m.work.stage.Swapped? && m.work.v in m.vms && m.work.b in m.bos
    requires CanFail(m) && done <= |m.bos[m.work.b].More()|
    ensures MemInv(AtStage(MapUndone(m, done, slots), Failed), pipes)
  {
    assert BoOk(m.bos[m.work.b], StageOf(m.work, m.work.b));
    MapUndoneFits(m, done, slots);
    if m.work.b in m.Vas(m.work.v) {
      SameUsers(m, pipes, m.work.v, MapUndone(m, done, slots).vms[m.work.v]);
    }
    SameBosFit(m, MapUndone(m, done, slots));
    StageKeeps(MapUndone(m, done, slots), pipes, Failed);
  }

  lemma StoreKeeps(m: Mem, pipes: seq<Pipe>)
    requires MemInv(m, pipes) && m.work.stage.Installed? && m.work.b in m.bos
    ensures MemInv(AtStage(Grown(m), Stored), pipes)
  {
    var m' := AtStage(Grown(m), Stored);
    assert BoOk(m.bos[m.work.b], StageOf(m.work, m.work.b));
    GrownFits(m);
    SameAmounts(m, m', pipes);
    MappedExist(Grown(m));
    SamePagesFit(Grown(m), m');
    forall b | b in m'.bos ensures BoOk(m'.bos[b], StageOf(m'.work, b)) {
      assert BoOk(m.bos[b], StageOf(m.work, b));
    }
  }

  /** Every step of a growth keeps the invariant of the memory side. */
  lemma GrowthKeeps(m: Mem, pipes: seq<Pipe>, g: GrowStep)
    requires MemInv(m, pipes) && GrowEnabled(m, g) && GrowDefined(m, g)
    ensures MemInv(GrowNext(m, g), pipes)
  {
    assert BoOk(m.bos[m.work.b], StageOf(m.work, m.work.b));
    match g
    case GiveUp => StageKeeps(m, pipes, Idle);
    case DropTable(ok) =>
      if m.bos[m.work.b].sgt.Lists? {
        RetabledKeeps(m, pipes, Lists(0), Dropped);
      } else if ok {
        RetabledKeeps(m, pipes, Raw, Dropped);
      } else {
        StageKeeps(m, pipes, Idle);
      }
    case DmaFails => StageKeeps(m, pipes, Failed);
    case SwapTable => RetabledKeeps(m, pipes, Lists(m.bos[m.work.b].Next()), Swapped);
    case InstallPages => InstallKeeps(m, pipes);
    case InstallFails(done, slots) => InstallFailsKeeps(m, pipes, done, slots);
    case StoreSize => StoreKeeps(m, pipes);
    case FreeTable => RetabledKeeps(m, pipes, Raw, Failing);
    case ClearTable => RetabledKeeps(m, pipes, Absent, Idle);
    case EndRecover => StageKeeps(m, pipes, Idle);
  }
}
