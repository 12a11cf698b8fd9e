/**
 The growable tile heap (lima_heap_alloc in lima_gem.c): it is created with a few populated pages and
 doubles, up to the buffer's size, each time the GP runs out.  Any number of calls may be made, and any
 of them may fail anywhere.
 */
module HeapBo {
  import opened Wrappers
  import opened Geometry
  import opened HeapSize
  import opened VmSpec
  import opened LimaVm

  type Failure = e: Errno | e != Ok witness EIO

  /** Outcomes of the outside calls of lima_heap_alloc.  `badPage` is a page that cannot be read. */
  datatype HeapAnswers = HeapAnswers(backed: bool, pageArray: bool, badPage: Option<nat>, readError: Failure,
                               table: Errno, header: bool, dmaMap: Errno)

  // ----- the pages each call has read

  /** The pages one call has read in, and whether it succeeded. */
  datatype Span = Span(from: nat, to: nat, grown: bool) {
    predicate Has(k: nat) { from <= k < to }
  }

  /** How many calls have read page `k`. */
  function Reads(spans: seq<Span>, k: nat): nat {
    if spans == [] then 0 else Reads(spans[..|spans| - 1], k) + Bit(spans[|spans| - 1].Has(k))
  }

  /** How many calls have succeeded. */
  function Successes(spans: seq<Span>): nat {
    if spans == [] then 0 else Successes(spans[..|spans| - 1]) + Bit(spans[|spans| - 1].grown)
  }

  /** Every call starts where the populated part ends, so behind all that succeeded before it. */
  ghost predicate SpansOk(spans: seq<Span>, populated: nat) {
    && (forall i | 0 <= i < |spans| :: spans[i].from <= populated && (spans[i].grown ==> spans[i].to <= populated))
    && (forall i, j | 0 <= i < j < |spans| :: spans[i].grown ==> spans[i].to <= spans[j].from)
  }

  /** The spans of some calls, as their results tell. */
  predicate Tells(done: seq<Span>, errs: seq<Errno>) {
    |done| == |errs| && forall i | 0 <= i < |errs| :: done[i].grown <==> errs[i] == Ok
  }

  predicate LastIsOk(errs: seq<Errno>) { errs != [] && errs[|errs| - 1] == Ok }

  lemma TellsMore(start: seq<Span>, done: seq<Span>, errs: seq<Errno>, span: Span, err: Errno)
    requires Tells(done, errs) && (span.grown <==> err == Ok)
    ensures Tells(done + [span], errs + [err]) && (start + done) + [span] == start + (done + [span])
    ensures LastIsOk(errs + [err]) <==> err == Ok
  {}

  /** Some call has read a page and failed, and a later one has read the page again. */
  ghost predicate Retried(spans: seq<Span>) {
    exists i, j, k :: 0 <= i < j < |spans| && !spans[i].grown && spans[i].Has(k) && spans[j].Has(k)
  }

  lemma SpanAdded(spans: seq<Span>, populated: nat, to: nat, grown: bool, populated': nat)
    requires SpansOk(spans, populated) && populated' == if grown then to else populated
    requires populated <= to
    ensures SpansOk(spans + [Span(populated, to, grown)], populated')
    ensures Successes(spans + [Span(populated, to, grown)]) == Successes(spans) + Bit(grown)
    ensures forall k: nat ::
              Reads(spans + [Span(populated, to, grown)], k) == Reads(spans, k) + Bit(populated <= k < to)
  {
    assert (spans + [Span(populated, to, grown)])[..|spans|] == spans;
  }

  lemma {:induction false} ReadBySome(spans: seq<Span>, k: nat) returns (i: nat)
    requires Reads(spans, k) > 0
    ensures i < |spans| && spans[i].Has(k)
  {
    i := |spans| - 1;
    if !spans[i].Has(k) {
      i := ReadBySome(spans[..i], k);
    }
  }

  lemma {:induction false} ReadAtLeast(spans: seq<Span>, i: nat, j: nat, k: nat)
    requires i <= j < |spans| && spans[i].Has(k) && spans[j].Has(k)
    ensures Reads(spans, k) >= if i < j then 2 else 1
  {
    var n := |spans| - 1;
    if j < n {
      ReadAtLeast(spans[..n], i, j, k);
    } else if i < n {
      ReadAtLeast(spans[..n], i, i, k);
    }
  }

  lemma {:induction false} ReadOnceIff(spans: seq<Span>, populated: nat, k: nat)
    requires SpansOk(spans, populated) && Reads(spans, k) > 1
    ensures exists i, j :: 0 <= i < j < |spans| && !spans[i].grown && spans[i].Has(k) && spans[j].Has(k)
  {
    var n := |spans| - 1;
    if spans[n].Has(k) {
      var i := ReadBySome(spans[..n], k);
      assert spans[..n][i] == spans[i];
      assert i < n && !spans[i].grown && spans[i].Has(k) && spans[n].Has(k);
    } else {
      ReadOnceIff(spans[..n], populated, k);
      var i, j :| 0 <= i < j < |spans[..n]| && !spans[..n][i].grown && spans[..n][i].Has(k) && spans[..n][j].Has(k);
      assert spans[..n][i] == spans[i] && spans[..n][j] == spans[j];
    }
  }

  /** No page has been read twice if and only if no call that failed after reading was followed by a retry. */
  lemma ReadOnceUnlessRetried(spans: seq<Span>, populated: nat)
    requires SpansOk(spans, populated)
    ensures (forall k: nat :: Reads(spans, k) <= 1) <==> !Retried(spans)
  {
    if Retried(spans) {
      var i, j, k :| 0 <= i < j < |spans| && !spans[i].grown && spans[i].Has(k) && spans[j].Has(k);
      ReadAtLeast(spans, i, j, k);
    } else {
      forall k: nat ensures Reads(spans, k) <= 1 {
        if Reads(spans, k) > 1 {
          ReadOnceIff(spans, populated, k);
        }
      }
    }
  }

  // ----- the heap's range in an address space

  /** The GPU page `n` pages into a range. */
  function Past(start: nat, n: nat): nat { start + n }

  /**
   A range of a heap: as large as the buffer; past the populated part nothing is installed, or just the
   pages of the next growth.
   */
  ghost predicate HeapRange(w: View, b: BoId, backing: seq<nat>, populated: nat, next: nat)
    requires populated <= next <= |backing|
  {
    b in w.vas ==>
      && w.vas[b].size == |backing|
      && (forall p | p in w.vas[b].pages :: p < w.vas[b].start + next)
      && ((forall p | p in w.vas[b].pages :: p < Past(w.vas[b].start, populated)) ||
          Holds(w.vas[b].pages, Range(Past(w.vas[b].start, populated), backing[populated..next])))
  }

  /** The translations of the pages from `from` up to `to`, in the range of `b`. */
  function Added(w: View, b: BoId, backing: seq<nat>, from: nat, to: nat): Table
    requires from <= to <= |backing|
  {
    if b in w.vas then Range(Past(w.vas[b].start, from), backing[from..to]) else map[]
  }

  /** The address space after mapping them has failed at page `undone`. */
  function Undone(w: View, b: BoId, from: nat, undone: nat): View {
    if b in w.vas then View(Cut(w.table, Past(w.vas[b].start, from), undone), w.vas, w.reserved) else w
  }

  /** The populated pages are mapped one after the other, from GPU page `first` on. */
  ghost predicate Covered(table: Table, first: nat, pages: seq<nat>) { Holds(table, Range(first, pages)) }

  /** A heap that was mapped from some page on still is. */
  predicate StillMapped(before: Option<nat>, after: Option<nat>) { before.Some? ==> after == before }

  lemma CoveredGrows(table: Table, first: nat, backing: seq<nat>, from: nat, to: nat, next: nat)
    requires from <= to <= |backing| && next == first + from && Covered(table, first, backing[..from])
    ensures Covered(table + Range(next, backing[from..to]), first, backing[..to])
  {
    var table' := table + Range(next, backing[from..to]);
    forall p | p in Range(first, backing[..to]) ensures p in table' && table'[p] == backing[p - first] {
      if p < next {
        assert Between(first, p, from);
        assert p in Range(first, backing[..from]);
      } else {
        assert Between(next, p, to - from);
      }
    }
  }

  lemma CoveredCut(table: Table, first: nat, pages: seq<nat>, next: nat, n: nat)
    requires Covered(table, first, pages) && next >= first + |pages|
    ensures Covered(Cut(table, next, n), first, pages)
  {
    forall p | p in Range(first, pages) ensures p < next && p in table && table[p] == pages[p - first] {
      assert Between(first, p, |pages|);
    }
  }

  /** Growing a heap keeps its range one of a heap, and a mapped prefix mapped. */
  lemma HeapRangeGrows(w: View, b: BoId, backing: seq<nat>, from: nat, to: nat, next: nat, first: nat)
    requires from <= to <= |backing| && to <= next <= |backing|
    requires b in w.vas && HeapRange(w, b, backing, from, to) && first == Past(w.vas[b].start, from)
    ensures HeapRange(Extend(w, b, Added(w, b, backing, from, to)), b, backing, to, next)
    ensures Covered(w.table, w.vas[b].start, backing[..from]) ==>
              Covered(Extend(w, b, Added(w, b, backing, from, to)).table, w.vas[b].start, backing[..to])
  {
    var w' := Extend(w, b, Range(first, backing[from..to]));
    forall p | p in w'.vas[b].pages ensures p < Past(w'.vas[b].start, to) {
      if p !in w.vas[b].pages { assert Between(first, p, to - from); }
    }
    if Covered(w.table, w.vas[b].start, backing[..from]) {
      CoveredGrows(w.table, w.vas[b].start, backing, from, to, first);
    }
  }

  /** Where the read loop over the pages from `from` to `to` ends. */
  function Stop(from: nat, to: nat, badPage: Option<nat>): nat {
    if badPage.Some? && from <= badPage.value < to then badPage.value else to
  }

  class Heap {
    const backing: seq<nat>                  // the DMA address of each page of the object
    const init: nat                          // lima_heap_init_nr_pages
    var populated: nat                       // heap_size, in pages
    var pages: array?<Option<nat>>           // base.pages; None is a NULL entry
    var useCount: nat                        // base.pages_use_count
    var sgt: Option<seq<nat>>                // base.sgt: the pages it lists, mapped for DMA
    ghost var wires: seq<nat>                // how often each page has been read in, and so wired
    ghost var spans: seq<Span>               // one for each call so far

    ghost predicate PageOk(i: nat)
      requires pages != null && i < pages.Length == |backing| == |wires|
      reads `populated, `pages, `wires, pages
    {
      && (pages[i].Some? ==> pages[i].value == backing[i])
      && (pages[i].Some? <==> wires[i] > 0)
      && (i < populated ==> pages[i].Some?)
    }

    ghost predicate Basic()
      reads `populated, `pages, `useCount, `sgt, `wires, pages
    {
      && |wires| == |backing| && populated <= |backing|
      && (forall i | 0 <= i < |backing| :: backing[i] % PAGE_SIZE == 0)
      && (pages == null ==> populated == 0 && useCount == 0 && forall i | 0 <= i < |backing| :: wires[i] == 0)
      && (pages != null ==> pages.Length == |backing| && useCount == 1 && forall i | 0 <= i < |backing| :: PageOk(i))
      && (sgt.Some? ==> sgt.value == backing[..populated])
    }

    /** What the calls so far come to: each page's wires, and the size. */
    ghost predicate History()
      reads `populated, `wires, `spans
    {
      && |wires| == |backing| && (forall k | 0 <= k < |backing| :: wires[k] == Reads(spans, k))
      && SpansOk(spans, populated) && (forall i | 0 <= i < |spans| :: spans[i].to <= |backing|)
      && populated == SizeAfter(Successes(spans), init, |backing|)
    }

    ghost predicate Valid()
      reads this, pages
    {
      Basic() && History()
    }

    constructor (backing: seq<nat>, init: nat)
      requires forall i | 0 <= i < |backing| :: backing[i] % PAGE_SIZE == 0
      ensures Valid() && this.backing == backing && this.init == init && populated == 0 && pages == null && sgt == None
      ensures spans == []
    {
      this.backing := backing;
      this.init := init;
      populated, pages, useCount, sgt := 0, null, 0, None;
      wires := seq(|backing|, _ => 0);
      spans := [];
    }

    /** The size a call asks for. */
    ghost function Next(): (r: nat)
      requires populated <= |backing|
      reads `populated
      ensures populated <= r <= |backing|
    {
      NextSize(populated, init, |backing|)
    }

    /** base.pages is allocated, all NULL, on the first call; the heap holds one use of it. */
    method EnsureArray(ok: bool) returns (err: Errno)
      requires Basic()
      modifies `pages, `useCount
      ensures Basic()
      ensures err == if old(pages) != null || ok then Ok else ENOMEM
      ensures old(pages) != null ==> pages == old(pages)
      ensures old(pages) == null && err == Ok ==> pages != null && fresh(pages)
      ensures err != Ok ==> pages == null
    {
      if pages == null {
        if !ok {
          return ENOMEM;
        }
        pages := new Option<nat>[|backing|](_ => None);
        useCount := 1;
      }
      err := Ok;
    }

    /** `pages[i] = shmem_read_mapping_page(...)`: the page comes back wired once more. */
    method ReadPage(i: nat)
      requires Basic() && pages != null && i < |backing|
      modifies pages, `wires
      ensures Basic() && pages[..] == old(pages[..])[i := Some(backing[i])]
      ensures wires == old(wires)[i := old(wires)[i] + 1]
    {
      assert forall k | 0 <= k < |backing| :: PageOk(k);
      pages[i] := Some(backing[i]);
      wires := wires[i := wires[i] + 1];
      forall k | 0 <= k < |backing| ensures PageOk(k) {
        assert old(PageOk(k));
      }
    }

    /** The read loop.  A failure leaves the pages before it in place, and wired. */
    method ReadPages(from: nat, to: nat, badPage: Option<nat>, readError: Failure) returns (err: Errno)
      requires Basic() && pages != null && from == populated <= to <= |backing|
      modifies pages, `wires
      ensures Basic()
      ensures err == if badPage.Some? && from <= badPage.value < to then readError else Ok
      ensures err == Ok ==> forall k | 0 <= k < to :: pages[k] == Some(backing[k])
      ensures WiredOnceMore(from, Stop(from, to, badPage))
      ensures forall k | 0 <= k < |wires| && (k < from || k >= to) :: wires[k] == old(wires)[k]
      ensures badPage.Some? && from <= badPage.value < to ==>
                forall k | badPage.value <= k < |wires| :: wires[k] == old(wires)[k]
      ensures forall k | from <= k < to && (badPage.Some? && from <= badPage.value ==> k < badPage.value) ::
                wires[k] == old(wires)[k] + 1 && pages[k] == Some(backing[k])
    {
      forall k | 0 <= k < from ensures pages[k] == Some(backing[k]) {
        assert PageOk(k);
      }
      ghost var before := wires;
      var i := from;
      while i < to
        invariant from <= i <= to && Basic()
        invariant badPage.Some? && from <= badPage.value ==> i <= badPage.value
        invariant forall k | 0 <= k < i :: pages[k] == Some(backing[k])
        invariant |before| == |wires|
        invariant forall k | 0 <= k < |backing| :: wires[k] == before[k] + if from <= k < i then 1 else 0
      {
        if badPage == Some(i) {
          return readError;
        }
        ReadPage(i);
        i := i + 1;
      }
      err := Ok;
    }

    ghost predicate RangeFor(vm: LimaVm, b: BoId)
      requires vm.Valid() && populated <= |backing|
      reads `populated, vm, vm.pd, vm.words, vm.present, vm.btDma
    {
      HeapRange(vm.Abs(), b, backing, populated, Next())
    }

    /** The GPU page from which on all of the populated part is mapped in `vm`, in the heap's range. */
    ghost function MappedIn(vm: LimaVm, b: BoId): (first: Option<nat>)
      requires vm.Valid() && populated <= |backing|
      reads `populated, vm, vm.pd, vm.words, vm.present, vm.btDma
    {
      if b in vm.Abs().vas && Covered(vm.Abs().table, vm.Abs().vas[b].start, backing[..populated])
      then Some(vm.Abs().vas[b].start) else None
    }

    /** The error lima_heap_alloc returns before it touches the sg table, or Ok. */
    ghost function EarlyError(a: HeapAnswers): Errno
      requires populated <= |backing|
      reads `populated, `pages
    {
      if populated >= |backing| then ENOSPC
      else if !a.backed then EINVAL
      else if pages == null && !a.pageArray then ENOMEM
      else if a.badPage.Some? && populated <= a.badPage.value < Next() then a.readError
      else a.table
    }

    /** The first page a call does not read in. */
    ghost function ReadTo(a: HeapAnswers): (r: nat)
      requires populated <= |backing|
      reads `populated, `pages
      ensures populated <= r <= |backing|
    {
      if populated >= |backing| || !a.backed || (pages == null && !a.pageArray) then populated
      else Stop(populated, Next(), a.badPage)
    }

    /** Each page a call reads in is wired once more. */
    twostate predicate WiredOnceMore(from: nat, to: nat)
      reads `wires
    {
      && |wires| == |old(wires)|
      && forall k | 0 <= k < |wires| :: wires[k] == old(wires)[k] + if from <= k < to then 1 else 0
    }

    /** The part of lima_heap_alloc up to sg_alloc_table_from_pages. */
    method Populate(a: HeapAnswers) returns (err: Errno, next: nat)
      requires Basic()
      modifies `pages, `useCount, `wires, pages
      ensures Basic()
      ensures err == old(EarlyError(a)) && next == Next()
      ensures old(populated) >= |backing| ==> err == ENOSPC
      ensures old(populated) < |backing| && !a.backed ==> err == EINVAL
      ensures old(populated) < |backing| && a.backed && old(pages) == null && !a.pageArray ==> err == ENOMEM
      ensures old(pages != null || a.pageArray) && a.backed && a.badPage.Some? ==>
                (old(populated <= a.badPage.value < Next()) ==> err == a.readError)
      ensures err == Ok ==>
                populated < |backing| && pages != null && forall i | 0 <= i < next :: pages[i] == Some(backing[i])
      ensures pages == old(pages) || fresh(pages)
      ensures WiredOnceMore(populated, old(ReadTo(a)))
    {
      next := NextSize(populated, init, |backing|);
      if populated >= |backing| {
        return ENOSPC, next;
      }
      if !a.backed {
        return EINVAL, next;
      }
      err := EnsureArray(a.pageArray);
      if err != Ok {
        return;
      }
      err := ReadPages(populated, next, a.badPage, a.readError);
      if err == Ok {
        err := a.table;
      }
    }

    lemma ReadyToMap(vm: LimaVm, b: BoId, next: nat)
      requires Basic() && vm.Valid() && RangeFor(vm, b) && next == Next() && b in vm.vas
      ensures populated + |backing[populated..next]| <= vm.vas[b].size / PAGE_SIZE
      ensures vm.PageOf(b, populated) == Past(vm.Abs().vas[b].start, populated)
      ensures vm.Ready(b, vm.PageOf(b, populated), backing[populated..next])
    {
      assert vm.Abs().vas[b] == vm.NodeOf(b);
    }

    /** Every page from the populated part up to `next` can be mapped in `vm`, which has a range for the heap. */
    ghost predicate Fits(vm: LimaVm, b: BoId, next: nat, alloc: Answers)
      requires vm.Valid() && populated <= next <= |backing|
      requires b in vm.vas ==> vm.PageOf(b, populated) + |backing[populated..next]| <= PAGE_COUNT
      reads `populated, vm, vm.pd, vm.words, vm.present, vm.btDma
    {
      b in vm.vas && vm.AllMappable(vm.PageOf(b, populated), backing[populated..next], alloc)
    }

    /** What follows in lima_heap_alloc once the pages are there: the sg table and the GPU mapping. */
    method Install(a: HeapAnswers, next: nat, vm: LimaVm, b: BoId, alloc: Answers)
      returns (err: Errno, ghost undone: nat)
      requires Basic() && pages != null && next == Next()
      requires forall i | 0 <= i < next :: pages[i] == Some(backing[i])
      requires vm.Valid() && vm.AllocOk(alloc) && RangeFor(vm, b)
      requires b in vm.vas ==> vm.PageOf(b, populated) + |backing[populated..next]| <= PAGE_COUNT
      modifies `populated, `sgt, vm, vm.pd, vm.words, vm.present, vm.btDma
      ensures Basic() && vm.Valid() && vm.AllocOk(alloc) && (old(vm.Exact()) ==> vm.Exact())
      ensures err == Ok <==> (old(sgt).Some? || a.header) && a.dmaMap == Ok && old(Fits(vm, b, next, alloc))
      ensures old(sgt).None? && !a.header ==> err == ENOMEM
      ensures (old(sgt).Some? || a.header) && a.dmaMap != Ok ==> err == a.dmaMap
      ensures populated == if err == Ok then next else old(populated)
      ensures sgt == if err == Ok then Some(backing[..next]) else None
      ensures err == Ok ==>
                && b in old(vm.vas)
                && vm.Abs() == Extend(old(vm.Abs()), b, Added(old(vm.Abs()), b, backing, old(populated), next))
      ensures err != Ok ==> vm.Abs() == old(vm.Abs()) || vm.Abs() == Undone(old(vm.Abs()), b, populated, undone)
      ensures err != Ok && old(vm.Exact()) ==> vm.Abs() == old(vm.Abs())
    {
      undone := 0;
      if sgt.None? && !a.header {
        return ENOMEM, 0;
      }
      if a.dmaMap != Ok {
        sgt := None;
        return a.dmaMap, 0;
      }
      if b in vm.vas { ReadyToMap(vm, b, next); }
      err, undone := vm.MapBo(b, populated, backing[populated..next], alloc);
      Settle(err, next);
    }

    /** The end of lima_heap_alloc: the new sg table and size are kept, or the table is freed. */
    method Settle(err: Errno, next: nat)
      requires Basic() && pages != null && populated <= next <= |backing|
      requires forall i | 0 <= i < next :: pages[i] == Some(backing[i])
      modifies `populated, `sgt
      ensures Basic() && populated == if err == Ok then next else old(populated)
      ensures sgt == if err == Ok then Some(backing[..next]) else None
    {
      if err != Ok {
        sgt := None;
        return;
      }
      sgt := Some(backing[..next]);
      populated := next;
      forall i | 0 <= i < |backing| ensures PageOk(i) {
        assert old(PageOk(i));
      }
    }

    /** The same when there is no address space yet, at creation. */
    method InstallUnmapped(a: HeapAnswers, next: nat) returns (err: Errno)
      requires Basic() && pages != null && populated <= next <= |backing|
      requires forall i | 0 <= i < next :: pages[i] == Some(backing[i])
      modifies `populated, `sgt
      ensures Basic() && err == if old(sgt).None? && !a.header then ENOMEM else a.dmaMap
      ensures populated == if err == Ok then next else old(populated)
      ensures sgt == if err == Ok then Some(backing[..next]) else None
    {
      if sgt.None? && !a.header {
        return ENOMEM;
      }
      Settle(a.dmaMap, next);
      err := a.dmaMap;
    }

    /** A call is over: it read the pages from `from` to `to`. */
    ghost method Record(from: nat, to: nat, grown: bool)
      requires |wires| == |backing| && SpansOk(spans, from) && from == SizeAfter(Successes(spans), init, |backing|)
      requires forall i | 0 <= i < |spans| :: spans[i].to <= |backing|
      requires from <= to <= |backing| && populated == if grown then to else from
      requires grown ==> to == NextSize(from, init, |backing|)
      requires forall k | 0 <= k < |backing| :: wires[k] == Reads(spans, k) + if from <= k < to then 1 else 0
      modifies `spans
      ensures History() && spans == old(spans) + [Span(from, to, grown)]
    {
      SpanAdded(spans, from, to, grown, populated);
      spans := spans + [Span(from, to, grown)];
    }

    /** The range leaves room for every page of the heap. */
    lemma RangeFits(vm: LimaVm, b: BoId)
      requires vm.Valid() && populated <= |backing| && RangeFor(vm, b)
      ensures b in vm.vas ==> vm.PageOf(b, populated) + |backing[populated..Next()]| <= PAGE_COUNT
    {
      if b in vm.vas {
        assert vm.Abs().vas[b] == vm.NodeOf(b) && vm.Abs().vas[b].Sane();
      }
    }

    /** There is a range, and every page of the next growth can be mapped in it. */
    ghost predicate Growable(vm: LimaVm, b: BoId, alloc: Answers)
      requires vm.Valid() && populated <= |backing| && RangeFor(vm, b)
      reads `populated, vm, vm.pd, vm.words, vm.present, vm.btDma
    {
      RangeFits(vm, b);
      Fits(vm, b, Next(), alloc)
    }

    /** The range stays one of the heap, and what was covered is. */
    lemma RangeKept(w: View, w': View, b: BoId, used: nat, grown: bool, undone: nat)
      requires used <= |backing| && populated <= |backing|
      requires HeapRange(w, b, backing, used, NextSize(used, init, |backing|))
      requires populated == if grown then NextSize(used, init, |backing|) else used
      requires grown ==> b in w.vas && w' == Extend(w, b, Added(w, b, backing, used, populated))
      requires !grown ==> w' == w || w' == Undone(w, b, used, undone)
      ensures HeapRange(w', b, backing, populated, Next())
      ensures b in w.vas ==> b in w'.vas && w'.vas[b].start == w.vas[b].start
      ensures b in w.vas && Covered(w.table, w.vas[b].start, backing[..used]) ==>
                Covered(w'.table, w'.vas[b].start, backing[..populated])
    {
      if grown {
        HeapRangeGrows(w, b, backing, used, populated, Next(), Past(w.vas[b].start, used));
      } else if b in w.vas && Covered(w.table, w.vas[b].start, backing[..used]) {
        CoveredCut(w.table, w.vas[b].start, backing[..used], Past(w.vas[b].start, used), undone);
      }
    }

    /** The second half of a call, as it looks from the heap's range. */
    method GrowInto(a: HeapAnswers, next: nat, vm: LimaVm, b: BoId, alloc: Answers) returns (err: Errno)
      requires Basic() && pages != null && next == Next() && vm.Valid() && vm.AllocOk(alloc) && RangeFor(vm, b)
      requires forall i | 0 <= i < next :: pages[i] == Some(backing[i])
      modifies `populated, `sgt, vm, vm.pd, vm.words, vm.present, vm.btDma
      ensures Basic() && vm.Valid() && vm.AllocOk(alloc) && (old(vm.Exact()) ==> vm.Exact())
      ensures err == Ok <==> (old(sgt).Some? || a.header) && a.dmaMap == Ok && old(Growable(vm, b, alloc))
      ensures populated == if err == Ok then next else old(populated)
      ensures sgt == if err == Ok then Some(backing[..next]) else None
      ensures err == Ok ==>
                && b in old(vm.vas)
                && vm.Abs() == Extend(old(vm.Abs()), b, Added(old(vm.Abs()), b, backing, old(populated), populated))
      ensures err != Ok && old(vm.Exact()) ==> vm.Abs() == old(vm.Abs())
      ensures RangeFor(vm, b) && StillMapped(old(MappedIn(vm, b)), MappedIn(vm, b))
    {
      ghost var before, used := vm.Abs(), populated;
      ghost var undone;
      RangeFits(vm, b);
      err, undone := Install(a, next, vm, b, alloc);
      RangeKept(before, vm.Abs(), b, used, err == Ok, undone);
    }

    /** Both halves of a call. */
    method AllocAndMap(a: HeapAnswers, vm: LimaVm, b: BoId, alloc: Answers) returns (err: Errno)
      requires Basic() && vm.Valid() && vm.AllocOk(alloc) && RangeFor(vm, b)
      modifies `populated, `pages, `useCount, `sgt, `wires, pages, vm, vm.pd, vm.words, vm.present, vm.btDma
      ensures Basic() && vm.Valid() && vm.AllocOk(alloc) && (old(vm.Exact()) ==> vm.Exact())
      ensures pages == old(pages) || fresh(pages)
      ensures old(EarlyError(a)) != Ok ==> err == old(EarlyError(a)) && sgt == old(sgt)
      ensures old(EarlyError(a)) == Ok ==>
                (err == Ok <==> (old(sgt).Some? || a.header) && a.dmaMap == Ok && old(Growable(vm, b, alloc)))
      ensures old(EarlyError(a)) == Ok && err != Ok ==> sgt == None
      ensures populated == if err == Ok then old(Next()) else old(populated)
      ensures err == Ok ==>
                old(populated) < |backing| && sgt == Some(backing[..populated]) && old(ReadTo(a)) == populated
      ensures WiredOnceMore(old(populated), old(ReadTo(a)))
      ensures err == Ok ==>
                && b in old(vm.vas)
                && vm.Abs() == Extend(old(vm.Abs()), b, Added(old(vm.Abs()), b, backing, old(populated), populated))
      ensures err != Ok && old(vm.Exact()) ==> vm.Abs() == old(vm.Abs())
      ensures RangeFor(vm, b) && StillMapped(old(MappedIn(vm, b)), MappedIn(vm, b))
    {
      var next;
      err, next := Populate(a);
      if err == Ok {
        err := GrowInto(a, next, vm, b, alloc);
      }
    }

    /** The same, and nothing else notices. */
    ghost method RecordCall(from: nat, to: nat, grown: bool, vm: LimaVm, b: BoId, alloc: Answers)
      requires |wires| == |backing| && SpansOk(spans, from) && from == SizeAfter(Successes(spans), init, |backing|)
      requires forall i | 0 <= i < |spans| :: spans[i].to <= |backing|
      requires from <= to <= |backing| && populated == if grown then to else from
      requires grown ==> to == NextSize(from, init, |backing|)
      requires forall k | 0 <= k < |backing| :: wires[k] == Reads(spans, k) + if from <= k < to then 1 else 0
      requires Basic() && vm.Valid() && vm.AllocOk(alloc) && RangeFor(vm, b)
      modifies `spans
      ensures Valid() && spans == old(spans) + [Span(from, to, grown)]
      ensures vm.Valid() && vm.AllocOk(alloc) && vm.Exact() == old(vm.Exact()) && vm.Abs() == old(vm.Abs())
      ensures RangeFor(vm, b) && MappedIn(vm, b) == old(MappedIn(vm, b))
    {
      Record(from, to, grown);
    }

    /**
     lima_heap_alloc.  A call either doubles the populated part (up to the buffer's size), lists it
     in the sg table and maps the new pages in `vm`, or changes neither the populated size nor any
     live range; a failure after the sg table was dropped leaves none.
     */
    method HeapAlloc(a: HeapAnswers, vm: LimaVm, b: BoId, alloc: Answers) returns (err: Errno)
      requires Valid() && vm.Valid() && vm.AllocOk(alloc) && RangeFor(vm, b)
      modifies this, pages, vm, vm.pd, vm.words, vm.present, vm.btDma
      ensures Valid() && vm.Valid() && vm.AllocOk(alloc) && (old(vm.Exact()) ==> vm.Exact())
      ensures pages == old(pages) || fresh(pages)
      ensures old(EarlyError(a)) != Ok ==> err == old(EarlyError(a)) && sgt == old(sgt)
      ensures old(EarlyError(a)) == Ok ==>
                (err == Ok <==> (old(sgt).Some? || a.header) && a.dmaMap == Ok && old(Growable(vm, b, alloc)))
      ensures old(EarlyError(a)) == Ok && err != Ok ==> sgt == None
      ensures old(populated) >= |backing| ==> err == ENOSPC
      ensures old(populated) < |backing| && !a.backed ==> err == EINVAL
      ensures populated == if err == Ok then old(Next()) else old(populated)
      ensures err == Ok ==> populated == Min(if old(populated) > 0 then 2 * old(populated) else init, |backing|)
      ensures err == Ok ==> old(populated) < |backing| && sgt == Some(backing[..populated])
      ensures spans == old(spans) + [old(Span(populated, ReadTo(a), false)).(grown := err == Ok)]
      ensures err == Ok ==>
                && b in old(vm.vas)
                && vm.Abs() == Extend(old(vm.Abs()), b, Added(old(vm.Abs()), b, backing, old(populated), populated))
      ensures err != Ok && old(vm.Exact()) ==> vm.Abs() == old(vm.Abs())
      ensures RangeFor(vm, b) && StillMapped(old(MappedIn(vm, b)), MappedIn(vm, b))
    {
      ghost var used, to := populated, ReadTo(a);
      err := AllocAndMap(a, vm, b, alloc);
      RecordCall(used, to, err == Ok, vm, b, alloc);
    }

    /** lima_heap_alloc at creation, with no address space. */
    method HeapCreate(a: HeapAnswers) returns (err: Errno)
      requires Valid()
      modifies this, pages
      ensures Valid() && (pages == old(pages) || fresh(pages))
      ensures err == if old(EarlyError(a)) != Ok then old(EarlyError(a))
                     else if old(sgt).None? && !a.header then ENOMEM
                     else a.dmaMap
      ensures populated == if err == Ok then old(Next()) else old(populated)
      ensures err == Ok ==> sgt == Some(backing[..populated])
      ensures spans == old(spans) + [old(Span(populated, ReadTo(a), false)).(grown := err == Ok)]
    {
      ghost var used, to := populated, ReadTo(a);
      var next;
      err, next := Populate(a);
      if err == Ok {
        err := InstallUnmapped(a, next);
      }
      Record(used, to, err == Ok);
    }

    /** One call among many. */
    method AllocOnce(a: HeapAnswers, vm: LimaVm, b: BoId, alloc: Answers) returns (err: Errno, ghost span: Span)
      requires Valid() && vm.Valid() && vm.AllocOk(alloc) && RangeFor(vm, b)
      modifies this, pages, vm, vm.pd, vm.words, vm.present, vm.btDma
      ensures Valid() && vm.Valid() && vm.AllocOk(alloc) && (old(vm.Exact()) ==> vm.Exact())
      ensures (pages == old(pages) || fresh(pages)) && old(populated) <= populated
      ensures spans == old(spans) + [span] && (span.grown <==> err == Ok)
      ensures err == Ok ==> sgt.Some?
      ensures RangeFor(vm, b) && StillMapped(old(MappedIn(vm, b)), MappedIn(vm, b))
    {
      span := Span(populated, ReadTo(a), false);
      err := HeapAlloc(a, vm, b, alloc);
      span := span.(grown := err == Ok);
    }

    /** Any number of them. */
    method AllocMany(calls: seq<HeapAnswers>, vm: LimaVm, b: BoId, alloc: Answers)
      returns (errs: seq<Errno>, ghost done: seq<Span>)
      requires Valid() && vm.Valid() && vm.AllocOk(alloc) && RangeFor(vm, b)
      modifies this, pages, vm, vm.pd, vm.words, vm.present, vm.btDma
      ensures Valid() && vm.Valid() && vm.AllocOk(alloc) && RangeFor(vm, b)
      ensures (old(vm.Exact()) ==> vm.Exact()) && StillMapped(old(MappedIn(vm, b)), MappedIn(vm, b))
      ensures (pages == old(pages) || fresh(pages)) && old(populated) <= populated
      ensures |errs| == |calls| && spans == old(spans) + done && Tells(done, errs)
      ensures LastIsOk(errs) ==> sgt.Some?
    {
      ghost var start, had, wasExact, wasMapped := spans, populated, vm.Exact(), MappedIn(vm, b);
      errs, done := [], [];
      while |errs| < |calls|
        invariant |errs| <= |calls| && Valid() && vm.Valid() && vm.AllocOk(alloc) && RangeFor(vm, b)
        invariant (wasExact ==> vm.Exact()) && StillMapped(wasMapped, MappedIn(vm, b))
        invariant (pages == old(pages) || fresh(pages)) && had <= populated
        invariant spans == start + done && Tells(done, errs) && (LastIsOk(errs) ==> sgt.Some?)
      {
        var err;
        ghost var span;
        err, span := AllocOnce(calls[|errs|], vm, b, alloc);
        TellsMore(start, done, errs, span, err);
        done, errs := done + [span], errs + [err];
      }
    }

    /**
     Any number of calls, failed ones included.  The size is the one the successes alone account for,
     and never shrinks; a range that had the whole populated part mapped still has; and the table, when
     there is one, lists exactly the populated part.
     */
    method HeapAllocs(calls: seq<HeapAnswers>, vm: LimaVm, b: BoId, alloc: Answers)
      returns (errs: seq<Errno>, ghost done: seq<Span>)
      requires Valid() && vm.Valid() && vm.AllocOk(alloc) && RangeFor(vm, b)
      modifies this, pages, vm, vm.pd, vm.words, vm.present, vm.btDma
      ensures Valid() && vm.Valid() && vm.AllocOk(alloc) && RangeFor(vm, b)
      ensures |errs| == |calls| && spans == old(spans) + done && Tells(done, errs)
      ensures populated == SizeAfter(Successes(spans), init, |backing|) && old(populated) <= populated
      ensures (old(vm.Exact()) ==> vm.Exact()) && StillMapped(old(MappedIn(vm, b)), MappedIn(vm, b))
      ensures (LastIsOk(errs) ==> sgt.Some?) && (sgt.Some? ==> sgt.value == backing[..populated])
    {
      errs, done := AllocMany(calls, vm, b, alloc);
    }

    /**
     Releasing the heap's pages (drm_gem_shmem_freebsd_put_pages): entries that are NULL are skipped,
     every other page loses one wire.  So a page keeps one wire for each call that read it but one, and
     none is left anywhere if and only if no call that failed after reading a page was retried.
     */
    method ReleasePages()
      requires Valid() && pages != null
      modifies `pages, `useCount, `populated, `sgt, `wires
      ensures pages == null && sgt == None && |wires| == |backing|
      ensures forall k | 0 <= k < |backing| :: wires[k] + Bit(Reads(spans, k) > 0) == Reads(spans, k)
      ensures (forall k | 0 <= k < |backing| :: wires[k] == 0) <==> !Retried(spans)
    {
      ghost var before := wires;
      forall k | 0 <= k < |backing| ensures pages[k].Some? <==> before[k] > 0 {
        assert PageOk(k);
      }
      var i := 0;
      while i < |backing|
        invariant i <= |backing| == |wires| == |before| && pages != null && pages == old(pages)
        invariant pages.Length == |backing|
        invariant forall k | 0 <= k < |backing| :: pages[k].Some? <==> before[k] > 0
        invariant forall k | 0 <= k < |backing| :: wires[k] + Bit(k < i && pages[k].Some?) == before[k]
      {
        if pages[i].Some? {
          wires := wires[i := wires[i] - 1];
        }
        i := i + 1;
      }
      pages, useCount, populated, sgt := null, 0, 0, None;
      NoWireLeft(old(populated));
    }

    lemma NoWireLeft(had: nat)
      requires |wires| == |backing| && SpansOk(spans, had) && forall i | 0 <= i < |spans| :: spans[i].to <= |backing|
      requires forall k | 0 <= k < |backing| :: wires[k] + Bit(Reads(spans, k) > 0) == Reads(spans, k)
      ensures (forall k | 0 <= k < |backing| :: wires[k] == 0) <==> !Retried(spans)
    {
      ReadOnceUnlessRetried(spans, had);
      if !Retried(spans) {
        forall k | 0 <= k < |backing| ensures wires[k] == 0 {
          assert Reads(spans, k) <= 1;
        }
      }
      if forall k | 0 <= k < |backing| :: wires[k] == 0 {
        forall k: nat ensures Reads(spans, k) <= 1 {
          if Reads(spans, k) > 1 {
            var i := ReadBySome(spans, k);
            assert false;
          }
        }
      }
    }
  }

  /** What drm_mm must offer for the populated pages of a heap. */
  ghost predicate Offers(w: View, range: Option<u32>, backing: seq<nat>, pages: seq<nat>) {
    range.Some? ==> range.value % PAGE_SIZE == 0 && Free(w, NewNode(range.value, |backing| * PAGE_SIZE, pages))
  }

  /** A range created with the populated pages is one of the heap, and has them all mapped. */
  lemma OpenedRange(w: View, b: BoId, n: Node, start: u32, backing: seq<nat>, populated: nat, next: nat)
    requires b !in w.vas && populated <= next <= |backing|
    requires n == NewNode(start, |backing| * PAGE_SIZE, backing[..populated])
    ensures HeapRange(Insert(w, b, n), b, backing, populated, next)
    ensures Covered(Insert(w, b, n).table, n.start, backing[..populated])
  {
    forall p | p in n.pages ensures p < Past(n.start, populated) {
      assert Between(n.start, p, populated);
    }
  }

  /** A heap opened in an address space, through its table. */
  method OpenHeap(h: Heap, vm: LimaVm, b: BoId, kzalloc: bool, range: Option<u32>, alloc: Answers)
    returns (ok: bool, err: Errno)
    requires h.Valid() && vm.Valid() && vm.AllocOk(alloc) && b !in vm.vas
    requires Offers(vm.Abs(), range, h.backing, Pages(h.sgt))
    modifies vm, vm.pd, vm.words, vm.present, vm.btDma
    ensures h.Valid() && (ok <==> !kzalloc || range.None? || h.sgt.Some?)
    ensures ok ==> vm.Valid() && vm.AllocOk(alloc) && (old(vm.Exact()) ==> vm.Exact())
    ensures ok && err == Ok ==> range.Some? && h.RangeFor(vm, b) && h.MappedIn(vm, b) == Some(Page(range.value))
  {
    ghost var before := vm.Abs();
    assert before.vas.Keys == vm.vas.Keys;
    ghost var undone;
    ok, err, undone := vm.BoAdd(b, |h.backing| * PAGE_SIZE, h.sgt, true, kzalloc, range, alloc);
    if ok && err == Ok {
      OpenedRange(before, b, NewNode(range.value, |h.backing| * PAGE_SIZE, Pages(h.sgt)), range.value,
                  h.backing, h.populated, h.Next());
    }
  }

  /** lima_gem_create_handle on a heap: it is populated, and opened in the client's address space. */
  method CreateAndOpen(h: Heap, a: HeapAnswers, vm: LimaVm, b: BoId, kzalloc: bool, range: Option<u32>, alloc: Answers)
    returns (ok: bool, err: Errno)
    requires h.Valid() && h.populated == 0 && vm.Valid() && vm.AllocOk(alloc) && b !in vm.vas
    requires Offers(vm.Abs(), range, h.backing, h.backing[..NextSize(0, h.init, |h.backing|)])
    modifies h, h.pages, vm, vm.pd, vm.words, vm.present, vm.btDma
    ensures ok && h.Valid() && (h.pages == old(h.pages) || fresh(h.pages))
    ensures vm.Valid() && vm.AllocOk(alloc) && (old(vm.Exact()) ==> vm.Exact())
    ensures err == Ok ==> h.populated == NextSize(0, h.init, |h.backing|) && range.Some?
    ensures err == Ok ==> h.RangeFor(vm, b) && h.MappedIn(vm, b) == Some(Page(range.value))
  {
    err := h.HeapCreate(a);
    ok := true;
    if err == Ok {
      ok, err := OpenHeap(h, vm, b, kzalloc, range, alloc);
    }
  }

  const DMA_FAILS := HeapAnswers(true, true, None, EIO, Ok, true, EIO)

  /** A heap of four pages, created with one. */
  method SmallHeap() returns (heap: Heap)
    ensures fresh(heap) && heap.pages != null && fresh(heap.pages) && heap.Valid() && |heap.backing| == 4
    ensures heap.init == 1 && heap.populated == 1 && heap.sgt.Some? && heap.spans == [Span(0, 1, true)]
  {
    heap := new Heap([0x1000, 0x2000, 0x3000, 0x4000], 1);
    var err := heap.HeapCreate(HeapAnswers(true, true, None, EIO, Ok, true, Ok));
  }

  /** A growth reads the second page and fails at dma_map_sgtable. */
  method FailedGrowth(heap: Heap, vm: LimaVm)
    requires heap.Valid() && heap.pages != null && |heap.backing| == 4 && heap.init == 1 && heap.populated == 1
    requires vm.Valid() && vm.Exact() && vm.AllocOk(FIRST_SLOT) && 7 !in vm.vas
    modifies heap, heap.pages, vm, vm.pd, vm.words, vm.present, vm.btDma
    ensures heap.Valid() && heap.pages != null && heap.populated == 1 && heap.sgt == None
    ensures heap.pages == old(heap.pages) || fresh(heap.pages)
    ensures heap.spans == old(heap.spans) + [Span(1, 2, false)]
    ensures vm.Valid() && vm.AllocOk(FIRST_SLOT) && 7 !in vm.vas && vm.Abs() == old(vm.Abs())
  {
    var err := heap.HeapAlloc(DMA_FAILS, vm, 7, FIRST_SLOT);
    ghost var after := vm.Abs();
    assert after.vas.Keys == vm.vas.Keys;
  }

  method FailTwice() returns (heap: Heap)
    ensures fresh(heap) && heap.pages != null && fresh(heap.pages) && heap.Valid() && |heap.backing| == 4
    ensures heap.spans == [Span(0, 1, true), Span(1, 2, false), Span(1, 2, false)]
  {
    var vm;
    heap, vm := FailOnce();
    FailedGrowth(heap, vm);
  }

  method FailOnce() returns (heap: Heap, vm: LimaVm)
    ensures fresh(heap) && heap.pages != null && fresh(heap.pages) && heap.Valid() && |heap.backing| == 4
    ensures heap.init == 1 && heap.populated == 1 && heap.spans == [Span(0, 1, true), Span(1, 2, false)]
    ensures fresh(vm) && fresh(vm.words) && fresh(vm.pd) && fresh(vm.present) && fresh(vm.btDma)
    ensures vm.Valid() && vm.Exact() && vm.AllocOk(FIRST_SLOT) && 7 !in vm.vas
  {
    heap := SmallHeap();
    vm := NewSmall();
    FailedGrowth(heap, vm);
  }

  /** Two such failures: the page has two wires, one of which outlives the buffer. */
  method RetryWiresTwice() returns (heap: Heap)
    ensures heap.pages == null && heap.wires == [0, 1, 0, 0]
  {
    heap := FailTwice();
    heap.ReleasePages();
    OneWireLeft(heap.wires, heap.spans);
  }

  lemma OneWireLeft(wires: seq<nat>, spans: seq<Span>)
    requires spans == [Span(0, 1, true), Span(1, 2, false), Span(1, 2, false)] && |wires| == 4
    requires forall k | 0 <= k < 4 :: wires[k] + Bit(Reads(spans, k) > 0) == Reads(spans, k)
    ensures wires == [0, 1, 0, 0]
  {
    RetriedReads(spans);
  }

  lemma RetriedReads(spans: seq<Span>)
    requires spans == [Span(0, 1, true), Span(1, 2, false), Span(1, 2, false)]
    ensures Reads(spans, 0) == 1 && Reads(spans, 1) == 2 && Reads(spans, 2) == 0 && Reads(spans, 3) == 0
  {
    var two, one := spans[..2], spans[..1];
    assert two[..1] == one && one[..0] == [];
    forall k: nat ensures Reads(spans, k) == Bit(k < 1) + 2 * Bit(k == 1) {
      assert Reads(spans, k) == Reads(two, k) + Bit(spans[2].Has(k));
      assert Reads(two, k) == Reads(one, k) + Bit(two[1].Has(k));
      assert Reads(one, k) == Bit(one[0].Has(k));
    }
  }

  /** And there is no sg table any more: opening the heap in an address space follows a NULL pointer. */
  method OpenAfterFailure() returns (ok: bool)
    ensures !ok
  {
    var heap := SmallHeap();
    var vm := NewSmall();
    FailedGrowth(heap, vm);
    var err;
    ghost var undone;
    ok, err, undone := vm.BoAdd(7, 4 * PAGE_SIZE, heap.sgt, true, true, Some(0), FIRST_SLOT);
  }
}
