/**
 The tile-list windows of a GP task (lima_gp.c): lima_gp_task_run points the PLBU at the task's heap,
 lima_gp_task_recover grows the heap and hands the GP the part it has not had yet.
 */
module GpTask {
  import opened Wrappers
  import opened Geometry
  import opened HeapSize
  import opened VmSpec
  import opened LimaVm
  import opened HeapBo

  /** What the PLBU may fill: the bytes from `start` up to `end`. */
  datatype Window = Window(start: nat, end: nat)

  /** A buffer of the task: its address in the task's VM, and heap_size (0: not a heap). */
  datatype TaskBo = TaskBo(va: u32, heapBytes: nat)

  /** The windows, in order, cover the `bytes` bytes from `start` on, without gap, overlap or empty window. */
  ghost predicate Tiles(ws: seq<Window>, start: nat, bytes: int) {
    && |ws| > 0 && ws[0].start == start && ws[|ws| - 1].end == start + bytes
    && (forall i | 0 <= i < |ws| :: ws[i].start < ws[i].end)
    && (forall i | 0 <= i < |ws| - 1 :: ws[i].end == ws[i + 1].start)
  }

  /** Of such windows no two overlap, and each byte of the heap lies in one. */
  lemma {:induction false} TilesCover(ws: seq<Window>, start: nat, bytes: nat, x: nat)
    requires Tiles(ws, start, bytes) && start <= x < start + bytes
    ensures exists i | 0 <= i < |ws| :: ws[i].start <= x < ws[i].end
    ensures forall i, j | 0 <= i < j < |ws| :: ws[i].end <= ws[j].start
  {
    var n := |ws| - 1;
    TilesOrdered(ws, start, bytes);
    if n > 0 && x < ws[n].start {
      TilesCover(ws[..n], start, ws[n].start - start, x);
      var i :| 0 <= i < |ws[..n]| && ws[..n][i].start <= x < ws[..n][i].end;
      assert ws[i].start <= x < ws[i].end;
    } else {
      assert ws[n].start <= x < ws[n].end;
    }
  }

  lemma {:induction false} TilesOrdered(ws: seq<Window>, start: nat, bytes: int)
    requires Tiles(ws, start, bytes)
    ensures forall i, j | 0 <= i < j < |ws| :: ws[i].end <= ws[j].start
    ensures start < ws[|ws| - 1].end && start <= ws[|ws| - 1].start
  {
    var n := |ws| - 1;
    if n > 0 {
      assert ws[n - 1].end == ws[n].start;
      TilesOrdered(ws[..n], start, ws[n].start - start);
      forall i, j | 0 <= i < j < |ws| ensures ws[i].end <= ws[j].start {
        if j < n {
          assert ws[..n][i].end <= ws[..n][j].start;
        } else if i < n - 1 {
          assert ws[..n][i].end <= ws[..n][n - 1].start;
        }
      }
    }
  }

  lemma TilesGrow(ws: seq<Window>, start: nat, bytes: nat, more: nat)
    requires Tiles(ws, start, bytes) && bytes < more
    ensures Tiles(ws + [Window(start + bytes, start + more)], start, more)
  {}

  /** The first buffer that is a heap at the address the frame names. */
  predicate HeapAt(bos: seq<TaskBo>, start: u32, i: nat) {
    i < |bos| && bos[i].heapBytes != 0 && bos[i].va == start &&
    forall k | 0 <= k < i :: bos[k].heapBytes == 0 || bos[k].va != start
  }

  /**
   What a recovery does to the populated size: nothing if the heap is already larger than what the
   GP was given; else it doubles, or the call fails, and it fails for sure when the heap is full.
   */
  predicate GrowthOk(given: nat, before: nat, init: nat, size: nat, err: Errno, after: nat) {
    if given != before * PAGE_SIZE then err == Ok && after == before
    else if err == Ok then before < size && after == NextSize(before, init, size)
    else after == before && (before >= size ==> err == ENOSPC)
  }

  /** The GP has been given exactly the first `pages` pages of the heap, window by window. */
  ghost predicate GivenExactly(ws: seq<Window>, start: u32, end: u32, pages: nat) {
    pages > 0 && end == start + pages * PAGE_SIZE && Tiles(ws, start, pages * PAGE_SIZE)
  }

  /** The heap's end after `pages` pages, as the frame's u32 has it. */
  function EndAfter(start: u32, pages: nat): u32 { (start + pages * PAGE_SIZE) % U32_LIMIT }

  /** Handing over the rest: exact again, if and only if the heap ends below 4 GiB. */
  lemma GivenMore(ws: seq<Window>, start: u32, end: u32, given: nat, pages: nat)
    requires GivenExactly(ws, start, end, given) && given < pages && start + pages * PAGE_SIZE <= U32_LIMIT
    ensures GivenExactly(ws + [Window(end, EndAfter(start, pages))], start, EndAfter(start, pages), pages) <==>
              start + pages * PAGE_SIZE < U32_LIMIT
  {
    TilesGrow(ws, start, given * PAGE_SIZE, pages * PAGE_SIZE);
  }

  /** The heap's size is a u32, and its range lies below 4 GiB. */
  predicate HeapInSpace(start: u32, pages: nat) {
    pages * PAGE_SIZE < U32_LIMIT && start + pages * PAGE_SIZE <= U32_LIMIT
  }

  /** The bytes between two u32 addresses, as the frame's registers give them. */
  function Bytes(start: u32, end: u32): u32 { (end - start) % U32_LIMIT }

  lemma RefillTiles(ws: seq<Window>, start: u32, end: u32, given: nat, before: nat, init: nat, size: nat, after: nat)
    requires GivenExactly(ws, start, end, given) && given <= before <= size && start + size * PAGE_SIZE <= U32_LIMIT
    requires GrowthOk(Bytes(start, end), before, init, size, Ok, after)
    ensures GivenExactly(ws + [Window(end, EndAfter(start, after))], start, EndAfter(start, after), after) <==>
              start + after * PAGE_SIZE < U32_LIMIT
  {
    GivenMore(ws, start, end, given, after);
  }

  class Task {
    var allocStart: u32      // frame[LIMA_GP_PLBU_ALLOC_START_ADDR]
    var allocEnd: u32        // frame[LIMA_GP_PLBU_ALLOC_END_ADDR]
    var recoverable: bool
    var heap: Option<nat>    // task->heap, as an index into the task's buffers
    var regStart: u32        // the two PLBU registers
    var regEnd: u32
    ghost var windows: seq<Window>

    /** The heap part of lima_gp_task_run, and the register writes that start the PLBU. */
    method TaskRun(bos: seq<TaskBo>)
      modifies this
      ensures allocStart == old(allocStart) && regStart == allocStart && regEnd == allocEnd
      ensures windows == [Window(regStart, regEnd)]
      ensures (exists i :: HeapAt(bos, allocStart, i)) ==>
                heap.Some? && HeapAt(bos, allocStart, heap.value) && recoverable &&
                allocEnd == (allocStart + bos[heap.value].heapBytes) % U32_LIMIT
      ensures heap.Some? && HeapAt(bos, allocStart, heap.value) &&
              allocStart + bos[heap.value].heapBytes < U32_LIMIT ==>
                Tiles(windows, allocStart, bos[heap.value].heapBytes)
      ensures (forall i :: !HeapAt(bos, allocStart, i)) ==>
                heap == old(heap) && recoverable == old(recoverable) && allocEnd == old(allocEnd)
      ensures (forall k | 0 <= k < |bos| :: bos[k].heapBytes == 0 || bos[k].va != allocStart) ==>
                heap == old(heap) && recoverable == old(recoverable) && allocEnd == old(allocEnd)
      ensures forall i | 0 <= i < |bos| && bos[i].heapBytes != 0 && bos[i].va == allocStart ::
                && recoverable && heap.Some? && heap.value <= i
                && bos[heap.value].heapBytes != 0 && bos[heap.value].va == allocStart
    {
      var i := 0;
      while i < |bos|
        invariant i <= |bos|
        invariant forall k | 0 <= k < i :: bos[k].heapBytes == 0 || bos[k].va != allocStart
        invariant heap == old(heap) && recoverable == old(recoverable) && allocStart == old(allocStart)
        invariant allocEnd == old(allocEnd)
      {
        if bos[i].heapBytes != 0 && bos[i].va == allocStart {
          allocEnd := (allocStart + bos[i].heapBytes) % U32_LIMIT;
          recoverable := true;
          heap := Some(i);
          break;
        }
        i := i + 1;
      }
      assert i < |bos| ==> HeapAt(bos, allocStart, i);
      regStart, regEnd := allocStart, allocEnd;
      windows := [Window(regStart, regEnd)];
    }

    /** The part of the heap the GP has been given: `fail_size` of lima_gp_task_recover. */
    function Given(): (r: u32)
      reads this
    {
      Bytes(allocStart, allocEnd)
    }

    /** Resuming from the stall point: the new window starts where the last one ended. */
    method Resume(pages: nat)
      modifies `allocEnd, `regStart, `regEnd, `windows
      ensures regStart == old(allocEnd) && regEnd == allocEnd == EndAfter(allocStart, pages)
      ensures windows == old(windows) + [Window(regStart, regEnd)]
    {
      regStart := allocEnd;
      allocEnd := (allocStart + pages * PAGE_SIZE) % U32_LIMIT;
      regEnd := allocEnd;
      windows := windows + [Window(regStart, regEnd)];
    }

    /** The same if the heap has grown or had more all along; the heap does not notice. */
    method HandOver(go: bool, h: Heap, ghost vm: LimaVm, ghost b: BoId, ghost alloc: Answers)
      requires h.Valid() && vm.Valid() && vm.AllocOk(alloc) && h.RangeFor(vm, b)
      modifies `allocEnd, `regStart, `regEnd, `windows
      ensures h.Valid() && vm.Valid() && vm.AllocOk(alloc) && h.RangeFor(vm, b)
      ensures h.MappedIn(vm, b) == old(h.MappedIn(vm, b)) && vm.Exact() == old(vm.Exact()) && vm.Abs() == old(vm.Abs())
      ensures go ==> regStart == old(allocEnd) && regEnd == allocEnd == EndAfter(allocStart, h.populated)
      ensures go ==> windows == old(windows) + [Window(regStart, regEnd)]
      ensures !go ==>
                && windows == old(windows) && allocEnd == old(allocEnd)
                && regStart == old(regStart) && regEnd == old(regEnd)
    {
      if go {
        Resume(h.populated);
      }
    }

    /** `if (fail_size == task->heap->heap_size) lima_heap_alloc(...)` */
    method GrowIfUsedUp(h: Heap, a: HeapAnswers, vm: LimaVm, b: BoId, alloc: Answers) returns (err: Errno)
      requires h.Valid() && vm.Valid() && vm.AllocOk(alloc) && h.RangeFor(vm, b)
      modifies h, h.pages, vm, vm.pd, vm.words, vm.present, vm.btDma
      ensures h.Valid() && vm.Valid() && vm.AllocOk(alloc) && h.RangeFor(vm, b)
      ensures h.pages == old(h.pages) || fresh(h.pages)
      ensures (old(vm.Exact()) ==> vm.Exact()) && StillMapped(old(h.MappedIn(vm, b)), h.MappedIn(vm, b))
      ensures GrowthOk(Given(), old(h.populated), h.init, |h.backing|, err, h.populated)
      ensures err != Ok && old(vm.Exact()) ==> vm.Abs() == old(vm.Abs())
    {
      err := Ok;
      if Given() == h.populated * PAGE_SIZE {
        err := h.HeapAlloc(a, vm, b, alloc);
      }
    }

    /** The windows tile exactly the populated part of the heap if and only if it ends below 4 GiB. */
    ghost predicate TiledIff(h: Heap)
      reads this, h`populated
    {
      GivenExactly(windows, allocStart, allocEnd, h.populated) <==> allocStart + h.populated * PAGE_SIZE < U32_LIMIT
    }

    /** What lima_gp_task_recover does, without what it comes to. */
    method Refill(h: Heap, a: HeapAnswers, vm: LimaVm, b: BoId, alloc: Answers) returns (err: Errno)
      requires h.Valid() && vm.Valid() && vm.AllocOk(alloc) && h.RangeFor(vm, b)
      requires allocStart + |h.backing| * PAGE_SIZE <= U32_LIMIT
      modifies `allocEnd, `regStart, `regEnd, `windows, h, h.pages, vm, vm.pd, vm.words, vm.present, vm.btDma
      ensures h.Valid() && vm.Valid() && vm.AllocOk(alloc) && h.RangeFor(vm, b)
      ensures h.pages == old(h.pages) || fresh(h.pages)
      ensures (old(vm.Exact()) ==> vm.Exact()) && StillMapped(old(h.MappedIn(vm, b)), h.MappedIn(vm, b))
      ensures GrowthOk(old(Given()), old(h.populated), h.init, |h.backing|, err, h.populated)
      ensures err == Ok ==> regStart == old(allocEnd) && regEnd == allocEnd == EndAfter(allocStart, h.populated)
      ensures err == Ok ==> windows == old(windows) + [Window(regStart, regEnd)]
      ensures err != Ok && old(vm.Exact()) ==> vm.Abs() == old(vm.Abs())
      ensures err != Ok ==>
                && windows == old(windows) && allocEnd == old(allocEnd)
                && regStart == old(regStart) && regEnd == old(regEnd)
    {
      err := GrowIfUsedUp(h, a, vm, b, alloc);
      HandOver(err == Ok, h, vm, b, alloc);
    }

    /**
     lima_gp_task_recover: if the GP used up the whole heap, grow it; then hand over the part it has
     not had.  If the GP had been given exactly the first `given` pages, it now has been given exactly
     the populated ones, in contiguous, disjoint, non-empty windows, if and only if these end below
     4 GiB.
     */
    method Recover(h: Heap, a: HeapAnswers, vm: LimaVm, b: BoId, alloc: Answers, ghost given: nat) returns (err: Errno)
      requires h.Valid() && vm.Valid() && vm.AllocOk(alloc) && h.RangeFor(vm, b)
      requires allocStart + |h.backing| * PAGE_SIZE <= U32_LIMIT
      modifies `allocEnd, `regStart, `regEnd, `windows, h, h.pages, vm, vm.pd, vm.words, vm.present, vm.btDma
      ensures h.Valid() && vm.Valid() && vm.AllocOk(alloc) && h.RangeFor(vm, b)
      ensures h.pages == old(h.pages) || fresh(h.pages)
      ensures (old(vm.Exact()) ==> vm.Exact()) && StillMapped(old(h.MappedIn(vm, b)), h.MappedIn(vm, b))
      ensures GrowthOk(old(Given()), old(h.populated), h.init, |h.backing|, err, h.populated)
      ensures err == Ok ==> regStart == old(allocEnd) && regEnd == allocEnd == EndAfter(allocStart, h.populated)
      ensures err == Ok ==> windows == old(windows) + [Window(regStart, regEnd)]
      ensures err != Ok && old(vm.Exact()) ==> vm.Abs() == old(vm.Abs())
      ensures err != Ok ==>
                && windows == old(windows) && allocEnd == old(allocEnd)
                && regStart == old(regStart) && regEnd == old(regEnd)
      ensures GivenExactly(old(windows), allocStart, old(allocEnd), given) && given <= old(h.populated) && err == Ok ==>
                TiledIff(h)
    {
      ghost var used, ws, end := h.populated, windows, allocEnd;
      err := Refill(h, a, vm, b, alloc);
      if err == Ok && GivenExactly(ws, allocStart, end, given) && given <= used {
        RefillTiles(ws, allocStart, end, given, used, h.init, |h.backing|, h.populated);
      }
    }

    /** The GP has been given all populated pages of a heap in its range. */
    ghost predicate UsedUp(h: Heap)
      reads this, h`populated
    {
      && HeapInSpace(allocStart, |h.backing|) && 0 < h.populated <= |h.backing|
      && allocEnd == EndAfter(allocStart, h.populated) && TiledIff(h)
    }

    /** A task is started on the pages its heap has. */
    method StartTask(bos: seq<TaskBo>, i: nat, h: Heap, ghost vm: LimaVm, ghost b: BoId, ghost alloc: Answers)
      requires HeapAt(bos, allocStart, i) && bos[i].heapBytes == h.populated * PAGE_SIZE
      requires HeapInSpace(allocStart, |h.backing|)
      requires h.Valid() && vm.Valid() && vm.AllocOk(alloc) && h.RangeFor(vm, b)
      modifies this
      ensures h.Valid() && vm.Valid() && vm.AllocOk(alloc) && h.RangeFor(vm, b)
      ensures h.MappedIn(vm, b) == old(h.MappedIn(vm, b)) && allocStart == old(allocStart)
      ensures UsedUp(h)
    {
      assert forall j: nat | HeapAt(bos, allocStart, j) :: j == i;
      TaskRun(bos);
      FirstWindow(allocStart, h.populated);
    }

    /** One recovery of a task that has been given all populated pages: the heap grows, or it fails. */
    method RecoverOnce(h: Heap, a: HeapAnswers, vm: LimaVm, b: BoId, alloc: Answers) returns (err: Errno)
      requires h.Valid() && vm.Valid() && vm.AllocOk(alloc) && h.RangeFor(vm, b)
      requires UsedUp(h)
      modifies `allocEnd, `regStart, `regEnd, `windows, h, h.pages, vm, vm.pd, vm.words, vm.present, vm.btDma
      ensures h.Valid() && vm.Valid() && vm.AllocOk(alloc) && h.RangeFor(vm, b)
      ensures (h.pages == old(h.pages) || fresh(h.pages)) && StillMapped(old(h.MappedIn(vm, b)), h.MappedIn(vm, b))
      ensures UsedUp(h)
      ensures err == Ok ==> old(h.populated) < |h.backing| && h.populated == NextSize(old(h.populated), 0, |h.backing|)
      ensures err != Ok ==> h.populated == old(h.populated) && (h.populated == |h.backing| ==> err == ENOSPC)
    {
      GivenIsAll(allocStart, h.populated);
      err := Recover(h, a, vm, b, alloc, h.populated);
    }

    /** The heap had `first` pages and has grown `growths` times. */
    ghost predicate GrownBy(h: Heap, first: nat, growths: nat)
      reads h`populated
    {
      h.populated == GrownSize(first, growths, |h.backing|) && Within(first, growths, |h.backing|)
    }

    /** The next one, if it succeeds, is a growth. */
    method RecoverNext(h: Heap, a: HeapAnswers, vm: LimaVm, b: BoId, alloc: Answers,
                       ghost first: nat, ghost growths: nat)
      returns (err: Errno)
      requires h.Valid() && vm.Valid() && vm.AllocOk(alloc) && h.RangeFor(vm, b)
      requires UsedUp(h) && GrownBy(h, first, growths)
      modifies `allocEnd, `regStart, `regEnd, `windows, h, h.pages, vm, vm.pd, vm.words, vm.present, vm.btDma
      ensures h.Valid() && vm.Valid() && vm.AllocOk(alloc) && h.RangeFor(vm, b)
      ensures (h.pages == old(h.pages) || fresh(h.pages)) && StillMapped(old(h.MappedIn(vm, b)), h.MappedIn(vm, b))
      ensures UsedUp(h)
      ensures err == Ok ==> GrownBy(h, first, growths + 1)
      ensures err != Ok ==> GrownBy(h, first, growths) && (h.populated == |h.backing| ==> err == ENOSPC)
    {
      ghost var had := h.populated;
      err := RecoverOnce(h, a, vm, b, alloc);
      if err == Ok {
        GrownOnce(first, growths, |h.backing|, had, h.populated);
      }
    }

    /** Any number of them, until one fails. */
    method Recoveries(h: Heap, calls: seq<HeapAnswers>, vm: LimaVm, b: BoId, alloc: Answers)
      returns (err: Errno, growths: nat)
      requires h.Valid() && vm.Valid() && vm.AllocOk(alloc) && h.RangeFor(vm, b)
      requires UsedUp(h)
      modifies `allocEnd, `regStart, `regEnd, `windows, h, h.pages, vm, vm.pd, vm.words, vm.present, vm.btDma
      ensures h.Valid() && vm.Valid() && vm.AllocOk(alloc) && h.RangeFor(vm, b)
      ensures UsedUp(h) && StillMapped(old(h.MappedIn(vm, b)), h.MappedIn(vm, b))
      ensures GrownBy(h, old(h.populated), growths)
      ensures growths <= |calls| && (growths < |calls| <==> err != Ok)
      ensures err != Ok && h.populated == |h.backing| ==> err == ENOSPC
    {
      ghost var first, wasMapped := h.populated, h.MappedIn(vm, b);
      growths := 0;
      while growths < |calls|
        invariant growths <= |calls| && h.Valid() && vm.Valid() && vm.AllocOk(alloc) && h.RangeFor(vm, b)
        invariant (h.pages == old(h.pages) || fresh(h.pages)) && StillMapped(wasMapped, h.MappedIn(vm, b))
        invariant UsedUp(h) && GrownBy(h, first, growths)
      {
        err := RecoverNext(h, calls[growths], vm, b, alloc, first, growths);
        if err != Ok {
          return;
        }
        growths := growths + 1;
      }
      err := Ok;
    }

    /**
     A task's whole life on the GP: it is started on the `size` pages its heap has, and recovered each
     time it runs off the end, until a recovery fails or the calls run out.  Every recovery that
     succeeds is a growth, and there are at most log2(|heap| / size) + 1 of them; with a full heap the
     next one fails with ENOSPC.  At the end the windows tile exactly the populated heap, if and only if
     that ends below 4 GiB.
     */
    method RunTask(bos: seq<TaskBo>, i: nat, h: Heap, calls: seq<HeapAnswers>, vm: LimaVm, b: BoId, alloc: Answers)
      returns (err: Errno, growths: nat)
      requires h.Valid() && vm.Valid() && vm.AllocOk(alloc) && h.RangeFor(vm, b)
      requires HeapAt(bos, allocStart, i) && bos[i].heapBytes == h.populated * PAGE_SIZE
      requires HeapInSpace(allocStart, |h.backing|)
      modifies this, h, h.pages, vm, vm.pd, vm.words, vm.present, vm.btDma
      ensures h.Valid() && vm.Valid() && vm.AllocOk(alloc) && h.RangeFor(vm, b) && allocStart == old(allocStart)
      ensures h.populated == Min(old(h.populated) * Pow2(growths), |h.backing|)
      ensures growths > 0 ==> old(h.populated) * Pow2(growths - 1) < |h.backing|
      ensures growths <= |calls| && (growths < |calls| <==> err != Ok)
      ensures err != Ok && h.populated == |h.backing| ==> err == ENOSPC
      ensures UsedUp(h) && StillMapped(old(h.MappedIn(vm, b)), h.MappedIn(vm, b))
    {
      ghost var first := h.populated;
      StartTask(bos, i, h, vm, b, alloc);
      err, growths := Recoveries(h, calls, vm, b, alloc);
      GrowthIsBounded(first, growths, |h.backing|);
    }

    /** The windows lie in mapped memory, unless the populated heap ends at 4 GiB. */
    lemma WindowsAreMapped(h: Heap, vm: LimaVm, b: BoId)
      requires h.Valid() && vm.Valid() && UsedUp(h) && allocStart % PAGE_SIZE == 0
      requires h.MappedIn(vm, b) == Some(Page(allocStart))
      ensures allocStart + h.populated * PAGE_SIZE < U32_LIMIT ==>
                WindowsMapped(windows, allocStart, vm.Abs().table, h.backing)
    {
      if allocStart + h.populated * PAGE_SIZE < U32_LIMIT {
        TilesAreMapped(windows, allocStart, h.populated, vm.Abs().table, h.backing);
      }
    }

    /**
     From the creation of a heap to the end of a task that uses it: the heap is populated and opened, and
     the task run and recovered any number of times.  Every byte of every window the GP has been given is
     mapped to the heap's own page, unless the populated heap ends at 4 GiB.
     */
    method RunNewTask(bos: seq<TaskBo>, i: nat, h: Heap, a: HeapAnswers, calls: seq<HeapAnswers>,
                      vm: LimaVm, b: BoId, kzalloc: bool, range: Option<u32>, alloc: Answers)
      returns (created: Errno, err: Errno, growths: nat)
      requires h.Valid() && h.populated == 0 && vm.Valid() && vm.AllocOk(alloc) && b !in vm.vas
      requires Offers(vm.Abs(), range, h.backing, h.backing[..NextSize(0, h.init, |h.backing|)])
      requires range.Some? ==> allocStart == range.value
      requires HeapAt(bos, allocStart, i) && bos[i].heapBytes == NextSize(0, h.init, |h.backing|) * PAGE_SIZE
      requires HeapInSpace(allocStart, |h.backing|)
      modifies this, h, h.pages, vm, vm.pd, vm.words, vm.present, vm.btDma
      ensures h.Valid() && vm.Valid() && vm.AllocOk(alloc) && allocStart == old(allocStart)
      ensures created == Ok ==> h.populated == Min(Min(h.init, |h.backing|) * Pow2(growths), |h.backing|)
      ensures created == Ok && allocStart + h.populated * PAGE_SIZE < U32_LIMIT ==>
                && Tiles(windows, allocStart, h.populated * PAGE_SIZE)
                && WindowsMapped(windows, allocStart, vm.Abs().table, h.backing)
    {
      err, growths := Ok, 0;
      var ok;
      ok, created := CreateAndOpen(h, a, vm, b, kzalloc, range, alloc);
      if created == Ok {
        err, growths := RunTask(bos, i, h, calls, vm, b, alloc);
        WindowsAreMapped(h, vm, b);
      }
    }
  }

  lemma GrownOnce(first: nat, n: nat, size: nat, had: nat, has: nat)
    requires had == GrownSize(first, n, size) && had < size && has == NextSize(had, 0, size)
    ensures has == GrownSize(first, n + 1, size) && Within(first, n + 1, size)
  {}

  /** The last growth started from below the full size. */
  predicate Within(first: nat, growths: nat, size: nat) { growths > 0 ==> GrownSize(first, growths - 1, size) < size }

  /** Every byte of every window translates to a byte of the heap's page. */
  ghost predicate WindowsMapped(ws: seq<Window>, start: u32, table: Table, backing: seq<nat>) {
    forall i, x: u32 | 0 <= i < |ws| && ws[i].start <= x < ws[i].end :: ByteMapped(x, start, table, backing)
  }

  predicate ByteMapped(x: u32, start: u32, table: Table, backing: seq<nat>) {
    && 0 <= x - start < |backing| * PAGE_SIZE && Page(x) in table
    && table[Page(x)] == backing[(x - start) / PAGE_SIZE]
  }

  lemma PageInHeap(x: u32, start: u32, pages: nat)
    requires start % PAGE_SIZE == 0 && start <= x < start + pages * PAGE_SIZE
    ensures Between(Page(start), Page(x), pages) && Page(x) - Page(start) == (x - start) / PAGE_SIZE
  {}

  /** Windows that tile a heap of which all populated pages are mapped lie in mapped memory. */
  lemma TilesAreMapped(ws: seq<Window>, start: u32, pages: nat, table: Table, backing: seq<nat>)
    requires pages <= |backing| && start % PAGE_SIZE == 0 && Tiles(ws, start, pages * PAGE_SIZE)
    requires Covered(table, Page(start), backing[..pages])
    ensures WindowsMapped(ws, start, table, backing)
  {
    forall i, x: u32 | 0 <= i < |ws| && ws[i].start <= x < ws[i].end ensures ByteMapped(x, start, table, backing) {
      InTiles(ws, start, pages * PAGE_SIZE, i);
      PageInHeap(x, start, pages);
      assert Page(x) in Range(Page(start), backing[..pages]);
    }
  }

  lemma InTiles(ws: seq<Window>, start: nat, bytes: nat, i: nat)
    requires Tiles(ws, start, bytes) && i < |ws|
    ensures start <= ws[i].start && ws[i].end <= start + bytes
  {
    TilesOrdered(ws, start, bytes);
    if i > 0 { assert ws[0].end <= ws[i].start; }
    if i < |ws| - 1 { assert ws[i].end <= ws[|ws| - 1].start; }
  }

  /** The bytes given are those of all populated pages: the next recovery has to grow the heap. */
  lemma GivenIsAll(start: u32, pages: nat)
    requires HeapInSpace(start, pages)
    ensures ((start + pages * PAGE_SIZE) % U32_LIMIT - start) % U32_LIMIT == pages * PAGE_SIZE
  {}

  /** A heap whose end does not reach 4 GiB gives a proper first window; one that does gives an empty one. */
  lemma FirstWindow(start: u32, pages: nat)
    requires pages > 0 && start + pages * PAGE_SIZE <= U32_LIMIT
    ensures start < (start + pages * PAGE_SIZE) % U32_LIMIT <==> start + pages * PAGE_SIZE < U32_LIMIT
    ensures start + pages * PAGE_SIZE < U32_LIMIT ==>
              Tiles([Window(start, (start + pages * PAGE_SIZE) % U32_LIMIT)], start, pages * PAGE_SIZE)
  {}
}
