/**
 The page tables of one GPU address space (lima_vm.c), written in place.

 `pd` is the page directory the hardware walks.  A slot is 32 MiB of address space; its backing
 table of eight consecutive page tables is allocated on the first mapping in it.  The 128 tables
 are windows of one array here: `words[8192 * b + k]` is bts[b].cpu[k], and it is only touched
 when `present[b]`, which says that bts[b].cpu is not NULL.

 Outside calls are parameters: `alloc[b]` is the DMA address dma_alloc_coherent would return
 for the table of slot b (None: out of memory), `range` the answer of drm_mm_insert_node.
 */
module LimaVm {
  import opened Wrappers
  import opened Geometry
  import opened VmSpec

  type Answers = a: seq<Option<nat>> | |a| == 128 witness seq(128, _ => None)

  /** The allocator can serve slot `b` with a block the 32-bit directory can name. */
  predicate Usable(b: nat, alloc: Answers)
    requires b < BT_COUNT
  {
    alloc[b].Some? && alloc[b].value + BT_BYTES <= U32_LIMIT
  }

  predicate Disjoint(a: nat, aSize: nat, b: nat, bSize: nat) { a + aSize <= b || b + bSize <= a }

  /** The node of a range just added at byte address `start`, its pages all installed. */
  function NewNode(start: u32, size: nat, pages: seq<nat>): Node {
    Node(Page(start), size / PAGE_SIZE, 1, Range(Page(start), pages))
  }

  function Pages(sgt: Option<seq<nat>>): seq<nat> { if sgt.Some? then sgt.value else [] }

  /** A struct lima_bo_va, in bytes. */
  datatype BoVa = BoVa(start: nat, size: nat, refs: nat) {
    function WithRefs(count: nat): BoVa { BoVa(start, size, count) }
  }

  /** Every page outside the range translates as it did. */
  ghost predicate SameOutside(before: Table, after: Table, n: Node) {
    forall p: nat {:trigger n.Owns(p)} | !n.Owns(p) ::
      (p in after <==> p in before) && (p in before ==> after[p] == before[p])
  }

  /** Consecutive pages are translated to these. */
  ghost predicate Shows(table: Table, first: nat, pages: seq<nat>) {
    forall i {:trigger pages[i]} | 0 <= i < |pages| :: first + i in table && table[first + i] == pages[i]
  }

  lemma RangeInside(table: Table, n: Node, first: nat, pages: seq<nat>)
    requires n.start <= first && first + |pages| <= n.start + n.size
    ensures Shows(table + Range(first, pages), first, pages)
    ensures SameOutside(table, table + Range(first, pages), n)
  {
    forall i {:trigger pages[i]} | 0 <= i < |pages| ensures Range(first, pages)[first + i] == pages[i] {
      assert Between(first, first + i, |pages|);
    }
  }

  lemma CutInside(table: Table, n: Node, cut: nat)
    requires cut <= n.size
    ensures SameOutside(table, Cut(table, n.start, cut), n)
  {}

  class LimaVm {
    const pdDma: nat
    const pd: array<nat>
    const words: array<nat>
    const present: array<bool>
    const btDma: array<nat>
    const reserved: Table                    // the page mapped by lima_vm_create, by page number
    var vas: map<BoId, BoVa>                 // the bo_va list entries that name this VM
    ghost var installed: map<BoId, Table>    // the translations installed for each of them

    ghost predicate Shape() {
      && pd.Length == PD_ENTRIES && words.Length == PAGE_COUNT && btDma.Length == BT_COUNT && present.Length == BT_COUNT
      && pd != words && pd != btDma && words != btDma
    }

    /** Each directory word names the page table it should, or is 0 where there is none. */
    ghost predicate DirectoryOk()
      requires Shape()
      reads pd, present, btDma
    {
      forall i | 0 <= i < PD_ENTRIES ::
        pd[i] == if present[i / PT_PER_BT] then btDma[i / PT_PER_BT] + i % PT_PER_BT * PAGE_SIZE + PRESENT else 0
    }

    /** The block of slot `b` fits in 32 bits and overlaps neither the directory nor another block. */
    ghost predicate BlockOk(b: nat)
      requires Shape() && b < BT_COUNT
      reads present, btDma
    {
      present[b] ==>
        && btDma[b] % PAGE_SIZE == 0 && btDma[b] + BT_BYTES <= U32_LIMIT
        && Disjoint(btDma[b], BT_BYTES, pdDma, PAGE_SIZE)
        && forall c | 0 <= c < BT_COUNT && c != b && present[c] :: Disjoint(btDma[b], BT_BYTES, btDma[c], BT_BYTES)
    }

    /** A page-table word is 0, or a 32-bit page address with all the mapping flags set. */
    ghost predicate WordOk(p: nat)
      requires Shape() && p < PAGE_COUNT
      reads present, words
    {
      words[p] == 0 || (present[p / BT_ENTRIES] && words[p] < U32_LIMIT && words[p] % PAGE_SIZE == FLAGS_CACHE)
    }

    ghost predicate TablesOk()
      reads pd, present, btDma, words
    {
      && Shape() && DirectoryOk()
      && pdDma % PAGE_SIZE == 0 && pdDma + PAGE_SIZE <= U32_LIMIT
      && (forall b | 0 <= b < BT_COUNT :: BlockOk(b))
      && (forall p | 0 <= p < PAGE_COUNT :: WordOk(p))
    }

    /** The contract of dma_alloc_coherent for slot `b`: a page-aligned block, apart from all others. */
    ghost predicate AllocSlotOk(b: nat, alloc: Answers)
      requires Shape() && b < BT_COUNT
      reads present, btDma
    {
      !present[b] && alloc[b].Some? ==>
        && alloc[b].value % PAGE_SIZE == 0 && Disjoint(alloc[b].value, BT_BYTES, pdDma, PAGE_SIZE)
        && forall c | 0 <= c < BT_COUNT && c != b ::
             && (present[c] ==> Disjoint(alloc[b].value, BT_BYTES, btDma[c], BT_BYTES))
             && (!present[c] && alloc[c].Some? ==> Disjoint(alloc[b].value, BT_BYTES, alloc[c].value, BT_BYTES))
    }

    ghost predicate AllocOk(alloc: Answers)
      requires Shape()
      reads present, btDma
    {
      forall b | 0 <= b < BT_COUNT :: AllocSlotOk(b, alloc)
    }

    /** The translations the tables hold: page number to DMA page. */
    ghost function Mapped(): Table
      requires Shape()
      reads words
    {
      map p: nat | p < PAGE_COUNT && words[p] >= FLAGS_CACHE :: words[p] - FLAGS_CACHE
    }

    /** What lima_vm_map_page needs for page number `page` to be mapped to `pa`. */
    ghost predicate Mappable(page: nat, pa: nat, alloc: Answers)
      requires Shape() && page < PAGE_COUNT
      reads present
    {
      pa <= LAST_PAGE && (present[page / BT_ENTRIES] || Usable(page / BT_ENTRIES, alloc))
    }

    ghost predicate MappableAt(first: nat, pages: seq<nat>, i: nat, alloc: Answers)
      requires Shape() && i < |pages| && first + |pages| <= PAGE_COUNT
      reads present
    {
      Mappable(first + i, pages[i], alloc)
    }

    /** Every page of the sequence can be mapped, the first one at page number `first`. */
    ghost predicate AllMappable(first: nat, pages: seq<nat>, alloc: Answers)
      requires Shape() && first + |pages| <= PAGE_COUNT
      reads present
    {
      forall i | 0 <= i < |pages| :: MappableAt(first, pages, i, alloc)
    }

    /** Tables are only added, and only where the allocator serves a usable block. */
    twostate predicate Grown(alloc: Answers)
      requires Shape()
      reads present
    {
      forall b | 0 <= b < BT_COUNT :: if present[b] then old(present[b]) || Usable(b, alloc) else !old(present[b])
    }

    /** lima_vm_map_page: installs one page, allocating its backing table when it is absent. */
    method MapPage(pa: nat, va: u32, alloc: Answers) returns (err: Errno)
      requires TablesOk() && AllocOk(alloc) && pa % PAGE_SIZE == 0
      modifies pd, words, present, btDma
      ensures TablesOk() && AllocOk(alloc)
      ensures err == Ok <==> old(Mappable(Page(va), pa, alloc))
      ensures pa > LAST_PAGE ==> err == ERANGE
      ensures pa <= LAST_PAGE && err != Ok ==> err == if alloc[Pbe(va)].None? then ENOMEM else ERANGE
      ensures Mapped() == if err == Ok then old(Mapped())[Page(va) := pa] else old(Mapped())
      ensures forall b | 0 <= b < BT_COUNT :: present[b] == (old(present[b]) || (err == Ok && b == Pbe(va)))
    {
      var pbe, bte := Pbe(va), Bte(va);
      SameSlot(va);
      if pa > LAST_PAGE {
        return ERANGE;
      }
      if !present[pbe] {
        if alloc[pbe].None? {
          return ENOMEM;
        }
        var dma := alloc[pbe].value;
        if dma + BT_BYTES > U32_LIMIT {
          return ERANGE;
        }
        AddTable(pbe, alloc);
      }
      WriteWord(pbe, bte, pa + FLAGS_CACHE);
      return Ok;
    }

    /** `bts[pbe].cpu[bte] = word`: one translation changes. */
    method WriteWord(pbe: nat, bte: nat, word: nat)
      requires TablesOk() && pbe < BT_COUNT && present[pbe] && bte < BT_ENTRIES
      requires word == 0 || (word < U32_LIMIT && word % PAGE_SIZE == FLAGS_CACHE)
      modifies words
      ensures TablesOk()
      ensures Mapped() == if word == 0 then old(Mapped()) - {pbe * BT_ENTRIES + bte}
                          else old(Mapped())[pbe * BT_ENTRIES + bte := word - FLAGS_CACHE]
    {
      words[pbe * BT_ENTRIES + bte] := word;
      forall p | 0 <= p < PAGE_COUNT ensures WordOk(p) {
        assert old(WordOk(p));
      }
      assert Mapped() == if word == 0 then old(Mapped()) - {pbe * BT_ENTRIES + bte}
                         else old(Mapped())[pbe * BT_ENTRIES + bte := word - FLAGS_CACHE];
    }

    /** The allocation arm of lima_vm_map_page: a zeroed table and its eight directory words. */
    method AddTable(pbe: nat, alloc: Answers)
      requires TablesOk() && AllocOk(alloc) && pbe < BT_COUNT && !present[pbe] && Usable(pbe, alloc)
      modifies pd, words, present, btDma
      ensures TablesOk() && AllocOk(alloc) && Mapped() == old(Mapped())
      ensures forall b | 0 <= b < BT_COUNT :: present[b] == (old(present[b]) || b == pbe)
    {
      var dma := alloc[pbe].value;
      ZeroTable(pbe);
      WriteDirectory(pbe, dma);
      present[pbe] := true;
      btDma[pbe] := dma;
      forall p | 0 <= p < PAGE_COUNT ensures words[p] == old(words[p]) && WordOk(p) {
        assert old(WordOk(p));
      }
      forall b | 0 <= b < BT_COUNT ensures BlockOk(b) && AllocSlotOk(b, alloc) {
        assert old(BlockOk(b)) && old(AllocSlotOk(b, alloc)) && old(AllocSlotOk(pbe, alloc));
      }
    }

    /** The zeroed memory __GFP_ZERO asks for. */
    method ZeroTable(pbe: nat)
      requires Shape() && pbe < BT_COUNT
      modifies words
      ensures forall p | 0 <= p < PAGE_COUNT :: words[p] == if p / BT_ENTRIES == pbe then 0 else old(words[p])
    {
      for k := 0 to BT_ENTRIES
        invariant forall p | 0 <= p < PAGE_COUNT ::
                    words[p] == if pbe * BT_ENTRIES <= p < pbe * BT_ENTRIES + k then 0 else old(words[p])
      {
        words[pbe * BT_ENTRIES + k] := 0;
      }
    }

    /** The directory loop: eight present entries, one page apart. */
    method WriteDirectory(pbe: nat, dma: nat)
      requires Shape() && pbe < BT_COUNT
      modifies pd
      ensures forall i | 0 <= i < PD_ENTRIES ::
                pd[i] == if i / PT_PER_BT == pbe then dma + i % PT_PER_BT * PAGE_SIZE + PRESENT else old(pd[i])
    {
      var pts := dma;
      for j := 0 to PT_PER_BT
        invariant pts == dma + j * PAGE_SIZE
        invariant forall i | 0 <= i < PD_ENTRIES ::
                    pd[i] == if pbe * PT_PER_BT <= i < pbe * PT_PER_BT + j
                             then dma + (i - pbe * PT_PER_BT) * PAGE_SIZE + PRESENT else old(pd[i])
      {
        pd[pbe * PT_PER_BT + j] := pts + PRESENT;
        pts := pts + PAGE_SIZE;
      }
    }

    /** The backing tables of the `n` pages from `first` on have been allocated. */
    ghost predicate Backed(first: nat, n: nat)
      requires Shape() && first + n <= PAGE_COUNT
      reads present
    {
      forall p | first <= p < first + n :: present[p / BT_ENTRIES]
    }

    /**
     lima_vm_unmap_range: zeroes the words of the pages from `start` to `end`.  The loop variable is
     a u32; `Geometry.UnmapLoopEnds` says why `end` must lie below the last page.  `ok` is false
     when the loop meets a slot with no backing table, where the source follows a NULL pointer.
     */
    method UnmapRange(start: u32, end: u32) returns (ok: bool)
      requires TablesOk() && start % PAGE_SIZE == 0 && start <= end < LAST_PAGE
      modifies words
      ensures ok <==> Backed(Page(start), Page(end) + 1 - Page(start))
      ensures TablesOk()
      ensures ok ==> Mapped() == Cut(old(Mapped()), Page(start), Page(end) + 1 - Page(start))
    {
      ghost var first, before := Page(start), Mapped();
      var addr: u32 := start;
      ok := true;
      while addr <= end
        invariant addr % PAGE_SIZE == 0 && start <= addr && Page(addr) <= Page(end) + 1
        invariant TablesOk() && ok && Backed(first, Page(addr) - first)
        invariant Mapped() == Cut(before, first, Page(addr) - first)
        decreases U32_LIMIT - addr
      {
        SameSlot(addr);
        if !present[Pbe(addr)] {
          ok := false;
          break;
        }
        CutOne(before, first, Page(addr) - first);
        WriteWord(Pbe(addr), Bte(addr), 0);
        addr := (addr + PAGE_SIZE) % U32_LIMIT;
      }
    }

    /** One round of the page loop, in page numbers. */
    method MapNext(base: u32, pages: seq<nat>, i: nat, alloc: Answers, ghost before: Table) returns (err: Errno)
      requires TablesOk() && AllocOk(alloc) && base % PAGE_SIZE == 0 && base + |pages| * PAGE_SIZE <= U32_LIMIT
      requires i < |pages| && pages[i] % PAGE_SIZE == 0 && Mapped() == before + Range(Page(base), pages[..i])
      modifies pd, words, present, btDma
      ensures TablesOk() && AllocOk(alloc) && err in {Ok, ENOMEM, ERANGE}
      ensures err == Ok <==> old(MappableAt(Page(base), pages, i, alloc))
      ensures Mapped() == before + Range(Page(base), pages[..if err == Ok then i + 1 else i])
      ensures Grown(alloc) && (err == Ok ==> present[(Page(base) + i) / BT_ENTRIES])
    {
      PageAt(base, i);
      RangeOne(before, Page(base), pages, i);
      err := MapPage(pages[i], base + i * PAGE_SIZE, alloc);
    }

    /** The page loop of lima_vm_bo_add and lima_vm_map_bo, up to the first page that fails. */
    method MapPages(base: u32, pages: seq<nat>, alloc: Answers) returns (done: nat, err: Errno)
      requires TablesOk() && AllocOk(alloc) && base % PAGE_SIZE == 0 && base + |pages| * PAGE_SIZE <= U32_LIMIT
      requires forall i | 0 <= i < |pages| :: pages[i] % PAGE_SIZE == 0
      modifies pd, words, present, btDma
      ensures TablesOk() && AllocOk(alloc) && done <= |pages| && err in {Ok, ENOMEM, ERANGE}
      ensures err == Ok ==> done == |pages| && forall i | 0 <= i < |pages| :: pages[i] <= LAST_PAGE
      ensures err != Ok ==> done < |pages| && !old(MappableAt(Page(base), pages, done, alloc))
      ensures Mapped() == old(Mapped()) + Range(Page(base), pages[..done])
      ensures Grown(alloc) && Backed(Page(base), done)
    {
      ghost var first, before := Page(base), Mapped();
      done, err := 0, Ok;
      while done < |pages|
        invariant done <= |pages| && err == Ok
        invariant TablesOk() && AllocOk(alloc) && Grown(alloc)
        invariant forall i | 0 <= i < done :: pages[i] <= LAST_PAGE
        invariant Mapped() == before + Range(first, pages[..done])
        invariant Backed(first, done)
      {
        err := MapNext(base, pages, done, alloc, before);
        if err != Ok {
          break;
        }
        done := done + 1;
      }
    }

    /**
     The mapping part of lima_vm_bo_add and lima_vm_map_bo: it maps every page, or, when one of
     them cannot be mapped, unmaps those before it.
     */
    method MapRange(base: u32, pages: seq<nat>, alloc: Answers) returns (err: Errno, ghost undone: nat)
      requires TablesOk() && AllocOk(alloc) && base % PAGE_SIZE == 0 && base + |pages| * PAGE_SIZE <= U32_LIMIT
      requires forall i | 0 <= i < |pages| :: pages[i] % PAGE_SIZE == 0
      modifies pd, words, present, btDma
      ensures TablesOk() && AllocOk(alloc)
      ensures err == Ok <==> old(AllMappable(Page(base), pages, alloc))
      ensures err in {Ok, ENOMEM, ERANGE}
      ensures err != Ok ==> undone < |pages| && !old(MappableAt(Page(base), pages, undone, alloc))
      ensures Mapped() == if err == Ok then old(Mapped()) + Range(Page(base), pages)
                          else Cut(old(Mapped()), Page(base), undone)
      ensures Grown(alloc) && (err == Ok ==> Backed(Page(base), |pages|))
    {
      var done;
      done, err := MapPages(base, pages, alloc);
      undone := done;
      if err == Ok {
        assert pages[..done] == pages;
        forall i | 0 <= i < |pages| ensures old(MappableAt(Page(base), pages, i, alloc)) {
          assert present[(Page(base) + i) / BT_ENTRIES];
        }
      } else {
        AddThenCut(old(Mapped()), Page(base), pages[..done]);
        if done > 0 {
          PageAt(base, done);
          var unmapped := UnmapRange(base, base + done * PAGE_SIZE - 1);
        }
      }
    }

    // ----- what the hardware reads

    ghost predicate InTable(b: nat, addr: nat)
      requires Shape()
      reads present, btDma
    {
      b < BT_COUNT && present[b] && btDma[b] <= addr < btDma[b] + BT_BYTES
    }

    /** The 32-bit word of bus memory at `addr`, where it is the directory or a live backing table. */
    ghost function ReadWord(addr: nat): Option<nat>
      requires Shape()
      reads pd, words, present, btDma
    {
      if pdDma <= addr < pdDma + PAGE_SIZE then Some(pd[(addr - pdDma) / 4])
      else if exists b: nat :: InTable(b, addr) then
        var b: nat :| InTable(b, addr);
        Some(words[b * BT_ENTRIES + (addr - btDma[b]) / 4])
      else None
    }

    /**
     The walk the MMU makes from the directory address in its DTE register: the directory entry
     for `va` (bit 0: present; low 12 bits masked off), then the entry of the page it names.
     None when the directory entry is not present.
     */
    ghost function Walk(va: u32): Option<nat>
      requires Shape()
      reads pd, words, present, btDma
    {
      match ReadWord(pdDma + 4 * Pde(va))
      case None => None
      case Some(pde) => if pde % 2 == PRESENT then ReadWord(pde / PAGE_SIZE * PAGE_SIZE + 4 * Pte(va)) else None
    }

    lemma ReadsTable(b: nat, k: nat)
      requires TablesOk() && b < BT_COUNT && present[b] && k < BT_ENTRIES
      ensures ReadWord(btDma[b] + 4 * k) == Some(words[b * BT_ENTRIES + k])
    {
      var addr := btDma[b] + 4 * k;
      assert BlockOk(b);
      assert InTable(b, addr);
      assert forall c: nat | InTable(c, addr) :: c == b;
    }

    /**
     Two ways to one word: the hardware's two-level walk reads, for every 32-bit address, exactly
     the word bts[va >> 25].cpu[(va & 0x1ffffff) >> 12] that the driver reads and writes, and it
     meets a directory entry that is not present exactly where that backing table is absent.
     */
    lemma WalkReadsDriverWord(va: u32)
      requires TablesOk()
      ensures Walk(va) == if present[Pbe(va)] then Some(words[Pbe(va) * BT_ENTRIES + Bte(va)]) else None
    {
      var b, i := Pbe(va), Pde(va);
      SameSlot(va);
      assert ReadWord(pdDma + 4 * i) == Some(pd[i]);
      if present[b] {
        assert BlockOk(b);
        var pt := btDma[b] + i % PT_PER_BT * PAGE_SIZE;
        assert pd[i] == pt + PRESENT;
        EntryDecodes(btDma[b], i % PT_PER_BT);
        assert pt + 4 * Pte(va) == btDma[b] + 4 * Bte(va);
        ReadsTable(b, Bte(va));
      }
    }

    /** What the GPU is given for `va`: the page address of a present leaf entry. */
    ghost function Translate(va: u32): Option<nat>
      requires Shape()
      reads pd, words, present, btDma
    {
      match Walk(va)
      case None => None
      case Some(pte) => if pte % 2 == PRESENT then Some(pte / PAGE_SIZE * PAGE_SIZE) else None
    }

    /** So the hardware translates by the abstract table, with every address bit intact. */
    lemma HardwareFollowsTable(va: u32)
      requires TablesOk()
      ensures Translate(va) == if Page(va) in Mapped() then Some(Mapped()[Page(va)]) else None
    {
      WalkReadsDriverWord(va);
      SameSlot(va);
      assert WordOk(Page(va));
      LeafDecodes(words[Page(va)]);
    }

    /**
     lima_vm_probe_pte: the word the hardware would find for `va`, and whether its walk gets past
     the directory at all.
     */
    method ProbePte(va: u32) returns (pte: nat, btPresent: bool)
      requires TablesOk()
      ensures btPresent <==> Walk(va).Some?
      ensures pte == if btPresent then Walk(va).value else 0
      ensures pte != 0 <==> Page(va) in Mapped()
    {
      SameSlot(va);
      WalkReadsDriverWord(va);
      var pbe, bte := Pbe(va), Bte(va);
      if pbe >= BT_COUNT || !present[pbe] {
        assert WordOk(Page(va));
        return 0, false;
      }
      assert WordOk(Page(va));
      return words[pbe * BT_ENTRIES + bte], true;
    }

    // ----- buffer objects

    ghost function NodeOf(b: BoId): Node
      requires b in vas && b in installed
      reads this
    {
      Node(vas[b].start / PAGE_SIZE, vas[b].size / PAGE_SIZE, vas[b].refs, installed[b])
    }

    ghost function Nodes(): Vas
      requires vas.Keys == installed.Keys
      reads this
    {
      map b | b in vas :: NodeOf(b)
    }

    ghost function Abs(): View
      requires Shape() && vas.Keys == installed.Keys
      reads this, words
    {
      View(Mapped(), Nodes(), reserved)
    }

    /** Tables well formed, ranges page aligned. */
    ghost predicate Sound()
      reads this, pd, words, present, btDma
    {
      && TablesOk() && vas.Keys == installed.Keys
      && forall b | b in vas ::
           vas[b].start % PAGE_SIZE == 0 && vas[b].size % PAGE_SIZE == 0 && vas[b].start + vas[b].size <= U32_LIMIT
    }

    /** What every operation keeps: the tables hold what the bo_vas say... */
    ghost predicate Valid()
      reads this, pd, words, present, btDma
    {
      Sound() && VmSound(Abs())
    }

    /** ...and nothing else, which a deletion can end. */
    ghost predicate Exact()
      requires Shape() && vas.Keys == installed.Keys
      reads this, words
    {
      NoStrays(Abs())
    }

    /** A view in which a mapping loop has failed in an unused stretch of pages. */
    ghost function Without(start: nat, undone: nat): View
      requires Shape() && vas.Keys == installed.Keys
      reads this, words
    {
      View(Cut(Mapped(), start, undone), Nodes(), reserved)
    }

    constructor (pdDma: nat, reserved: Table)
      requires pdDma % PAGE_SIZE == 0 && pdDma + PAGE_SIZE <= U32_LIMIT
      ensures TablesOk() && Mapped() == map[] && vas == map[] && installed == map[]
      ensures this.pdDma == pdDma && this.reserved == reserved && forall b | 0 <= b < BT_COUNT :: !present[b]
      ensures fresh(pd) && fresh(words) && fresh(present) && fresh(btDma)
    {
      this.pdDma := pdDma;
      this.reserved := reserved;
      pd := new nat[PD_ENTRIES](_ => 0);
      words := new nat[PAGE_COUNT](_ => 0);
      present := new bool[BT_COUNT](_ => false);
      btDma := new nat[BT_COUNT](_ => 0);
      vas, installed := map[], map[];
    }

    /**
     lima_vm_create: an empty address space, in which the DLBU page is mapped when the device has
     one.  `directory` is the address of the zeroed directory page (None: out of memory).
     */
    static method Create(directory: Option<nat>, dlbu: Option<nat>, alloc: Answers) returns (vm: LimaVm?)
      requires directory.Some? ==>
                 && directory.value % PAGE_SIZE == 0 && directory.value + PAGE_SIZE <= U32_LIMIT
                 && forall b | 0 <= b < BT_COUNT && alloc[b].Some? ::
                      && alloc[b].value % PAGE_SIZE == 0
                      && Disjoint(alloc[b].value, BT_BYTES, directory.value, PAGE_SIZE)
                      && forall c | 0 <= c < BT_COUNT && c != b && alloc[c].Some? ::
                           Disjoint(alloc[b].value, BT_BYTES, alloc[c].value, BT_BYTES)
      requires dlbu.Some? ==> dlbu.value % PAGE_SIZE == 0
      ensures vm != null <==>
                directory.Some? && (dlbu.Some? ==> dlbu.value <= LAST_PAGE && Usable(Pbe(RESERVE_DLBU), alloc))
      ensures vm != null ==>
                && fresh(vm) && fresh(vm.pd) && fresh(vm.words) && fresh(vm.present) && fresh(vm.btDma)
                && vm.Valid() && vm.Exact() && vm.vas == map[] && vm.AllocOk(alloc) && vm.pdDma == directory.value
                && (forall b | 0 <= b < BT_COUNT && vm.present[b] :: dlbu.Some? && b == Pbe(RESERVE_DLBU))
                && vm.Abs() == VmSpec.Create(if dlbu.Some? then map[Page(RESERVE_DLBU) := dlbu.value] else map[])
                && vm.Mapped() == if dlbu.Some? then map[Page(RESERVE_DLBU) := dlbu.value] else map[]
    {
      if directory.None? {
        return null;
      }
      var kept: Table := if dlbu.Some? then map[Page(RESERVE_DLBU) := dlbu.value] else map[];
      var made := new LimaVm(directory.value, kept);
      forall b | 0 <= b < BT_COUNT ensures made.AllocSlotOk(b, alloc) {}
      if dlbu.Some? {
        var err := made.MapPage(dlbu.value, RESERVE_DLBU, alloc);
        if err != Ok {
          return null;
        }
      }
      return made;
    }

    method SetRefs(b: BoId, refs: nat)
      requires Sound() && b in vas
      modifies this
      ensures Sound() && vas == old(vas)[b := BoVa(old(vas)[b].start, old(vas)[b].size, refs)]
      ensures Abs() == View(old(Mapped()), old(Nodes())[b := old(NodeOf(b)).WithRefs(refs)], reserved)
    {
      vas := vas[b := BoVa(vas[b].start, vas[b].size, refs)];
      assert Nodes() == old(Nodes())[b := old(NodeOf(b)).WithRefs(refs)];
    }

    /** lima_vm_bo_add once drm_mm has reserved the range. */
    method MapNew(b: BoId, start: u32, size: nat, pages: seq<nat>, alloc: Answers)
      returns (err: Errno, ghost undone: nat)
      requires Sound() && AllocOk(alloc) && b !in vas
      requires start % PAGE_SIZE == 0 && size % PAGE_SIZE == 0 && |pages| * PAGE_SIZE <= size
      requires start + size <= U32_LIMIT
      requires forall i | 0 <= i < |pages| :: pages[i] % PAGE_SIZE == 0
      modifies this, pd, words, present, btDma
      ensures vas == if err == Ok then old(vas)[b := BoVa(start, size, 1)] else old(vas)
      ensures Sound() && AllocOk(alloc) && Grown(alloc)
      ensures err == Ok <==> old(AllMappable(Page(start), pages, alloc))
      ensures err != Ok ==> undone < |pages| && Abs() == old(Without(Page(start), undone))
      ensures err == Ok ==> Abs() == Insert(old(Abs()), b, NewNode(start, size, pages))
    {
      err, undone := MapRange(start, pages, alloc);
      if err == Ok {
        vas := vas[b := BoVa(start, size, 1)];
        installed := installed[b := Range(Page(start), pages)];
        assert Nodes() == old(Nodes())[b := NodeOf(b)];
      }
    }

    /** The same with the facts about the range drm_mm chose: all pages are mapped, or no live range changes. */
    method AddNew(b: BoId, start: u32, size: nat, pages: seq<nat>, alloc: Answers)
      returns (err: Errno, ghost undone: nat)
      requires Valid() && AllocOk(alloc) && b !in vas
      requires start % PAGE_SIZE == 0 && size % PAGE_SIZE == 0 && |pages| * PAGE_SIZE <= size
      requires forall i | 0 <= i < |pages| :: pages[i] % PAGE_SIZE == 0
      requires Free(Abs(), NewNode(start, size, pages))
      modifies this, pd, words, present, btDma
      ensures vas == if err == Ok then old(vas)[b := BoVa(start, size, 1)] else old(vas)
      ensures Valid() && AllocOk(alloc) && Grown(alloc) && (old(Exact()) ==> Exact())
      ensures err == Ok <==> old(AllMappable(Page(start), pages, alloc))
      ensures err == Ok ==> Abs() == Insert(old(Abs()), b, NewNode(start, size, pages))
      ensures err != Ok ==> undone < |pages| && Abs() == old(Without(Page(start), undone))
      ensures err != Ok && old(Exact()) ==> Abs() == old(Abs())
      ensures err == Ok ==>
                Shows(Mapped(), Page(start), pages) && SameOutside(old(Mapped()), Mapped(), NewNode(start, size, pages))
    {
      ghost var before, n := Abs(), NewNode(start, size, pages);
      err, undone := MapNew(b, start, size, pages, alloc);
      if err == Ok {
        RangeInside(before.table, n, Page(start), pages);
        InsertSound(before, b, n);
        if NoStrays(before) { InsertOk(before, b, n); }
      } else {
        FreeIsUnused(before, n, undone);
        CutSound(before, Page(start), undone);
      }
    }

    /**
     lima_vm_bo_add: takes a reference on an existing range, or creates one and maps every page of
     the buffer's sg table.  A failure at any point leaves all live ranges as they were.  It goes
     wrong (`ok` is false) exactly when it creates a range and base.sgt is NULL.
     */
    method BoAdd(b: BoId, size: nat, sgt: Option<seq<nat>>, create: bool, kzalloc: bool,
                 range: Option<u32>, alloc: Answers)
      returns (ok: bool, err: Errno, ghost undone: nat)
      requires Valid() && AllocOk(alloc) && size % PAGE_SIZE == 0
      requires sgt.Some? ==>
                 |sgt.value| * PAGE_SIZE <= size && forall i | 0 <= i < |sgt.value| :: sgt.value[i] % PAGE_SIZE == 0
      requires b !in vas && range.Some? ==>
                 range.value % PAGE_SIZE == 0 && Free(Abs(), NewNode(range.value, size, Pages(sgt)))
      modifies this, pd, words, present, btDma
      ensures ok <==> b in old(vas) || !create || !kzalloc || range.None? || sgt.Some?
      ensures ok ==> Valid() && AllocOk(alloc) && Grown(alloc) && (old(Exact()) ==> Exact())
      ensures b in old(vas) ==> err == Ok && Abs() == AddRef(old(Abs()), b)
      ensures b in old(vas) ==> vas == old(vas[b := vas[b].WithRefs(vas[b].refs + 1)]) && Mapped() == old(Mapped())
      ensures b !in old(vas) && !create ==> err == ENOENT
      ensures b !in old(vas) && create && !kzalloc ==> err == ENOMEM
      ensures b !in old(vas) && create && kzalloc && range.None? ==> err == ENOSPC
      ensures b !in old(vas) && create && kzalloc && range.Some? && ok ==>
                (err == Ok <==> old(AllMappable(Page(range.value), Pages(sgt), alloc)))
      ensures b !in old(vas) && ok && err == Ok ==>
                range.Some? && Abs() == Insert(old(Abs()), b, NewNode(range.value, size, Pages(sgt)))
      ensures b !in old(vas) && ok && err == Ok ==>
                range.Some? && sgt.Some? && vas == old(vas)[b := BoVa(range.value, size, 1)] &&
                Shows(Mapped(), Page(range.value), sgt.value) &&
                SameOutside(old(Mapped()), Mapped(), NewNode(range.value, size, sgt.value))
      ensures b !in old(vas) && (!ok || err != Ok) ==> vas == old(vas)
      ensures ok && err != Ok && !(create && kzalloc && range.Some?) ==> Abs() == old(Abs())
      ensures ok && err != Ok && create && kzalloc && range.Some? ==> Abs() == old(Without(Page(range.value), undone))
      ensures ok && err != Ok && old(Exact()) ==> Abs() == old(Abs())
    {
      undone := 0;
      if b in vas {
        CountUp(b);
        return true, Ok, 0;
      }
      if !create {
        return true, ENOENT, 0;
      }
      if !kzalloc {
        return true, ENOMEM, 0;
      }
      if range.None? {
        return true, ENOSPC, 0;
      }
      if sgt.None? {
        return false, EINVAL, 0;
      }
      err, undone := AddNew(b, range.value, size, sgt.value, alloc);
      ok := true;
    }

    /** `bo_va->ref_count++` */
    method CountUp(b: BoId)
      requires Valid() && b in vas
      modifies this
      ensures Valid() && (old(Exact()) ==> Exact()) && Abs() == AddRef(old(Abs()), b)
      ensures vas == old(vas[b := vas[b].WithRefs(vas[b].refs + 1)]) && Mapped() == old(Mapped())
    {
      ghost var before := Abs();
      RefSound(before, b, before.vas[b].refs + 1);
      SetRefs(b, vas[b].refs + 1);
    }

    /** `--bo_va->ref_count > 0` */
    method CountDown(b: BoId)
      requires Valid() && b in vas && vas[b].refs > 1
      modifies this
      ensures Valid() && (old(Exact()) ==> Exact()) && vas == old(vas[b := vas[b].WithRefs(vas[b].refs - 1)])
      ensures Abs() == View(old(Mapped()), old(Nodes())[b := old(NodeOf(b)).WithRefs(old(vas[b].refs) - 1)], reserved)
    {
      ghost var before := Abs();
      RefSound(before, b, before.vas[b].refs - 1);
      SetRefs(b, vas[b].refs - 1);
    }

    /** The bytes lima_vm_bo_del unmaps: the populated part of a heap, the whole range otherwise. */
    function UnmapSize(b: BoId, heapSize: nat): nat
      requires b in vas
      reads this
    {
      if heapSize != 0 then heapSize else vas[b].size
    }

    ghost function UnmapPages(b: BoId, heapSize: nat): nat
      requires b in vas
      reads this
    {
      UnmapSize(b, heapSize) / PAGE_SIZE
    }

    /** The range ends below 4 GiB and the unmapped part is whole pages of it (`Geometry.RangeUnmapEnds`). */
    ghost predicate Deletable(b: BoId, heapSize: nat)
      requires b in vas
      reads this
    {
      var size := UnmapSize(b, heapSize);
      size % PAGE_SIZE == 0 && 0 < size <= vas[b].size && vas[b].start + size < U32_LIMIT
    }

    /** Every slot lima_vm_bo_del would write to has its backing table. */
    ghost predicate DelBacked(b: BoId, heapSize: nat)
      requires Sound() && b in vas && Deletable(b, heapSize)
      reads this, pd, words, present, btDma
    {
      Backed(vas[b].start / PAGE_SIZE, UnmapSize(b, heapSize) / PAGE_SIZE)
    }

    /** lima_vm_bo_del when this was the last user: unmap, give the range back, forget the bo_va. */
    method Forget(b: BoId, heapSize: nat) returns (ok: bool)
      requires Sound() && b in vas && Deletable(b, heapSize)
      modifies this, words
      ensures ok == old(DelBacked(b, heapSize))
      ensures ok ==> Sound() && vas == old(vas) - {b}
      ensures ok ==> Abs() == View(Cut(old(Mapped()), old(NodeOf(b)).start, old(UnmapPages(b, heapSize))),
                                   old(Nodes()) - {b}, reserved)
    {
      var start, size := vas[b].start, UnmapSize(b, heapSize);
      assert (start + size - 1) / PAGE_SIZE + 1 - start / PAGE_SIZE == size / PAGE_SIZE;
      ok := UnmapRange(start, start + size - 1);
      if ok {
        vas := vas - {b};
        installed := installed - {b};
        assert Nodes() == old(Nodes()) - {b};
      }
    }

    /** The same with what it means for the tables. */
    method Release(b: BoId, heapSize: nat) returns (ok: bool)
      requires Valid() && b in vas && vas[b].refs == 1 && Deletable(b, heapSize)
      modifies this, words
      ensures ok == old(DelBacked(b, heapSize))
      ensures ok ==> Valid() && vas == old(vas) - {b}
      ensures ok ==> Abs() == Remove(old(Abs()), b, old(UnmapPages(b, heapSize)))
      ensures ok && old(Exact()) ==> (Exact() <==> !old(Overhangs(NodeOf(b), UnmapPages(b, heapSize))))
      ensures ok ==> SameOutside(old(Mapped()), Mapped(), old(NodeOf(b)))
    {
      ghost var before, cut, n := Abs(), UnmapPages(b, heapSize), NodeOf(b);
      assert before.vas[b] == n && n.Sane();
      ok := Forget(b, heapSize);
      if ok {
        DropSound(before, b, cut);
        if NoStrays(before) { DropOk(before, b, cut); }
        CutInside(before.table, n, cut);
      }
    }

    /**
     lima_vm_bo_del: drops one user.  With the last the range is released, and its first `heapSize`
     bytes, or, if that is 0, all of it, unmapped; nothing outside the range changes.  It goes wrong
     (`ok` is false) exactly when the last user goes and some slot of the unmapped part never got a
     backing table (`BackedWhenCovered`, `SharedHeapScenario`).  The table stays exact if and only if no
     installed page lies past the unmapped part (`EarlyOpenScenario`), so always for an ordinary buffer.
     */
    method BoDel(b: BoId, heapSize: nat) returns (ok: bool)
      requires Valid() && b in vas
      requires vas[b].refs == 1 ==> Deletable(b, heapSize)
      modifies this, words
      ensures ok <==> old(vas[b].refs != 1 || DelBacked(b, heapSize))
      ensures ok ==> Valid() && Abs() == Drop(old(Abs()), b, old(UnmapPages(b, heapSize)))
      ensures ok && old(vas[b].refs) > 1 ==>
                Mapped() == old(Mapped()) && vas == old(vas[b := vas[b].WithRefs(vas[b].refs - 1)])
      ensures ok && old(vas[b].refs) == 1 ==>
                vas == old(vas) - {b} && SameOutside(old(Mapped()), Mapped(), old(NodeOf(b)))
      ensures ok && old(vas[b].refs) == 1 && heapSize == 0 ==> forall p | old(NodeOf(b)).Owns(p) :: p !in Mapped()
      ensures ok && old(vas[b].refs) == 1 && heapSize != 0 ==> Abs() == Remove(old(Abs()), b, heapSize / PAGE_SIZE)
      ensures ok && old(Exact()) ==>
                (Exact() <==> old(vas[b].refs > 1 || !Overhangs(NodeOf(b), UnmapPages(b, heapSize))))
      ensures ok && old(Exact()) && (old(vas[b].refs) > 1 || heapSize == 0) ==> Exact()
    {
      ghost var n := NodeOf(b);
      assert Abs().vas[b] == n && n.Sane();
      if vas[b].refs > 1 {
        CountDown(b);
        ok := true;
      } else {
        assert heapSize == 0 ==> !Overhangs(n, UnmapPages(b, heapSize));
        ok := Release(b, heapSize);
      }
    }

    /** A range whose unmapped part was installed here page by page can always be deleted. */
    lemma BackedWhenCovered(b: BoId, heapSize: nat)
      requires Valid() && b in vas && Deletable(b, heapSize)
      requires forall p: nat | 0 <= p - vas[b].start / PAGE_SIZE < UnmapSize(b, heapSize) / PAGE_SIZE ::
                 p in installed[b]
      ensures DelBacked(b, heapSize)
    {
      var first, n := vas[b].start / PAGE_SIZE, UnmapSize(b, heapSize) / PAGE_SIZE;
      assert Holds(Abs().table, Abs().vas[b].pages) && Abs().vas[b].Sane();
      forall p: nat | first <= p < first + n ensures present[p / BT_ENTRIES] {
        assert p in installed[b] && p in Mapped() && WordOk(p);
      }
    }

    /** lima_vm_map_bo once the bo_va is found. */
    method MapMore(b: BoId, base: u32, pages: seq<nat>, alloc: Answers) returns (err: Errno, ghost undone: nat)
      requires Sound() && AllocOk(alloc) && b in vas
      requires base % PAGE_SIZE == 0 && base + |pages| * PAGE_SIZE <= U32_LIMIT
      requires forall i | 0 <= i < |pages| :: pages[i] % PAGE_SIZE == 0
      modifies this, pd, words, present, btDma
      ensures Sound() && AllocOk(alloc) && vas == old(vas)
      ensures err == Ok <==> old(AllMappable(Page(base), pages, alloc))
      ensures err != Ok ==> undone < |pages| && !old(MappableAt(Page(base), pages, undone, alloc))
      ensures err == Ok ==> Abs() == Extend(old(Abs()), b, Range(Page(base), pages))
      ensures err != Ok ==> Abs() == old(Without(Page(base), undone))
    {
      ghost var before, part := Abs(), Range(Page(base), pages);
      err, undone := MapRange(base, pages, alloc);
      if err == Ok {
        installed := installed[b := installed[b] + part];
        assert Nodes() == before.vas[b := before.vas[b].Grown(part)];
      }
    }

    /** The page number `pageOff` pages into the range of `b`. */
    ghost function PageOf(b: BoId, pageOff: nat): nat
      requires b in vas
      reads this
    {
      vas[b].start / PAGE_SIZE + pageOff
    }

    /** Nothing is installed from page number `first` on, or just these pages. */
    ghost predicate Ready(b: BoId, first: nat, pages: seq<nat>)
      requires b in installed
      reads this
    {
      (forall p | p in installed[b] :: p < first) || Holds(installed[b], Range(first, pages))
    }

    /** Pages that are installed can be installed again. */
    lemma InstalledIsMappable(b: BoId, first: nat, pages: seq<nat>, alloc: Answers)
      requires Valid() && b in vas && first + |pages| <= PAGE_COUNT
      requires Holds(installed[b], Range(first, pages))
      ensures AllMappable(first, pages, alloc)
    {
      assert Abs().vas[b] == NodeOf(b) && Holds(Abs().table, Abs().vas[b].pages);
      forall i | 0 <= i < |pages| ensures MappableAt(first, pages, i, alloc) {
        var p := first + i;
        assert Between(first, p, |pages|) && p in Range(first, pages) && p in installed[b];
        assert p in Mapped() && Mapped()[p] == pages[i] && WordOk(p);
      }
    }

    /** lima_vm_map_bo on a live range, for at least one page. */
    method MapIn(b: BoId, pageOff: nat, pages: seq<nat>, alloc: Answers) returns (err: Errno, ghost undone: nat)
      requires Valid() && AllocOk(alloc) && b in vas && pages != []
      requires forall i | 0 <= i < |pages| :: pages[i] % PAGE_SIZE == 0
      requires pageOff + |pages| <= vas[b].size / PAGE_SIZE && Ready(b, PageOf(b, pageOff), pages)
      modifies this, pd, words, present, btDma
      ensures Valid() && AllocOk(alloc) && (old(Exact()) ==> Exact()) && vas == old(vas)
      ensures err == Ok <==> old(AllMappable(PageOf(b, pageOff), pages, alloc))
      ensures err == Ok ==> Abs() == Extend(old(Abs()), b, Range(old(PageOf(b, pageOff)), pages))
      ensures err != Ok ==>
                (forall p | p in old(installed[b]) :: p < old(PageOf(b, pageOff))) && undone < |pages| &&
                Abs() == old(Without(PageOf(b, pageOff), undone))
      ensures err != Ok && old(Exact()) ==> Abs() == old(Abs())
    {
      ghost var before, first := Abs(), PageOf(b, pageOff);
      var base := vas[b].start + pageOff * PAGE_SIZE;
      assert Page(base) == first && before.vas[b] == NodeOf(b) && before.vas[b].Sane();
      ghost var again := !(forall p | p in installed[b] :: p < first);
      if again { InstalledIsMappable(b, first, pages, alloc); }
      err, undone := MapMore(b, base, pages, alloc);
      MapBoSound(before, b, first, pages, err == Ok, undone);
    }

    /**
     lima_vm_map_bo: maps more pages of a buffer that already has a range, `pageOff` pages into it, or
     leaves all live ranges as they were.
     */
    method MapBo(b: BoId, pageOff: nat, pages: seq<nat>, alloc: Answers) returns (err: Errno, ghost undone: nat)
      requires Valid() && AllocOk(alloc)
      requires forall i | 0 <= i < |pages| :: pages[i] % PAGE_SIZE == 0
      requires b in vas ==> pageOff + |pages| <= vas[b].size / PAGE_SIZE && Ready(b, PageOf(b, pageOff), pages)
      modifies this, pd, words, present, btDma
      ensures Valid() && AllocOk(alloc) && (old(Exact()) ==> Exact()) && vas == old(vas)
      ensures b !in old(vas) ==> err == ENOENT && Abs() == old(Abs())
      ensures b in old(vas) ==> (err == Ok <==> old(AllMappable(PageOf(b, pageOff), pages, alloc)))
      ensures err == Ok ==> b in vas && Abs() == Extend(old(Abs()), b, Range(old(PageOf(b, pageOff)), pages))
      ensures err == Ok ==>
                && Shows(Mapped(), vas[b].start / PAGE_SIZE + pageOff, pages)
                && SameOutside(old(Mapped()), Mapped(), old(NodeOf(b)))
      ensures b in old(vas) && err != Ok ==>
                (forall p | p in old(installed[b]) :: p < old(PageOf(b, pageOff))) && undone < |pages| &&
                Abs() == old(Without(PageOf(b, pageOff), undone))
      ensures err != Ok && old(Exact()) ==> Abs() == old(Abs())
    {
      if b !in vas {
        return ENOENT, 0;
      }
      RangeInside(Mapped(), NodeOf(b), PageOf(b, pageOff), pages);
      if pages == [] {
        ExtendByNothing(Abs(), b, Range(PageOf(b, pageOff), pages));
        return Ok, 0;
      }
      err, undone := MapIn(b, pageOff, pages, alloc);
    }
  }

  lemma MapBoSound(w: View, b: BoId, first: nat, pages: seq<nat>, done: bool, undone: nat)
    requires VmSound(w) && b in w.vas && w.vas[b].start <= first && first + |pages| <= w.vas[b].start + w.vas[b].size
    requires done ==> Room(w, b, Range(first, pages))
    requires !done ==> undone <= |pages| && forall p | p in w.vas[b].pages :: p < first
    ensures done ==>
              && VmSound(Extend(w, b, Range(first, pages)))
              && (NoStrays(w) ==> NoStrays(Extend(w, b, Range(first, pages))))
    ensures !done ==> VmSound(View(Cut(w.table, first, undone), w.vas, w.reserved))
    ensures !done && NoStrays(w) ==> Cut(w.table, first, undone) == w.table
  {
    if done {
      ExtendSound(w, b, Range(first, pages));
      if NoStrays(w) { ExtendOk(w, b, Range(first, pages)); }
    } else {
      OwnTailUnused(w, b, first, undone);
      CutSound(w, first, undone);
    }
  }

  const SMALL_HEAP: seq<nat> := seq(8, i => 0x4000_0000 + i * PAGE_SIZE)

  /** The allocator can serve the first slot only. */
  const FIRST_SLOT: Answers := seq(128, b => if b == 0 then Some(0x2000_0000) else None)

  method NewSmall() returns (vm: LimaVm)
    ensures fresh(vm) && fresh(vm.words) && fresh(vm.pd) && fresh(vm.present) && fresh(vm.btDma)
    ensures vm.Valid() && vm.Exact() && vm.AllocOk(FIRST_SLOT) && vm.vas == map[] && vm.Abs() == VmSpec.Create(map[])
    ensures !vm.present[1] && vm.AllMappable(0, SMALL_HEAP, FIRST_SLOT)
  {
    vm := LimaVm.Create(Some(0x1000_0000), None, FIRST_SLOT);
    forall i | 0 <= i < |SMALL_HEAP| ensures vm.MappableAt(0, SMALL_HEAP, i, FIRST_SLOT) {}
  }

  /** An address space in which the eight populated pages of a 64 MiB heap are mapped, at address 0. */
  method OpenSmallHeap() returns (vm: LimaVm)
    ensures fresh(vm) && fresh(vm.words) && vm.Valid() && vm.Exact() && !vm.present[1]
    ensures vm.vas == map[7 := BoVa(0, 0x400_0000, 1)]
    ensures vm.Abs() == Insert(VmSpec.Create(map[]), 7, NewNode(0, 0x400_0000, SMALL_HEAP))
  {
    vm := NewSmall();
    ghost var undone;
    var err;
    err, undone := vm.AddNew(7, 0, 0x400_0000, SMALL_HEAP, FIRST_SLOT);
  }

  /**
   A heap shared between two address spaces.  This one opens it while eight pages are populated;
   the other one grows it to 64 MiB, which installs pages only there.  Closing the handle here
   then unmaps 64 MiB, and runs into the second slot, which never got a table.
   */
  method SharedHeapScenario() returns (ok: bool)
    ensures !ok
  {
    var vm := OpenSmallHeap();
    ghost var p := BT_ENTRIES;
    assert !vm.present[p / BT_ENTRIES];
    ok := vm.BoDel(7, 0x400_0000);
  }

  /**
   A heap opened in the middle of its growth.  The sg table lists eight pages already, of which this
   address space installs all; heap_size still says four.  Closing the handle now unmaps four pages:
   the other four stay mapped, with no range.
   */
  method EarlyOpenScenario() returns (vm: LimaVm, ok: bool)
    ensures ok && vm.Valid() && !vm.Exact() && vm.Abs() == View(Range(4, SMALL_HEAP[4..]), map[], map[])
  {
    vm := OpenSmallHeap();
    ghost var n := NewNode(0, 0x400_0000, SMALL_HEAP);
    SmallHeapCut(n);
    assert vm.NodeOf(7) == vm.Abs().vas[7] == n;
    assert vm.vas[7] == BoVa(0, 0x400_0000, 1) && vm.installed[7] == n.pages && vm.UnmapSize(7, 0x4000) == 0x4000;
    vm.BackedWhenCovered(7, 0x4000);
    ok := vm.BoDel(7, 0x4000);
  }

  lemma SmallHeapCut(n: Node)
    requires n == NewNode(0, 0x400_0000, SMALL_HEAP)
    ensures (forall p: nat :: p in n.pages <==> p < 8) && Overhangs(n, 4)
    ensures Drop(Insert(VmSpec.Create(map[]), 7, n), 7, 4) == View(Range(4, SMALL_HEAP[4..]), map[], map[])
  {
    assert forall p: nat :: p in n.pages <==> Between(0, p, 8);
    assert Overhangs(n, 4) by { assert 5 in n.pages; }
    assert forall p: nat :: p in Range(4, SMALL_HEAP[4..]) <==> Between(4, p, 4);
    var table: Table := map[];
    assert Cut(table + n.pages, 0, 4) == Range(4, SMALL_HEAP[4..]);
    var vas: Vas := map[];
    assert vas[7 := n] - {7} == vas;
  }
}
