/**
 The address arithmetic of the Mali-400 MMU (lima_vm.h, and the macros at the top of lima_vm.c).

 A virtual address is a 32-bit number.  Shifting right by k and masking the low k bits are
 division and remainder by 2^k; `IndexBits` states that on bit vectors, and the rest of the model
 uses the arithmetic form.
 */
module Geometry {

  const PAGE_SIZE := 0x1000
  const U32_LIMIT := 0x1_0000_0000
  const PAGE_COUNT := 0x10_0000   // pages in the 32-bit space
  const PD_ENTRIES := 1024        // LIMA_PAGE_ENT_NUM
  const PT_ENTRIES := 1024
  const PT_PER_BT := 8            // LIMA_VM_NUM_PT_PER_BT
  const BT_COUNT := 128           // LIMA_VM_NUM_BT
  const BT_ENTRIES := 8192
  const BT_BYTES := 0x8000        // LIMA_PAGE_SIZE << LIMA_VM_NUM_PT_PER_BT_SHIFT
  const PRESENT := 1              // LIMA_VM_FLAG_PRESENT
  const FLAGS_CACHE := 0x1DF      // LIMA_VM_FLAGS_CACHE
  const LAST_PAGE := 0xFFFF_F000  // the last page-aligned 32-bit address
  const RESERVE_DLBU := 0xFFF0_0000

  type u32 = x: int | 0 <= x < 0x1_0000_0000

  function Pde(va: u32): nat { va / 0x40_0000 }

  function Pte(va: u32): nat { va % 0x40_0000 / 0x1000 }

  function Pbe(va: u32): nat { va / 0x200_0000 }

  function Bte(va: u32): nat { va % 0x200_0000 / 0x1000 }

  /** The page number of an address: what a (Pbe, Bte) pair and a (Pde, Pte) pair both encode. */
  function Page(va: u32): nat { va / 0x1000 }

  /**
   The directory/table pair the hardware uses and the backing-table pair the driver uses
   address the same word: eight page tables are laid end to end in one backing table.
   */
  lemma SameSlot(va: u32)
    ensures Pde(va) < PD_ENTRIES && Pte(va) < PT_ENTRIES && Pbe(va) < BT_COUNT && Bte(va) < BT_ENTRIES
    ensures Pde(va) == Pbe(va) * PT_PER_BT + Bte(va) / PT_ENTRIES
    ensures Pte(va) == Bte(va) % PT_ENTRIES
    ensures Page(va) == Pbe(va) * BT_ENTRIES + Bte(va) == Pde(va) * PT_ENTRIES + Pte(va)
    ensures Pbe(va) == Page(va) / BT_ENTRIES && Bte(va) == Page(va) % BT_ENTRIES
  {}

  lemma PageAt(base: u32, i: nat)
    requires base % PAGE_SIZE == 0 && base + i * PAGE_SIZE < U32_LIMIT
    ensures Page(base + i * PAGE_SIZE) == Page(base) + i
    ensures i > 0 ==> Page(base + i * PAGE_SIZE - 1) == Page(base) + i - 1
    ensures Pbe(base + i * PAGE_SIZE) == (Page(base) + i) / BT_ENTRIES
    ensures Bte(base + i * PAGE_SIZE) == (Page(base) + i) % BT_ENTRIES
  {}

  /**
   The shift-and-mask forms of the C macros on 32-bit words: they are the quotients and
   remainders used above, and the two index pairs agree bit for bit.
   */
  lemma IndexBits(va: bv32)
    ensures va >> 22 == va / 0x40_0000
    ensures (va & 0x3F_FFFF) >> 12 == va % 0x40_0000 / 0x1000
    ensures va >> 25 == va / 0x200_0000
    ensures (va & 0x1FF_FFFF) >> 12 == va % 0x200_0000 / 0x1000
    ensures va >> 22 == ((va >> 25) << 3) | (((va & 0x1FF_FFFF) >> 12) >> 10)
    ensures (va & 0x3F_FFFF) >> 12 == ((va & 0x1FF_FFFF) >> 12) & 0x3FF
  {}

  /** Or-ing the flags into a page-aligned address is an addition... */
  lemma FlagsAreAdded(pa: bv32)
    requires pa & 0xFFF == 0
    ensures pa | 0x1DF == pa + 0x1DF
  {}

  /** ...and masking the low bits, as the hardware does, gives the address back. */
  lemma FlagsMaskOff(pa: bv32)
    requires pa & 0xFFF == 0
    ensures (pa | 0x1DF) & 0xFFFF_F000 == pa
  {}

  lemma OddIsPresent(k: nat)
    ensures (2 * k + 1) % 2 == 1
  {}

  lemma PageOfEntry(n: nat, w: nat)
    requires w == n * 4096 + 1
    ensures w / 4096 == n
  {}

  /** A directory entry decodes to its page table: no address bit is lost, and the present bit is set. */
  lemma EntryDecodes(dma: nat, j: nat)
    requires dma % PAGE_SIZE == 0
    ensures (dma + j * PAGE_SIZE + PRESENT) % 2 == PRESENT
    ensures (dma + j * PAGE_SIZE + PRESENT) / PAGE_SIZE * PAGE_SIZE == dma + j * PAGE_SIZE
  {
    var n := dma / PAGE_SIZE + j;
    assert n * PAGE_SIZE == dma + j * PAGE_SIZE;
    OddIsPresent(n * 2048);
    PageOfEntry(n, dma + j * PAGE_SIZE + PRESENT);
  }

  /** A leaf entry decodes to its page. */
  lemma LeafDecodes(word: nat)
    ensures word % PAGE_SIZE == FLAGS_CACHE ==>
              word % 2 == PRESENT && word / PAGE_SIZE * PAGE_SIZE == word - FLAGS_CACHE
  {}

  /** The loop variable of lima_vm_unmap_range after k rounds: a u32 stepped by one page. */
  function UnmapAddr(start: u32, k: nat): (addr: u32) { (start + k * PAGE_SIZE) % U32_LIMIT }

  lemma UnmapAddrAligned(start: u32, k: nat)
    requires start % PAGE_SIZE == 0
    ensures UnmapAddr(start, k) % PAGE_SIZE == 0
  {}

  /**
   The loop `for (addr = start; addr <= end; addr += 4096)` is left if and only if `end` is below
   the last page of the 4 GiB space; otherwise the u32 wraps to 0 and the loop never ends.
   */
  lemma UnmapLoopEnds(start: u32, end: u32)
    requires start % PAGE_SIZE == 0 && start <= end
    ensures (exists k: nat :: UnmapAddr(start, k) > end) <==> end < LAST_PAGE
  {
    if end < LAST_PAGE {
      var k := (LAST_PAGE - start) / PAGE_SIZE;
      assert start + k * PAGE_SIZE == LAST_PAGE;
      assert UnmapAddr(start, k) == LAST_PAGE;
    } else {
      forall k: nat ensures UnmapAddr(start, k) <= end {
        UnmapAddrAligned(start, k);
      }
    }
  }

  /**
   In the terms of a caller that unmaps a whole range: the loop ends if and only if the range stops
   short of 4 GiB.  With va_end at 0xFFF00000 (Mali-450) every range does; with va_end at 4 GiB
   (Mali-400) a range may hold the last page, and releasing that one never returns.
   */
  lemma RangeUnmapEnds(start: u32, size: nat, vaEnd: nat)
    requires start % PAGE_SIZE == 0 && size % PAGE_SIZE == 0 && size > 0 && start + size <= vaEnd <= U32_LIMIT
    ensures (exists k: nat :: UnmapAddr(start, k) > start + size - 1) <==> start + size < U32_LIMIT
    ensures vaEnd <= RESERVE_DLBU ==> exists k: nat :: UnmapAddr(start, k) > start + size - 1
  {
    UnmapLoopEnds(start, start + size - 1);
  }
}
