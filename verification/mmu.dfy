/**
 The register sequences of lima_mmu.c on a model of one MMU.  Between any two register writes the
 hardware may walk the tables for any pages it likes, also while stalled: `fills` lists them.
 `memory` maps the bus address of a page directory to the translations reachable from it.
 */
module LimaMmu {
  import opened Wrappers
  import opened Geometry
  import opened VmSpec

  type Memory = map<nat, Table>

  const TEST_PATTERN := 0xCAFE_BABE

  /** What DTE_ADDR keeps of a value written to it. */
  function DteOf(value: nat): nat { value / PAGE_SIZE * PAGE_SIZE }

  /** Every cached translation is one the directory `dte` gives. */
  ghost predicate Coherent(memory: Memory, dte: nat, tlb: Table) {
    forall p {:trigger p in tlb} {:trigger tlb[p]} | p in tlb ::
      dte in memory && p in memory[dte] && memory[dte][p] == tlb[p]
  }

  class Mmu {
    var dte: nat
    var tlb: Table
    var paging: bool
    var stalled: bool
    var faulted: bool       // STATUS has PAGE_FAULT_ACTIVE
    var armed: bool         // INT_MASK lets page faults and bus errors through

    /** One walk: only a present entry is cached. */
    method Walk(page: nat, memory: Memory)
      modifies `tlb
      ensures tlb == if dte in memory && page in memory[dte] then old(tlb)[page := memory[dte][page]] else old(tlb)
    {
      if dte in memory && page in memory[dte] {
        tlb := tlb[page := memory[dte][page]];
      }
    }

    /** Any number of walks. */
    method Walks(fills: seq<nat>, memory: Memory)
      modifies `tlb
      ensures Coherent(memory, dte, old(tlb)) ==> Coherent(memory, dte, tlb)
      ensures forall p | p in old(tlb) :: p in tlb
    {
      var i := 0;
      while i < |fills|
        invariant i <= |fills| && (Coherent(memory, dte, old(tlb)) ==> Coherent(memory, dte, tlb))
        invariant forall p | p in old(tlb) :: p in tlb
      {
        Walk(fills[i], memory);
        i := i + 1;
      }
    }

    method WriteDte(value: nat)
      modifies `dte
      ensures dte == DteOf(value)
    {
      dte := value / PAGE_SIZE * PAGE_SIZE;
    }

    /** LIMA_MMU_COMMAND_ZAP_CACHE: lima_mmu_flush_tlb is this one write. */
    method FlushTlb()
      modifies `tlb
      ensures tlb == map[] && forall memory :: Coherent(memory, dte, tlb)
    {
      tlb := map[];
    }

    /**
     lima_mmu_switch_vm: stall, directory, zap, unstall.  Whatever is cached before, and whatever is
     walked between the writes, afterwards every cached translation is one of the new address
     space; the order of the two middle writes gives that even if the stall did not.
     */
    method SwitchVm(pd: nat, memory: Memory, fills: seq<seq<nat>>)
      requires pd % PAGE_SIZE == 0 && |fills| == 4
      modifies this
      ensures dte == pd && !stalled && Coherent(memory, pd, tlb)
      ensures paging == old(paging) && faulted == old(faulted) && armed == old(armed)
    {
      stalled := true;
      Walks(fills[0], memory);
      WriteDte(pd);
      Walks(fills[1], memory);
      FlushTlb();
      Walks(fills[2], memory);
      stalled := false;
      Walks(fills[3], memory);
    }

    /** LIMA_MMU_COMMAND_HARD_RESET */
    method HardReset()
      modifies this
      ensures dte == 0 && tlb == map[] && !paging && !stalled && !faulted && !armed
    {
      dte, tlb, paging, stalled, faulted, armed := 0, map[], false, false, false, false;
    }

    /** lima_mmu_hw_init; the two polls say whether the reset and the enabling complete in time. */
    method HwInit(emptyPd: nat, reset: bool, enable: bool) returns (err: Errno)
      requires emptyPd % PAGE_SIZE == 0
      modifies this
      ensures err == Ok <==> reset && enable
      ensures err == Ok ==> dte == emptyPd && tlb == map[] && paging && armed && !faulted && !stalled
      ensures !reset ==> dte == 0 && !armed && !paging
    {
      HardReset();
      HardReset();
      if !reset {
        return EIO;
      }
      armed := true;
      WriteDte(emptyPd);
      paging := enable;
      err := if enable then Ok else EIO;
    }

    /** The self-test of lima_mmu_init: the register keeps the page-aligned part of the pattern. */
    method DteSelfTest() returns (readBack: nat)
      modifies `dte
      ensures readBack == dte == 0xCAFE_B000
    {
      WriteDte(TEST_PATTERN);
      readBack := dte;
    }

    /** lima_mmu_irq_handler up to the scheduler's part: it masks the MMU until it is resumed. */
    method IrqHandler(status: bool) returns (handled: bool)
      modifies `armed
      ensures handled == status && armed == (old(armed) && !status)
    {
      if !status {
        return false;
      }
      armed := false;
      handled := true;
    }

    /**
     lima_mmu_page_fault_resume: acts only on an MMU that reports an active page fault.  `reset` and
     `enable` say whether the MMU carries out the two commands; the source logs a poll that times out,
     and goes on.
     */
    method PageFaultResume(emptyPd: nat, reset: bool, enable: bool)
      requires emptyPd % PAGE_SIZE == 0
      modifies this
      ensures !old(faulted) ==>
                && dte == old(dte) && tlb == old(tlb) && paging == old(paging)
                && armed == old(armed) && !faulted && stalled == old(stalled)
      ensures old(faulted) ==> dte == emptyPd && armed && paging == (enable || (!reset && old(paging)))
      ensures old(faulted) ==>
                faulted == !reset && tlb == (if reset then map[] else old(tlb)) && stalled == (!reset && old(stalled))
    {
      if faulted {
        armed := false;
        WriteDte(TEST_PATTERN);
        if reset {
          HardReset();
        }
        armed := true;
        WriteDte(emptyPd);
        paging := paging || enable;
      }
    }

    /**
     From interrupt to recovery: the MMU's interrupts are armed again exactly if it had reported an
     active page fault, whether or not it could be reset.  After a bus error without one they stay
     masked until the next power-up.
     */
    method InterruptAndRecover(emptyPd: nat, reset: bool, enable: bool)
      requires emptyPd % PAGE_SIZE == 0 && armed
      modifies this
      ensures armed <==> old(faulted)
    {
      var handled := IrqHandler(true);
      PageFaultResume(emptyPd, reset, enable);
    }
  }
}
