/**
 The platform interrupt bridge: the token standing for a device's interrupt
 (linux/platform_logic.h), and the set-up and tear-down of handlers (linux/platform_device.c).
 */
module PlatformIrq {
  import opened Wrappers

  const IRQ_TAG: bv32 := 0x71d0_0000
  const IRQ_TAG_MASK: bv32 := 0xfff0_0000

  /** LKPI_PLATFORM_IRQ_TOKEN and the macros that take it apart. */
  function Token(unit: bv32, idx: bv32): bv32 { IRQ_TAG | ((unit & 0xfff) << 8) | (idx & 0xff) }

  predicate IsToken(irq: bv32) { irq & IRQ_TAG_MASK == IRQ_TAG }

  function TokenIndex(irq: bv32): bv32 { irq & 0xff }

  function TokenUnit(irq: bv32): bv32 { (irq >> 8) & 0xfff }

  /** A token is recognised, decodes to its parts, and read as a signed int is not negative. */
  lemma TokenDecodes(unit: bv32, idx: bv32)
    requires unit < 4096 && idx < 256
    ensures IsToken(Token(unit, idx)) && Token(unit, idx) < 0x8000_0000
    ensures TokenIndex(Token(unit, idx)) == idx && TokenUnit(Token(unit, idx)) == unit
  {}

  /** So two devices, or two interrupts of one, never share a token... */
  lemma TokenInjective(u: bv32, i: bv32, v: bv32, j: bv32)
    requires u < 4096 && i < 256 && v < 4096 && j < 256 && Token(u, i) == Token(v, j)
    ensures u == v && i == j
  {}

  /** ...and every recognised number is the token of some unit and index. */
  lemma TokenOnto(irq: bv32)
    requires IsToken(irq)
    ensures irq == Token(TokenUnit(irq), TokenIndex(irq))
  {}

  /** struct lkpi_platform_irqe: the index it was set up for, and whether devres owns it. */
  datatype Entry = Entry(idx: nat, devres: bool)

  class PlatformDevice {
    const nirq: nat
    const irqTag: array<Option<nat>>       // the bus's cookie of the live handler; cookies are numbered
    const irqEnt: array<Option<Entry>>
    var devres: seq<Entry>                 // entries devres will release, newest last
    var setups: nat                        // successful bus_setup_intr calls so far
    ghost var torn: multiset<nat>          // bus_teardown_intr calls, by cookie

    /** Cookie `c` is live at one index and was never torn down, or at none and was torn down once. */
    ghost predicate CookieOk(c: nat)
      reads `torn, irqTag
    {
      if Some(c) in irqTag[..] then torn[c] == 0 else torn[c] == 1
    }

    ghost predicate SlotOk(i: nat)
      requires i < irqTag.Length == irqEnt.Length
      reads `setups, irqTag, irqEnt
    {
      && (irqTag[i].Some? ==> irqTag[i].value < setups && irqEnt[i].Some?)
      && (irqEnt[i].Some? ==> irqEnt[i].value.idx == i)
    }

    ghost predicate Valid()
      reads this, irqTag, irqEnt
    {
      && irqTag.Length == nirq == irqEnt.Length
      && (forall c | 0 <= c < setups :: CookieOk(c))
      && (forall c: nat {:trigger torn[c]} | c >= setups :: torn[c] == 0)
      && (forall i | 0 <= i < nirq :: SlotOk(i))
      && (forall i, j | 0 <= i < j < nirq && irqTag[i].Some? :: irqTag[i] != irqTag[j])
      && (forall k | 0 <= k < |devres| :: devres[k].idx < nirq)
    }

    constructor (nirq: nat)
      ensures Valid() && this.nirq == nirq && setups == 0 && devres == []
      ensures fresh(irqTag) && fresh(irqEnt) && forall i | 0 <= i < nirq :: irqTag[i] == None
    {
      this.nirq := nirq;
      irqTag, irqEnt := new Option<nat>[nirq](_ => None), new Option<Entry>[nirq](_ => None);
      devres, setups, torn := [], 0, multiset{};
    }

    /**
     lkpi_platform_request_irq for this device.  `handler`: one is given; `dev`: a struct device is
     given, so that devres owns the entry; `found`: the device is the one the token names.
     */
    method RequestIrq(irq: bv32, handler: bool, dev: bool, found: bool, alloc: bool, setup: Errno) returns (err: Errno)
      requires Valid()
      modifies this, irqTag, irqEnt
      ensures Valid()
      ensures err == Ok <==>
                && handler && IsToken(irq) && (dev || found) && Index(irq) < nirq
                && old(Free(Index(irq))) && alloc && setup == Ok
      ensures err == Ok ==> irqTag[..] == old(irqTag[..])[Index(irq) := Some(old(setups))] && setups == old(setups) + 1
      ensures err == Ok ==> devres == if dev then old(devres) + [Entry(Index(irq), true)] else old(devres)
      ensures err != Ok ==> irqTag[..] == old(irqTag[..]) && setups == old(setups) && devres == old(devres)
      ensures torn == old(torn)
    {
      if !handler {
        return EINVAL;
      }
      if !IsToken(irq) {
        return ENXIO;
      }
      if !dev && !found {
        return ENXIO;
      }
      var idx := Index(irq);
      if idx >= nirq {
        return ENXIO;
      }
      if irqTag[idx].Some? {
        return EBUSY;
      }
      if !alloc {
        return ENOMEM;
      }
      if setup != Ok {
        return setup;
      }
      SetUp(idx, Entry(idx, dev));
      if dev {
        devres := devres + [Entry(idx, true)];
      }
      err := Ok;
    }

    predicate Free(idx: nat)
      requires irqTag.Length == nirq
      reads irqTag
    {
      idx < nirq ==> irqTag[idx].None?
    }

    /** bus_setup_intr succeeding: a new cookie at a free index. */
    method SetUp(idx: nat, e: Entry)
      requires Valid() && idx < nirq && irqTag[idx].None? && e.idx == idx
      modifies `setups, irqTag, irqEnt
      ensures Valid() && irqTag[..] == old(irqTag[..])[idx := Some(old(setups))] && setups == old(setups) + 1
    {
      forall i | 0 <= i < nirq ensures irqTag[i] != Some(setups) {
        assert SlotOk(i);
      }
      irqTag[idx] := Some(setups);
      irqEnt[idx] := Some(e);
      setups := setups + 1;
      TagsAfter(old(irqTag[..]), irqTag[..], idx);
      forall c | 0 <= c < setups ensures CookieOk(c) {
        assert c < old(setups) ==> old(CookieOk(c));
      }
      forall i | 0 <= i < nirq ensures SlotOk(i) {
        assert old(SlotOk(i));
      }
    }

    /** bus_teardown_intr on the handler live at an index, if there is one. */
    method DropTag(idx: nat)
      requires Valid() && idx < nirq
      modifies `torn, irqTag
      ensures Valid() && irqTag[..] == old(irqTag[..])[idx := None]
      ensures torn == if old(irqTag[idx]).Some? then old(torn) + multiset{old(irqTag[idx]).value} else old(torn)
    {
      ghost var tags := irqTag[..];
      assert SlotOk(idx);
      if irqTag[idx].Some? {
        torn := torn + multiset{irqTag[idx].value};
        irqTag[idx] := None;
      }
      TagsAfter(tags, irqTag[..], idx);
      forall c | 0 <= c < setups ensures CookieOk(c) {
        assert old(CookieOk(c));
      }
      forall i | 0 <= i < nirq ensures SlotOk(i) {
        assert old(SlotOk(i));
      }
    }

    /** lkpi_platform_irq_teardown: idempotent, and blind to whose handler is live at the index. */
    method TearDown(idx: nat)
      requires Valid() && idx < nirq
      modifies `torn, irqTag, irqEnt
      ensures Valid() && irqTag[..] == old(irqTag[..])[idx := None] && irqEnt[idx] == None
      ensures torn == if old(irqTag[idx]).Some? then old(torn) + multiset{old(irqTag[idx]).value} else old(torn)
    {
      DropTag(idx);
      irqEnt[idx] := None;
      forall i | 0 <= i < nirq ensures SlotOk(i) {
        assert irqTag[i] == old(irqTag[..])[idx := None][i] && old(SlotOk(i));
      }
    }

    /** lkpi_platform_free_irq for this device; a devres entry stays on its list. */
    method FreeIrq(irq: bv32, dev: bool, found: bool)
      requires Valid()
      modifies `torn, irqTag, irqEnt
      ensures Valid() && devres == old(devres) && setups == old(setups)
      ensures irqTag[..] == if IsToken(irq) && (dev || found) && Index(irq) < nirq
                            then old(irqTag[..])[Index(irq) := None]
                            else old(irqTag[..])
    {
      if !IsToken(irq) {
        return;
      }
      if !dev && !found {
        return;
      }
      var idx := Index(irq);
      if idx >= nirq {
        return;
      }
      assert SlotOk(idx);
      if irqEnt[idx].None? {
        return;
      }
      TearDown(irqEnt[idx].value.idx);
    }

    /**
     Running the devres list, as at the end of a failed attach: every index that ever had a devres
     entry is torn down, whichever handler is live there now; a stale entry tears nothing down twice.
     */
    method ReleaseDevres()
      requires Valid()
      modifies `torn, `devres, irqTag, irqEnt
      ensures Valid() && devres == [] && setups == old(setups)
      ensures forall i | 0 <= i < nirq ::
                irqTag[i] == if (exists k :: 0 <= k < |old(devres)| && old(devres)[k].idx == i)
                             then None
                             else old(irqTag[i])
    {
      while devres != []
        invariant Valid() && setups == old(setups) && |devres| <= |old(devres)| && devres == old(devres)[..|devres|]
        invariant forall i | 0 <= i < nirq ::
                    irqTag[i] == if (exists k :: |devres| <= k < |old(devres)| && old(devres)[k].idx == i)
                                 then None
                                 else old(irqTag[i])
        decreases |devres|
      {
        var n := |devres| - 1;
        TearDown(devres[n].idx);
        devres := devres[..n];
      }
    }

    /** The loop of lkpi_platform_bus_detach over the handlers still live. */
    method TearDownAll()
      requires Valid()
      modifies `torn, irqTag
      ensures Valid() && setups == old(setups) && forall i | 0 <= i < nirq :: irqTag[i] == None
    {
      var i := 0;
      while i < nirq
        invariant i <= nirq && Valid() && setups == old(setups) && forall k | 0 <= k < i :: irqTag[k] == None
      {
        DropTag(i);
        i := i + 1;
      }
    }

    /** lkpi_platform_bus_detach: afterwards every handler ever set up has been torn down exactly once. */
    method Detach()
      requires Valid()
      modifies this, irqTag, irqEnt
      ensures Valid() && setups == old(setups) && devres == []
      ensures forall c | 0 <= c < setups :: torn[c] == 1
    {
      TearDownAll();
      ReleaseDevres();
      forall c | 0 <= c < setups ensures torn[c] == 1 {
        assert CookieOk(c) && Some(c) !in irqTag[..];
      }
    }

    /**
     Over any sequence of requests, frees and re-requests, at most one handler is live per index and
     each is either live at one index or torn down once; the detach that ends it leaves none.
     */
    method Session(ops: seq<Op>)
      requires Valid()
      modifies this, irqTag, irqEnt
      ensures Valid() && forall c | 0 <= c < setups :: torn[c] == 1
    {
      var k := 0;
      while k < |ops|
        invariant k <= |ops| && Valid()
      {
        match ops[k] {
          case Request(irq, handler, dev, found, alloc, setup) =>
            var err := RequestIrq(irq, handler, dev, found, alloc, setup);
          case FreeOp(irq, dev, found) => FreeIrq(irq, dev, found);
        }
        k := k + 1;
      }
      Detach();
    }
  }

  datatype Op =
    | Request(irq: bv32, handler: bool, dev: bool, found: bool, alloc: bool, setup: Errno)
    | FreeOp(irq: bv32, dev: bool, found: bool)

  function Index(irq: bv32): nat { TokenIndex(irq) as nat }

  /** Membership after one element of a sequence without repeated cookies has changed. */
  lemma TagsAfter(before: seq<Option<nat>>, after: seq<Option<nat>>, idx: nat)
    requires idx < |before| == |after| && after == before[idx := after[idx]]
    requires forall i, j | 0 <= i < j < |before| && before[i].Some? :: before[i] != before[j]
    ensures forall c: nat :: Some(c) in after <==>
              (Some(c) in before && before[idx] != Some(c)) || after[idx] == Some(c)
  {
    forall c: nat | Some(c) in before && before[idx] != Some(c) ensures Some(c) in after {
      var i :| 0 <= i < |before| && before[i] == Some(c);
      assert after[i] == Some(c);
    }
    forall c: nat | Some(c) in after && after[idx] != Some(c) ensures Some(c) in before && before[idx] != Some(c) {
      var i :| 0 <= i < |after| && after[i] == Some(c);
      assert before[i] == Some(c);
    }
  }
}
