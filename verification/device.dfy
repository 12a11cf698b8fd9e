/**
 Device bring-up (lima_device.c): the stages of lima_device_init with their unwinding,
 lima_device_fini, and the wiring of the PP pipe.  `held` is the stack of what has been acquired and
 not released; releasing anything but its top would not verify.
 */
module Device {
  import opened Wrappers

  datatype Res = Clk | Regulator | EmptyVm | Dlbu | Ip(i: nat) | GpPipe | PpPipe

  /** One IP block: it exists on this GPU, the GPU cannot do without it, and how its set-up goes. */
  datatype IpPlan = IpPlan(fitted: bool, must: bool, irq: Errno, init: Errno)

  datatype Plan = Plan(clk: Errno, regulator: Errno, vm: bool, mali450: bool, dlbu: bool, iomem: Errno,
                       ips: seq<IpPlan>, gp: Errno, pp: Errno)

  predicate Comes(ip: IpPlan) { ip.fitted && ip.irq == Ok && ip.init == Ok }

  /** The error lima_init_ip returns: only a required block can fail the device. */
  function IpError(ip: IpPlan): Errno {
    if !ip.fitted || !ip.must then Ok else if ip.irq != Ok then ip.irq else ip.init
  }

  /** The blocks that are up once the first n have been tried. */
  function IpsUp(ips: seq<IpPlan>, n: nat): seq<Res>
    requires n <= |ips|
  {
    if n == 0 then [] else IpsUp(ips, n - 1) + if Comes(ips[n - 1]) then [Ip(n - 1)] else []
  }

  /** The first required block that fails, or the number of blocks. */
  function FirstBad(ips: seq<IpPlan>, from: nat): (n: nat)
    requires from <= |ips|
    ensures from <= n <= |ips| && (n < |ips| ==> IpError(ips[n]) != Ok)
    ensures forall k | from <= k < n :: IpError(ips[k]) == Ok
    decreases |ips| - from
  {
    if from == |ips| || IpError(ips[from]) != Ok then from else FirstBad(ips, from + 1)
  }

  /** No resource is held twice. */
  predicate Once(held: seq<Res>) { forall j, k | 0 <= j < k < |held| :: held[j] != held[k] }

  /** The blocks that are up are those that exist and got their interrupt and initialisation, each once. */
  lemma {:induction false} IpsUpExactly(ips: seq<IpPlan>, n: nat)
    requires n <= |ips|
    ensures forall i: nat :: Ip(i) in IpsUp(ips, n) <==> i < n && ips[i].fitted && ips[i].irq == Ok && ips[i].init == Ok
    ensures forall r | r in IpsUp(ips, n) :: r.Ip?
    ensures Once(IpsUp(ips, n))
  {
    if n > 0 {
      IpsUpExactly(ips, n - 1);
      var up := IpsUp(ips, n - 1);
      forall k | 0 <= k < |up| ensures up[k] != Ip(n - 1) {
        assert up[k] in up;
      }
    }
  }

  function Base(p: Plan): seq<Res> { [Clk, Regulator, EmptyVm] + if p.mali450 then [Dlbu] else [] }

  /** Everything a complete bring-up holds, in order of acquisition. */
  function Full(p: Plan): seq<Res> { Base(p) + IpsUp(p.ips, |p.ips|) + [GpPipe, PpPipe] }

  lemma OnceJoined(a: seq<Res>, b: seq<Res>)
    requires Once(a) && Once(b) && forall r | r in a :: r !in b
    ensures Once(a + b)
    ensures forall r :: r in a + b <==> r in a || r in b
  {
    forall j, k | 0 <= j < k < |a + b| ensures (a + b)[j] != (a + b)[k] {
      if j < |a| <= k { assert a[j] in a && b[k - |a|] in b; }
    }
  }

  /** What the set-up of a complete bring-up needs apart from the blocks. */
  predicate NeededBy(p: Plan, r: Res) {
    r == Clk || r == Regulator || r == EmptyVm || r == GpPipe || r == PpPipe || (r == Dlbu && p.mali450)
  }

  /** A complete bring-up by name: what everything needs, each block that comes up, and both pipes, each once. */
  lemma FullByName(p: Plan)
    ensures forall r :: r in Full(p) <==>
              NeededBy(p, r) ||
              (r.Ip? && r.i < |p.ips| && p.ips[r.i].fitted && p.ips[r.i].irq == Ok && p.ips[r.i].init == Ok)
    ensures Once(Full(p))
  {
    var ips, pipes := IpsUp(p.ips, |p.ips|), [GpPipe, PpPipe];
    IpsUpExactly(p.ips, |p.ips|);
    OnceJoined(Base(p), ips);
    OnceJoined(Base(p) + ips, pipes);
  }

  /** The first and the last of them. */
  lemma FullEnds(p: Plan)
    ensures |Full(p)| >= 5 && Full(p)[..3] == [Clk, Regulator, EmptyVm] && Full(p)[|Full(p)| - 2..] == [GpPipe, PpPipe]
  {}

  /** A required block comes up. */
  predicate Works(ip: IpPlan) { ip.fitted && ip.must ==> ip.irq == Ok && ip.init == Ok }

  /** The first error on the way, or Ok. */
  function InitError(p: Plan): Errno {
    if p.clk != Ok then p.clk
    else if p.regulator != Ok then p.regulator
    else if !p.vm then ENOMEM
    else if p.mali450 && !p.dlbu then ENOMEM
    else if p.iomem != Ok then p.iomem
    else if FirstBad(p.ips, 0) < |p.ips| then IpError(p.ips[FirstBad(p.ips, 0)])
    else if p.gp != Ok then p.gp
    else p.pp
  }

  /** What comes before the blocks succeeds. */
  predicate BaseWorks(p: Plan) {
    p.clk == Ok && p.regulator == Ok && p.vm && (p.mali450 ==> p.dlbu) && p.iomem == Ok
  }

  /** Block `k` is the first required one that fails. */
  predicate FailsFirst(ips: seq<IpPlan>, k: nat) {
    k < |ips| && !Works(ips[k]) && forall j | 0 <= j < k :: Works(ips[j])
  }

  /** Which error that is, by name. */
  lemma InitErrorByName(p: Plan)
    ensures p.clk != Ok ==> InitError(p) == p.clk
    ensures p.clk == Ok && p.regulator != Ok ==> InitError(p) == p.regulator
    ensures p.clk == Ok && p.regulator == Ok && (!p.vm || (p.mali450 && !p.dlbu)) ==> InitError(p) == ENOMEM
    ensures p.iomem != Ok && BaseWorks(p.(iomem := Ok)) ==> InitError(p) == p.iomem
    ensures forall k | 0 <= k < |p.ips| && BaseWorks(p) && FailsFirst(p.ips, k) ::
              InitError(p) == if p.ips[k].irq != Ok then p.ips[k].irq else p.ips[k].init
    ensures BaseWorks(p) && (forall k | 0 <= k < |p.ips| :: Works(p.ips[k])) ==>
              InitError(p) == if p.gp != Ok then p.gp else p.pp
  {
    forall k | 0 <= k < |p.ips| ensures Works(p.ips[k]) <==> IpError(p.ips[k]) == Ok {}
    forall k | 0 <= k < |p.ips| && FailsFirst(p.ips, k) ensures FirstBad(p.ips, 0) == k {
      assert FirstBad(p.ips, 0) >= k;
    }
  }

  class LimaDevice {
    const plan: Plan
    const present: array<bool>
    var held: seq<Res>

    ghost predicate Shape() { present.Length == |plan.ips| }

    /** The first n blocks are present exactly if they came up. */
    ghost predicate PresentUpTo(n: nat)
      requires Shape() && n <= |plan.ips|
      reads present
    {
      forall i | 0 <= i < n :: present[i] == Comes(plan.ips[i])
    }

    constructor (plan: Plan)
      ensures this.plan == plan && Shape() && fresh(present) && held == []
      ensures forall i | 0 <= i < |plan.ips| :: !present[i]
    {
      this.plan := plan;
      present := new bool[|plan.ips|](_ => false);
      held := [];
    }

    method Acquire(r: Res)
      modifies `held
      ensures held == old(held) + [r]
    {
      held := held + [r];
    }

    method Release(r: Res)
      requires held != [] && held[|held| - 1] == r
      modifies `held
      ensures held == old(held)[..|old(held)| - 1]
    {
      held := held[..|held| - 1];
    }

    /** lima_init_ip */
    method InitIp(i: nat) returns (err: Errno)
      requires Shape() && i < |plan.ips| && !present[i]
      modifies `held, present
      ensures err == IpError(plan.ips[i])
      ensures present[..] == old(present[..])[i := Comes(plan.ips[i])]
      ensures held == old(held) + if Comes(plan.ips[i]) then [Ip(i)] else []
    {
      var ip := plan.ips[i];
      if !ip.fitted {
        return Ok;
      }
      if ip.irq != Ok {
        return if ip.must then ip.irq else Ok;
      }
      if ip.init == Ok {
        present[i] := true;
        Acquire(Ip(i));
        return Ok;
      }
      err := if ip.must then ip.init else Ok;
    }

    /** The lima_fini_ip loops: backwards over the first n blocks, those that are present. */
    method FiniIps(n: nat, ghost below: seq<Res>)
      requires Shape() && n <= |plan.ips| && PresentUpTo(n) && held == below + IpsUp(plan.ips, n)
      modifies `held
      ensures held == below
    {
      var i: nat := n;
      while i > 0
        invariant i <= n && held == below + IpsUp(plan.ips, i)
      {
        i := i - 1;
        if present[i] {
          assert held == (below + IpsUp(plan.ips, i)) + [Ip(i)];
          Release(Ip(i));
        }
        assert held == below + IpsUp(plan.ips, i);
      }
      assert held == below + [];
    }

    /** err_out3 to err_out0: what was acquired before the blocks. */
    method FiniBase()
      requires held == Base(plan)
      modifies `held
      ensures held == []
    {
      if plan.mali450 {
        Release(Dlbu);
      }
      Release(EmptyVm);
      Release(Regulator);
      Release(Clk);
    }

    /** lima_device_init up to the mapping of the registers. */
    method InitBase() returns (err: Errno)
      requires held == []
      modifies `held
      ensures err == if plan.clk != Ok then plan.clk else if plan.regulator != Ok then plan.regulator
                     else if !plan.vm || (plan.mali450 && !plan.dlbu) then ENOMEM else plan.iomem
      ensures held == if err == Ok then Base(plan) else []
    {
      if plan.clk != Ok {
        return plan.clk;
      }
      Acquire(Clk);
      if plan.regulator != Ok {
        Release(Clk);
        return plan.regulator;
      }
      Acquire(Regulator);
      if !plan.vm {
        Release(Regulator);
        Release(Clk);
        return ENOMEM;
      }
      Acquire(EmptyVm);
      if plan.mali450 {
        if !plan.dlbu {
          Release(EmptyVm);
          Release(Regulator);
          Release(Clk);
          return ENOMEM;
        }
        Acquire(Dlbu);
      }
      err := plan.iomem;
      if err != Ok {
        FiniBase();
      }
    }

    /** The loop over the blocks, up to the first required one that fails. */
    method InitIps() returns (n: nat, err: Errno)
      requires Shape() && held == Base(plan) && forall i | 0 <= i < |plan.ips| :: !present[i]
      modifies `held, present
      ensures n == FirstBad(plan.ips, 0) && err == (if n < |plan.ips| then IpError(plan.ips[n]) else Ok)
      ensures held == Base(plan) + IpsUp(plan.ips, n) && PresentUpTo(n)
    {
      n := 0;
      err := Ok;
      assert Base(plan) + IpsUp(plan.ips, 0) == Base(plan);
      while n < |plan.ips|
        invariant n <= |plan.ips| && err == Ok && FirstBad(plan.ips, n) == FirstBad(plan.ips, 0)
        invariant held == Base(plan) + IpsUp(plan.ips, n) && PresentUpTo(n)
        invariant forall i | n <= i < |plan.ips| :: !present[i]
      {
        ghost var bad := Comes(plan.ips[n]);
        err := InitIp(n);
        if err != Ok {
          assert held == Base(plan) + IpsUp(plan.ips, n);
          break;
        }
        assert held == Base(plan) + IpsUp(plan.ips, n + 1);
        n := n + 1;
      }
    }

    /**
     lima_device_init: it brings up everything, or returns the first error having released, each once
     and in reverse order, everything acquired before it.
     */
    method Init() returns (err: Errno)
      requires Shape() && held == [] && forall i | 0 <= i < |plan.ips| :: !present[i]
      modifies `held, present
      ensures err == InitError(plan)
      ensures err == Ok <==>
                && plan.clk == Ok && plan.regulator == Ok && plan.vm && (plan.mali450 ==> plan.dlbu) && plan.iomem == Ok
                && (forall i | 0 <= i < |plan.ips| :: Works(plan.ips[i])) && plan.gp == Ok && plan.pp == Ok
      ensures held == if err == Ok then Full(plan) else []
      ensures err == Ok ==> Once(held) && forall r :: r in held <==>
                NeededBy(plan, r) ||
                (r.Ip? && r.i < |plan.ips| &&
                 plan.ips[r.i].fitted && plan.ips[r.i].irq == Ok && plan.ips[r.i].init == Ok)
      ensures err == Ok ==> PresentUpTo(|plan.ips|)
    {
      FullByName(plan);
      err := InitBase();
      if err != Ok {
        return;
      }
      var n;
      n, err := InitIps();
      if err == Ok {
        err := plan.gp;
        if err == Ok {
          Acquire(GpPipe);
          err := plan.pp;
          if err == Ok {
            Acquire(PpPipe);
            assert held == Full(plan);
            return;
          }
          Release(GpPipe);
        }
      }
      FiniIps(n, Base(plan));
      FiniBase();
    }

    /** lima_device_fini undoes a complete bring-up. */
    method Fini()
      requires Shape() && held == Full(plan) && PresentUpTo(|plan.ips|)
      modifies `held
      ensures held == []
    {
      Release(PpPipe);
      Release(GpPipe);
      assert held == Base(plan) + IpsUp(plan.ips, |plan.ips|);
      FiniIps(|plan.ips|, Base(plan));
      FiniBase();
    }
  }

  // ----- suspend and resume

  /** The blocks switched on once the first n have been resumed: those that are present. */
  function IpsOn(present: seq<bool>, n: nat): seq<Res>
    requires n <= |present|
  {
    if n == 0 then [] else IpsOn(present, n - 1) + if present[n - 1] then [Ip(n - 1)] else []
  }

  /** Those that are present, each once and in order. */
  lemma {:induction false} IpsOnExactly(present: seq<bool>, n: nat)
    requires n <= |present|
    ensures forall i: nat :: Ip(i) in IpsOn(present, n) <==> i < n && present[i]
    ensures forall r | r in IpsOn(present, n) :: r.Ip?
    ensures forall j, k | 0 <= j < k < |IpsOn(present, n)| :: IpsOn(present, n)[j].i < IpsOn(present, n)[k].i
  {
    if n > 0 {
      IpsOnExactly(present, n - 1);
      var on := IpsOn(present, n - 1);
      forall k | 0 <= k < |on| ensures on[k].Ip? && on[k].i < n - 1 {
        assert on[k] in on;
      }
    }
  }

  /** Everything that is on while the device runs. */
  function AllOn(present: seq<bool>): seq<Res> { [Clk, Regulator] + IpsOn(present, |present|) }

  /** The first present block whose resume fails, or the number of blocks. */
  function FirstStuck(present: seq<bool>, errs: seq<Errno>, from: nat): (n: nat)
    requires from <= |present| == |errs|
    ensures from <= n <= |present| && (n < |present| ==> present[n] && errs[n] != Ok)
    ensures forall k | from <= k < n :: present[k] ==> errs[k] == Ok
    decreases |present| - from
  {
    if from == |present| || (present[from] && errs[from] != Ok) then from else FirstStuck(present, errs, from + 1)
  }

  /** Block `i` is the first present one whose resume fails. */
  predicate SticksFirst(present: seq<bool>, errs: seq<Errno>, i: nat)
    requires |present| == |errs|
  {
    i < |present| && present[i] && errs[i] != Ok && forall j | 0 <= j < i && present[j] :: errs[j] == Ok
  }

  /** The first error on the way up, or Ok. */
  function ResumeError(present: seq<bool>, clk: Errno, regulator: Errno, errs: seq<Errno>, devfreq: Errno): Errno
    requires |present| == |errs|
  {
    if clk != Ok then clk
    else if regulator != Ok then regulator
    else if FirstStuck(present, errs, 0) < |present| then errs[FirstStuck(present, errs, 0)]
    else devfreq
  }

  /** The power side of a device: `on` is the stack of what has been switched on. */
  class Power {
    const present: seq<bool>
    var on: seq<Res>

    constructor (present: seq<bool>)
      ensures this.present == present && on == AllOn(present)
    {
      this.present, on := present, AllOn(present);
    }

    method SwitchOn(r: Res)
      modifies this
      ensures on == old(on) + [r]
    {
      on := on + [r];
    }

    method SwitchOff(r: Res)
      requires on != [] && on[|on| - 1] == r
      modifies this
      ensures on == old(on)[..|old(on)| - 1]
    {
      on := on[..|on| - 1];
    }

    /** The lima_suspend_ip loops: backwards over the first n blocks, those that are present. */
    method SuspendIps(n: nat)
      requires n <= |present| && on == [Clk, Regulator] + IpsOn(present, n)
      modifies this
      ensures on == [Clk, Regulator]
    {
      var i: nat := n;
      while i > 0
        invariant i <= n && on == [Clk, Regulator] + IpsOn(present, i)
      {
        i := i - 1;
        if present[i] {
          assert on == ([Clk, Regulator] + IpsOn(present, i)) + [Ip(i)];
          SwitchOff(Ip(i));
        }
        assert on == [Clk, Regulator] + IpsOn(present, i);
      }
      assert on == [Clk, Regulator] + [];
    }

    /** lima_device_suspend: refused while a pipe has work, else everything goes off, last on first off. */
    method Suspend(busy: bool, devfreq: Errno) returns (err: Errno)
      requires on == AllOn(present)
      modifies this
      ensures err == if busy then EBUSY else devfreq
      ensures on == if err == Ok then [] else old(on)
    {
      if busy {
        return EBUSY;
      }
      if devfreq != Ok {
        return devfreq;
      }
      SuspendIps(|present|);
      SwitchOff(Regulator);
      SwitchOff(Clk);
      err := Ok;
    }

    /** The loop of lima_device_resume, up to the first block that fails. */
    method ResumeIps(errs: seq<Errno>) returns (n: nat, err: Errno)
      requires |errs| == |present| && on == [Clk, Regulator]
      modifies this
      ensures n == FirstStuck(present, errs, 0) && err == (if n < |present| then errs[n] else Ok)
      ensures on == [Clk, Regulator] + IpsOn(present, n)
    {
      n, err := 0, Ok;
      assert on == [Clk, Regulator] + IpsOn(present, 0);
      while n < |present|
        invariant n <= |present| && err == Ok && FirstStuck(present, errs, n) == FirstStuck(present, errs, 0)
        invariant on == [Clk, Regulator] + IpsOn(present, n)
      {
        if present[n] {
          err := errs[n];
          if err != Ok {
            break;
          }
          SwitchOn(Ip(n));
        }
        assert on == [Clk, Regulator] + IpsOn(present, n + 1);
        n := n + 1;
      }
    }

    /** lima_device_resume: everything comes on, or the first error is returned with everything off again. */
    method Resume(clk: Errno, regulator: Errno, errs: seq<Errno>, devfreq: Errno) returns (err: Errno)
      requires on == [] && |errs| == |present|
      modifies this
      ensures err == ResumeError(present, clk, regulator, errs, devfreq)
      ensures err == Ok <==>
                && clk == Ok && regulator == Ok && devfreq == Ok
                && forall i | 0 <= i < |present| && present[i] :: errs[i] == Ok
      ensures on == if err == Ok then AllOn(present) else []
      ensures err == Ok ==> |on| >= 2 && on[0] == Clk && on[1] == Regulator && forall r :: r in on <==>
                r == Clk || r == Regulator || (r.Ip? && r.i < |present| && present[r.i])
      ensures clk != Ok ==> err == clk
      ensures clk == Ok && regulator != Ok ==> err == regulator
      ensures clk == Ok && regulator == Ok ==>
                && (forall i | 0 <= i < |present| && SticksFirst(present, errs, i) :: err == errs[i])
                && ((forall i | 0 <= i < |present| && present[i] :: errs[i] == Ok) ==> err == devfreq)
    {
      IpsOnExactly(present, |present|);
      if clk != Ok {
        return clk;
      }
      SwitchOn(Clk);
      if regulator != Ok {
        SwitchOff(Clk);
        return regulator;
      }
      SwitchOn(Regulator);
      var n;
      n, err := ResumeIps(errs);
      if err == Ok {
        err := devfreq;
      }
      if err != Ok {
        SuspendIps(n);
        SwitchOff(Regulator);
        SwitchOff(Clk);
      }
    }
  }

  // ----- wiring of the PP pipe

  const MAX_PROCESSOR := 8
  const MAX_L2_CACHE := 2

  /** Core i is attached if it, its MMU and its group's L2 cache are present. */
  datatype PpPlan = PpPlan(pp: bool, mmu: bool, l2: bool) {
    predicate Attached() { pp && mmu && l2 }
  }

  function AttachedUpTo(cores: seq<PpPlan>, n: nat): seq<nat>
    requires n <= |cores|
  {
    if n == 0 then [] else AttachedUpTo(cores, n - 1) + if cores[n - 1].Attached() then [n - 1] else []
  }

  /** The attached cores, each once, in order. */
  lemma {:induction false} AttachedExactly(cores: seq<PpPlan>, n: nat)
    requires n <= |cores|
    ensures forall i :: i in AttachedUpTo(cores, n) <==> 0 <= i < n && cores[i].pp && cores[i].mmu && cores[i].l2
    ensures forall j, k | 0 <= j < k < |AttachedUpTo(cores, n)| :: AttachedUpTo(cores, n)[j] < AttachedUpTo(cores, n)[k]
  {
    if n > 0 {
      AttachedExactly(cores, n - 1);
      var s := AttachedUpTo(cores, n - 1);
      forall j | 0 <= j < |s| ensures s[j] < n - 1 {
        assert s[j] in s;
      }
    }
  }

  /** Some attached core below n belongs to group g (four cores share an L2 cache). */
  predicate GroupUsed(cores: seq<PpPlan>, g: nat, n: nat)
    requires n <= |cores|
  {
    exists i | 0 <= i < n :: i / 4 == g && cores[i].Attached()
  }

  /**
   The loop of lima_init_pp_pipe on a GPU with one L2 cache per four cores.  Cores and MMUs are paired
   in order, each present one once.  Every attached core's cache is listed, never more than the array
   holds; it is listed twice exactly if group 0 has no attached core and group 1 has two.
   */
  method WirePp(cores: seq<PpPlan>) returns (processors: seq<nat>, mmus: seq<nat>, l2: seq<nat>)
    requires |cores| == MAX_PROCESSOR
    ensures processors == AttachedUpTo(cores, MAX_PROCESSOR) && mmus == processors
    ensures |l2| <= MAX_L2_CACHE && forall g: nat :: g in l2 <==> GroupUsed(cores, g, MAX_PROCESSOR)
    ensures |l2| == 2 && l2[0] == l2[1] <==>
              !GroupUsed(cores, 0, MAX_PROCESSOR) && |AttachedUpTo(cores, MAX_PROCESSOR)| >= 2
  {
    processors, mmus, l2 := [], [], [];
    var i := 0;
    while i < MAX_PROCESSOR
      invariant i <= MAX_PROCESSOR && processors == AttachedUpTo(cores, i) == mmus
      invariant L2Ok(l2, GroupUsed(cores, 0, i), GroupUsed(cores, 1, i), |processors|)
      invariant i <= 4 ==> !GroupUsed(cores, 1, i)
    {
      GroupStep(cores, 0, i);
      GroupStep(cores, 1, i);
      L2Step(l2, GroupUsed(cores, 0, i), GroupUsed(cores, 1, i), |processors|, i / 4);
      if cores[i].Attached() {
        mmus := mmus + [i];
        processors := processors + [i];
        l2 := AddL2(l2, i / 4);
      }
      i := i + 1;
    }
    CachesListed(cores, l2, |processors|);
  }

  lemma CachesListed(cores: seq<PpPlan>, l2: seq<nat>, n: nat)
    requires |cores| == MAX_PROCESSOR && L2Ok(l2, GroupUsed(cores, 0, 8), GroupUsed(cores, 1, 8), n)
    ensures forall g: nat :: g in l2 <==> GroupUsed(cores, g, MAX_PROCESSOR)
  {}

  /** `if (!pipe->l2_cache[i >> 2]) pipe->l2_cache[pipe->num_l2_cache++] = l2_cache;` */
  function AddL2(l2: seq<nat>, g: nat): seq<nat> { if g >= |l2| then l2 + [g] else l2 }

  lemma L2Step(l2: seq<nat>, used0: bool, used1: bool, cores: nat, g: nat)
    requires L2Ok(l2, used0, used1, cores) && g <= 1 && (g == 0 ==> !used1)
    ensures L2Ok(AddL2(l2, g), used0 || g == 0, used1 || g == 1, cores + 1)
  {}

  /** The list of caches after some cores: which groups have been used, and how many cores attached. */
  predicate L2Ok(l2: seq<nat>, used0: bool, used1: bool, cores: nat) {
    if used0 then l2 == if used1 then [0, 1] else [0]
    else l2 == (if cores == 0 then [] else if cores == 1 then [1] else [1, 1]) && (used1 <==> cores > 0)
  }

  lemma GroupStep(cores: seq<PpPlan>, g: nat, i: nat)
    requires i < |cores|
    ensures GroupUsed(cores, g, i + 1) <==> GroupUsed(cores, g, i) || (i / 4 == g && cores[i].Attached())
  {}
}
