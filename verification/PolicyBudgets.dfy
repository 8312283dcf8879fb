/** What the answers of one policy evaluation mean, in the terms of the machine it looked at (src/policy.rs). */
module PolicyBudgets {
  import opened Options
  import opened ResourceVectors
  import opened Policy

  // ---------------------------------------------------------------- measures

  predicate Beside(y: nat, ceiling: nat, taken: nat, capacity: nat) {
    y <= ceiling && taken + y <= capacity
  }

  /** `x` is the largest amount up to `ceiling` that fits beside `taken` within `capacity`, and nothing if none does. */
  ghost predicate Fills(x: nat, ceiling: nat, taken: nat, capacity: nat) {
    && (x > 0 ==> Beside(x, ceiling, taken, capacity))
    && (forall y: nat :: Beside(y, ceiling, taken, capacity) ==> y <= x)
  }

  /** `x` is the smallest whole amount that is at least `numerator / denominator` of `value`. */
  ghost predicate RoundsUp(x: nat, value: nat, numerator: nat, denominator: nat) {
    x * denominator >= value * numerator && (x > 0 ==> (x - 1) * denominator < value * numerator)
  }

  /** The quotient of the original, before it saturates at 64 bits. */
  lemma RoundsUpExact(value: nat, numerator: nat, denominator: nat)
    requires denominator > 0
    ensures RoundsUp((value * numerator + denominator - 1) / denominator, value, numerator, denominator)
  {
    var product := value * numerator;
    var x := (product + denominator - 1) / denominator;
    assert x * denominator <= product + denominator - 1 < x * denominator + denominator by {
      assert (product + denominator - 1) % denominator < denominator;
      assert product + denominator - 1 == x * denominator + (product + denominator - 1) % denominator;
    }
    assert (x - 1) * denominator == x * denominator - denominator;
  }

  /** Started allocations with an observation, by position. */
  function Observations(allocations: seq<Allocation>): map<nat, Resources> {
    map i: nat | 0 <= i < |allocations| && allocations[i].stage != Pending && allocations[i].observed.Some?
      :: allocations[i].observed.value
  }

  /** Started allocations nobody has observed: what they asked for. */
  function Unobserved(allocations: seq<Allocation>): map<nat, Resources> {
    map i: nat | 0 <= i < |allocations| && allocations[i].stage != Pending && allocations[i].observed.None?
      :: allocations[i].requested
  }

  /** The accounting loop sums both tables, in every dimension. */
  lemma {:induction false} AccountsExact(allocations: seq<Allocation>, d: Dim)
    requires Accounts(allocations).Some?
    ensures Amount(Accounts(allocations).value.observed, d) == TotalIn(Observations(allocations), d)
    ensures Amount(Accounts(allocations).value.missing, d) == TotalIn(Unobserved(allocations), d)
  {
    if allocations == [] {
      assert Column(Observations(allocations), d) == map[] && Column(Unobserved(allocations), d) == map[];
    } else {
      var n := |allocations| - 1;
      AccountsExact(allocations[..n], d);
      hide Charge, TotalIn, Observations, Unobserved;
      LastObserved(allocations, d);
      LastUnobserved(allocations, d);
      TallyAdds(Accounts(allocations[..n]).value, allocations[n], d);
      hide Tally;
    }
  }

  lemma TallyAdds(acc: Account, a: Allocation, d: Dim)
    requires Tally(acc, a).Some?
    ensures Amount(Tally(acc, a).value.observed, d) == Amount(acc.observed, d)
      + (if a.stage != Pending && a.observed.Some? then Amount(a.observed.value, d) else 0)
    ensures Amount(Tally(acc, a).value.missing, d) == Amount(acc.missing, d)
      + (if a.stage != Pending && a.observed.None? then Amount(a.requested, d) else 0)
  {
    hide Charge;
  }

  lemma LastObserved(allocations: seq<Allocation>, d: Dim)
    requires allocations != []
    ensures var n := |allocations| - 1;
      TotalIn(Observations(allocations), d) == TotalIn(Observations(allocations[..n]), d)
        + (if allocations[n].stage != Pending && allocations[n].observed.Some?
           then Amount(allocations[n].observed.value, d) else 0)
  {
    hide TotalIn;
    var n: nat := |allocations| - 1;
    var all, before := Observations(allocations), Observations(allocations[..n]);
    if allocations[n].stage != Pending && allocations[n].observed.Some? {
      var r := allocations[n].observed.value;
      assert all == before[n := r];
      TotalInInsert<nat>(before, n, r, d);
    } else {
      assert all == before;
    }
  }

  lemma LastUnobserved(allocations: seq<Allocation>, d: Dim)
    requires allocations != []
    ensures var n := |allocations| - 1;
      TotalIn(Unobserved(allocations), d) == TotalIn(Unobserved(allocations[..n]), d)
        + (if allocations[n].stage != Pending && allocations[n].observed.None?
           then Amount(allocations[n].requested, d) else 0)
  {
    hide TotalIn;
    var n: nat := |allocations| - 1;
    var all, before := Unobserved(allocations), Unobserved(allocations[..n]);
    if allocations[n].stage != Pending && allocations[n].observed.None? {
      var r := allocations[n].requested;
      assert all == before[n := r];
      TotalInInsert<nat>(before, n, r, d);
    } else {
      assert all == before;
    }
  }

  /** What the managed allocations were seen to use. */
  ghost function Managed(input: Input, d: Dim): nat {
    TotalIn(Observations(input.allocations), d)
  }

  /** What the managed allocations are charged. */
  ghost function ChargedIn(input: Input, d: Dim): nat {
    TotalIn(Charges(input.allocations), d)
  }

  /** Somebody started who may be using this scope unobserved. */
  ghost predicate InTheDark(input: Input, d: Dim) {
    TotalIn(Unobserved(input.allocations), d) > 0
  }

  // ---------------------------------------------------------------- CPU and RAM

  /** The CPUs the budget is about: the permitted set where the kernel describes one, the whole machine otherwise. */
  datatype Scope = Scope(capacity: nat, reserve: Option<nat>, busy: Option<nat>, ceiling: nat, trusted: bool)

  function HostReserve(cfg: Config, s: Snapshot): Option<nat> {
    if cfg.reserveCores == 0 then Some(0)
    else if s.physicalCores.None? || s.physicalCores.value == 0 then None
    else Some(Min(CeilRatio(s.capacity, cfg.reserveCores, s.physicalCores.value), s.capacity))
  }

  function CpuScope(e: Engine, cfg: Config, s: Snapshot, now: nat): Scope {
    if s.kernel.None? || !cfg.kernelEnabled || !s.kernel.value.linux
    then Scope(s.capacity, HostReserve(cfg, s), s.busy, s.capacity, true)
    else
      var k := s.kernel.value;
      Scope(GetOr(k.capacity, 0), ScopedReserve(k, cfg.reserveCores), k.busy, GetOr(k.ceiling, 0),
            ScopedCpuValid(k) && SampleFresh(e.sample, k, now))
  }

  /** The share of the machine that so many of its physical cores are, rounded up, and at most all of it. */
  lemma HostReserveExact(cfg: Config, s: Snapshot)
    requires s.capacity <= U64_MAX && HostReserve(cfg, s).Some? && cfg.reserveCores > 0
    ensures exists share: nat :: RoundsUp(share, s.capacity, cfg.reserveCores, s.physicalCores.value)
              && HostReserve(cfg, s).value == Min(share, s.capacity)
  {
    RoundsUpExact(s.capacity, cfg.reserveCores, s.physicalCores.value);
  }

  ghost predicate CpuKnown(e: Engine, cfg: Config, s: Snapshot, input: Input, now: nat) {
    var scope := CpuScope(e, cfg, s, now);
    && scope.trusted && scope.reserve.Some? && scope.busy.Some? && !InTheDark(input, Cpu)
    && Managed(input, Cpu) <= scope.busy.value
  }

  /** The CPU budget is what the machine's own users and the reserve leave free, within the visible ceiling. */
  ghost predicate CpuLaw(e: Engine, cfg: Config, s: Snapshot, input: Input, now: nat, budget: nat) {
    var scope := CpuScope(e, cfg, s, now);
    if input.explicitDrain || !CpuKnown(e, cfg, s, input, now) then budget == 0
    else Fills(budget, scope.ceiling, scope.reserve.value + (scope.busy.value - Managed(input, Cpu)), scope.capacity)
  }

  /** The larger of the fixed reserve and a share of the memory, rounded up. */
  function RamReserve(cfg: Config, s: Snapshot): nat {
    Max(cfg.reserveRam, CeilRatio(s.totalRam, cfg.reservePercent, 100))
  }

  lemma RamReserveExact(cfg: Config, s: Snapshot)
    requires s.totalRam <= U64_MAX && cfg.reservePercent <= 100
    ensures exists share: nat :: RoundsUp(share, s.totalRam, cfg.reservePercent, 100)
              && RamReserve(cfg, s) == Max(cfg.reserveRam, share)
  {
    RoundsUpExact(s.totalRam, cfg.reservePercent, 100);
    assert s.totalRam * cfg.reservePercent <= s.totalRam * 100;
  }

  ghost predicate RamKnown(s: Snapshot, input: Input) {
    && s.availableRam.Some? && s.availableRam.value <= s.totalRam && !InTheDark(input, Ram)
    && Managed(input, Ram) <= s.totalRam - s.availableRam.value
  }

  ghost predicate RamLaw(cfg: Config, s: Snapshot, input: Input, budget: nat) {
    if input.explicitDrain || !RamKnown(s, input) then budget == 0
    else Fills(budget, s.totalRam,
               RamReserve(cfg, s) + (s.totalRam - s.availableRam.value - Managed(input, Ram)), s.totalRam)
  }

  /** What one view of the CPU scope concludes. */
  ghost predicate CpuSeen(e: Engine, cfg: Config, s: Snapshot, input: Input, now: nat, v: CpuView) {
    var scope := CpuScope(e, cfg, s, now);
    && (v.unknown <==> !CpuKnown(e, cfg, s, input, now)) && v.capacity == scope.capacity
    && if v.unknown then v.budget == 0
       else Fills(v.budget, scope.ceiling, scope.reserve.value + (scope.busy.value - Managed(input, Cpu)), scope.capacity)
  }

  lemma CpuBudgetFills(capacity: nat, reserve: nat, busy: nat, managed: nat, ceiling: nat)
    requires managed <= busy
    ensures Fills(CpuBudget(capacity, reserve, busy, managed, ceiling), ceiling, reserve + (busy - managed), capacity)
  {
  }

  lemma ViewCpuExact(e: Engine, cfg: Config, s: Snapshot, input: Input, now: nat)
    requires Accounts(input.allocations).Some?
    ensures CpuSeen(e, cfg, s, input, now, ViewCpu(cfg, s, e.sample, Accounts(input.allocations).value, now))
  {
    var acc := Accounts(input.allocations).value;
    AccountsExact(input.allocations, Cpu);
    hide Accounts, CpuSeen, ViewCpu;
    if s.kernel.Some? && cfg.kernelEnabled && s.kernel.value.linux {
      KernelCpuSeen(e, cfg, s, input, now, acc);
    } else {
      HostCpuSeen(e, cfg, s, input, now, acc);
    }
  }

  lemma KernelCpuSeen(e: Engine, cfg: Config, s: Snapshot, input: Input, now: nat, acc: Account)
    requires acc.observed.cpu == Managed(input, Cpu) && (acc.missing.cpu > 0 <==> InTheDark(input, Cpu))
    requires s.kernel.Some? && cfg.kernelEnabled && s.kernel.value.linux
    ensures CpuSeen(e, cfg, s, input, now, ViewCpu(cfg, s, e.sample, acc, now))
  {
    hide ScopedCpuValid, SampleFresh, ScopedReserve, Fills, CpuBudget, InTheDark, Managed;
    var scope := CpuScope(e, cfg, s, now);
    if CpuKnown(e, cfg, s, input, now) {
      CpuBudgetFills(scope.capacity, scope.reserve.value, scope.busy.value, Managed(input, Cpu), scope.ceiling);
    }
  }

  lemma HostCpuSeen(e: Engine, cfg: Config, s: Snapshot, input: Input, now: nat, acc: Account)
    requires acc.observed.cpu == Managed(input, Cpu) && (acc.missing.cpu > 0 <==> InTheDark(input, Cpu))
    requires s.kernel.None? || !cfg.kernelEnabled || !s.kernel.value.linux
    ensures CpuSeen(e, cfg, s, input, now, ViewCpu(cfg, s, e.sample, acc, now))
  {
    hide CeilRatio, Fills, CpuBudget, InTheDark, Managed;
    var scope := CpuScope(e, cfg, s, now);
    if CpuKnown(e, cfg, s, input, now) {
      CpuBudgetFills(scope.capacity, scope.reserve.value, scope.busy.value, Managed(input, Cpu), scope.ceiling);
    }
  }

  ghost predicate RamSeen(cfg: Config, s: Snapshot, input: Input, v: RamView) {
    && (v.unknown <==> !RamKnown(s, input))
    && if v.unknown then v.budget == 0
       else Fills(v.budget, s.totalRam,
                  RamReserve(cfg, s) + (s.totalRam - s.availableRam.value - Managed(input, Ram)), s.totalRam)
  }

  lemma ViewRamExact(cfg: Config, s: Snapshot, input: Input)
    requires Accounts(input.allocations).Some? && ValidSnapshot(s)
    ensures RamSeen(cfg, s, input, ViewRam(cfg, s, Accounts(input.allocations).value))
  {
    AccountsExact(input.allocations, Ram);
    hide Accounts, TotalIn, CeilRatio, Observations, Unobserved;
  }

  lemma CpuFromView(e: Engine, cfg: Config, s: Snapshot, input: Input, now: nat, v: CpuView)
    requires CpuSeen(e, cfg, s, input, now, v)
    ensures CpuLaw(e, cfg, s, input, now, if input.explicitDrain then 0 else v.budget)
  {
    hide CpuKnown, CpuScope, Fills;
  }

  lemma RamFromView(cfg: Config, s: Snapshot, input: Input, v: RamView)
    requires RamSeen(cfg, s, input, v)
    ensures RamLaw(cfg, s, input, if input.explicitDrain then 0 else v.budget)
  {
    hide Fills, RamReserve;
  }

  // ---------------------------------------------------------------- devices

  /** Device memory that neither the reserve nor anybody else holds. */
  ghost predicate MemoryFree(cfg: Config, g: Policy.Gpu, input: Input, x: nat) {
    if g.used.None? then x == 0
    else Fills(x, g.total, cfg.reserveVram + Monus(g.used.value, Managed(input, Dim.Gpu(g.uuid))), g.total)
  }

  /** A device is worth its free memory, or its protection cap where that is lower. */
  ghost predicate DeviceLaw(cfg: Config, g: Policy.Gpu, input: Input, cap: Option<nat>, budget: nat) {
    exists free: nat :: MemoryFree(cfg, g, input, free)
      && budget == if input.explicitDrain then 0 else if cap.None? then free else Min(cap.value, free)
  }

  lemma MemoryBudgetFree(cfg: Config, g: Policy.Gpu, input: Input)
    ensures MemoryFree(cfg, g, input, MemoryBudget(cfg, g, Managed(input, Dim.Gpu(g.uuid))))
  {
    hide Managed;
  }

  lemma DeviceBudget(cfg: Config, e: Engine, s: Snapshot, h: Host, g: Policy.Gpu, now: nat)
    ensures var o := DeviceFinal(cfg, e, s, h, g, now);
      var free := MemoryBudget(cfg, g, Get(h.acc.observed.gpu, g.uuid));
      o.budget == if o.next.cap.None? then free else Min(o.next.cap.value, free)
  {
    hide Read, NewCap, Blocks, Cooled;
  }

  /** The pieces an evaluation is made of. */
  lemma EvaluateShape(e: Engine, cfg: Config, s: Snapshot, input: Input, now: nat) returns (h: Host, outcomes: map<Uuid, Outcome>)
    requires Evaluate(e, cfg, s, input, now).Some?
    ensures Valid(cfg, s, input) && Accounts(input.allocations).Some?
    ensures h == ViewHost(cfg, e, s, input, Accounts(input.allocations).value, now)
    ensures h.acc == Accounts(input.allocations).value
    ensures outcomes == Outcomes(cfg, e, s, h, s.gpus, now)
    ensures Evaluate(e, cfg, s, input, now).value == Conclusion(e, cfg, s, input, h, outcomes, now)
  {
    h := ViewHost(cfg, e, s, input, Accounts(input.allocations).value, now);
    outcomes := Outcomes(cfg, e, s, h, s.gpus, now);
    hide Outcomes, Conclusion, Valid, Accounts;
  }

  lemma ConclusionShape(e: Engine, cfg: Config, s: Snapshot, input: Input, h: Host, outcomes: map<Uuid, Outcome>, now: nat)
    ensures var (e', decision) := Conclusion(e, cfg, s, input, h, outcomes, now);
      && e'.gpus == NextGpus(e, outcomes) && decision.budget == ManagedBudget(input, h, outcomes)
  {
    hide UnsafeNow, ManagedBudget, Victims, Headroom, NextGpus;
  }

  /** Every part of the budget a decision reports. */
  ghost predicate BudgetLaw(e: Engine, cfg: Config, s: Snapshot, input: Input, now: nat, e': Engine, budget: Resources) {
    && CpuLaw(e, cfg, s, input, now, budget.cpu) && RamLaw(cfg, s, input, budget.ram)
    && (forall i :: 0 <= i < |s.gpus| ==>
          s.gpus[i].uuid in e'.gpus
          && DeviceLaw(cfg, s.gpus[i], input, e'.gpus[s.gpus[i].uuid].cap, Get(budget.gpu, s.gpus[i].uuid)))
    && (forall u :: (forall i :: 0 <= i < |s.gpus| ==> s.gpus[i].uuid != u) ==> Get(budget.gpu, u) == 0)
  }

  /** The budget of a decision is read off the snapshot: what is free in each scope, and nothing where that is unknown. */
  lemma BudgetExact(e: Engine, cfg: Config, s: Snapshot, input: Input, now: nat)
    requires Evaluate(e, cfg, s, input, now).Some?
    ensures var (e', decision) := Evaluate(e, cfg, s, input, now).value;
      BudgetLaw(e, cfg, s, input, now, e', decision.budget)
  {
    var h, outcomes := EvaluateShape(e, cfg, s, input, now);
    ConclusionShape(e, cfg, s, input, h, outcomes, now);
    var (e', decision) := Evaluate(e, cfg, s, input, now).value;
    hide Evaluate, Conclusion;
    HostBudget(e, cfg, s, input, now, h, outcomes);
    forall i | 0 <= i < |s.gpus|
      ensures s.gpus[i].uuid in e'.gpus
        && DeviceLaw(cfg, s.gpus[i], input, e'.gpus[s.gpus[i].uuid].cap, Get(decision.budget.gpu, s.gpus[i].uuid))
    {
      PresentBudget(e, cfg, s, input, now, h, outcomes, i);
    }
    forall u | forall i :: 0 <= i < |s.gpus| ==> s.gpus[i].uuid != u ensures Get(decision.budget.gpu, u) == 0 {
      AbsentBudget(e, cfg, s, input, now, h, outcomes, u);
    }
    hide CpuLaw, RamLaw, DeviceLaw, ManagedBudget, NextGpus;
  }

  lemma HostBudget(e: Engine, cfg: Config, s: Snapshot, input: Input, now: nat, h: Host, outcomes: map<Uuid, Outcome>)
    requires Accounts(input.allocations).Some? && ValidSnapshot(s)
    requires h == ViewHost(cfg, e, s, input, Accounts(input.allocations).value, now)
    ensures CpuLaw(e, cfg, s, input, now, ManagedBudget(input, h, outcomes).cpu)
    ensures RamLaw(cfg, s, input, ManagedBudget(input, h, outcomes).ram)
  {
    ViewCpuExact(e, cfg, s, input, now);
    ViewRamExact(cfg, s, input);
    hide Accounts, ViewCpu, ViewRam, CpuSeen, RamSeen, CpuLaw, RamLaw;
    CpuFromView(e, cfg, s, input, now, h.cpu);
    RamFromView(cfg, s, input, h.ram);
  }

  lemma PresentBudget(e: Engine, cfg: Config, s: Snapshot, input: Input, now: nat, h: Host, outcomes: map<Uuid, Outcome>,
                      i: nat)
    requires Accounts(input.allocations) == Some(h.acc) && DistinctGpus(s.gpus) && i < |s.gpus|
    requires outcomes == Outcomes(cfg, e, s, h, s.gpus, now)
    ensures s.gpus[i].uuid in NextGpus(e, outcomes)
    ensures DeviceLaw(cfg, s.gpus[i], input, NextGpus(e, outcomes)[s.gpus[i].uuid].cap,
                      Get(ManagedBudget(input, h, outcomes).gpu, s.gpus[i].uuid))
  {
    var g := s.gpus[i];
    OutcomesListed(cfg, e, s, h, s.gpus, now);
    DeviceBudget(cfg, e, s, h, g, now);
    AccountsExact(input.allocations, Dim.Gpu(g.uuid));
    MemoryBudgetFree(cfg, g, input);
    hide Outcomes, DeviceFinal, Accounts, MemoryFree, MemoryBudget, Managed;
    assert Managed(input, Dim.Gpu(g.uuid)) == Get(h.acc.observed.gpu, g.uuid) by {
      ManagedIs(input, Dim.Gpu(g.uuid));
    }
  }

  lemma ManagedIs(input: Input, d: Dim)
    requires Accounts(input.allocations).Some?
    ensures Managed(input, d) == Amount(Accounts(input.allocations).value.observed, d)
  {
    AccountsExact(input.allocations, d);
    hide Accounts, TotalIn;
  }

  lemma AbsentBudget(e: Engine, cfg: Config, s: Snapshot, input: Input, now: nat, h: Host, outcomes: map<Uuid, Outcome>,
                     u: Uuid)
    requires outcomes == Outcomes(cfg, e, s, h, s.gpus, now) && forall i :: 0 <= i < |s.gpus| ==> s.gpus[i].uuid != u
    ensures Get(ManagedBudget(input, h, outcomes).gpu, u) == 0
  {
    if u in outcomes {
      var i := OutcomesPresent(cfg, e, s, h, s.gpus, now, u);
    }
    hide Outcomes;
  }
}
