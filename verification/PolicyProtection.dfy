/** When the policy protects a device's other users, by how much, and for how long (src/policy.rs). */
module PolicyProtection {
  import opened Options
  import opened ResourceVectors
  import opened Policy
  import opened PolicyBudgets

  // ---------------------------------------------------------------- what a device shows

  /** One device of a snapshot, what it looked like last time, and what managed work holds on it. */
  datatype Sight = Sight(g: Policy.Gpu, before: PreviousGpu, mode: Option<Capability>, managed: nat, charge: nat, dark: bool)

  ghost predicate NewProcess(v: Sight) {
    v.g.externalPids.Some?
    && exists i :: 0 <= i < |v.g.externalPids.value| && v.g.externalPids.value[i] !in v.before.pids
  }

  /** Others hold more than last time, or anything at all if there was no last time. */
  ghost predicate ForeignGrew(v: Sight) {
    v.g.used.Some? && v.g.used.value > v.managed + GetOr(v.before.externalMemory, 0)
  }

  ghost predicate FreshSample(v: Sight) {
    v.g.sampleId.Some? && (v.before.sampleId.Some? ==> v.before.sampleId.value < v.g.sampleId.value)
  }

  /** An operator's contract with the occupants makes their activity irrelevant. */
  ghost predicate Watched(v: Sight) {
    v.mode != Some(BestEffortOccupied)
  }

  ghost predicate OthersCompute(v: Sight) {
    Watched(v) && v.g.compute == Active
  }

  /** The device cannot be read, its use cannot be attributed, or nobody knows whether its occupants compute. */
  ghost predicate Unclear(v: Sight) {
    || v.mode == Some(InsufficientObservability) || v.g.used.None? || v.g.externalPids.None? || v.dark
    || (v.g.used.Some? && v.managed > v.g.used.value)
    || (Watched(v) && v.g.compute == Unknown)
    || (Watched(v) && v.g.externalPids.Some? && v.g.externalPids.value != [] && !FreshSample(v))
  }

  /** A device that is not to be shared has an occupant, or may have one. */
  ghost predicate Shared(v: Sight) {
    v.mode == Some(ConservativeNonSharing) && (v.g.externalPids.None? || v.g.externalPids.value != [])
  }

  /** Managed work does not fit beside the reserve and the others. */
  ghost predicate Overrun(cfg: Config, v: Sight) {
    v.charge > 0
    && (v.g.used.None? || cfg.reserveVram + Monus(v.g.used.value, v.managed) + v.charge > v.g.total)
  }

  ghost predicate Quiet(cfg: Config, v: Sight) {
    && !NewProcess(v) && !ForeignGrew(v) && !OthersCompute(v) && !Unclear(v) && !Shared(v) && !Overrun(cfg, v)
  }

  /** The loop's reading of a device says exactly this. */
  lemma ReadExact(cfg: Config, at: nat, v: Sight)
    requires v.mode == EffectiveCapability(cfg, at, v.g)
    ensures var r := Read(cfg, at, v.g, v.before, v.managed, v.charge, v.dark);
      && r.mode == v.mode && (r.event <==> NewProcess(v) || ForeignGrew(v)) && (r.freshSample <==> FreshSample(v))
      && (r.active <==> OthersCompute(v)) && (r.unknown <==> Unclear(v)) && (r.conflict <==> Shared(v))
      && (r.breached <==> Overrun(cfg, v))
      && (Blocks(r) <==> !Quiet(cfg, v))
  {
    hide EffectiveCapability;
    PidsNew(v);
  }

  lemma PidsNew(v: Sight)
    ensures Pids(v.g) - v.before.pids != {} <==> NewProcess(v)
    ensures Pids(v.g) != {} <==> v.g.externalPids.Some? && v.g.externalPids.value != []
  {
    if v.g.externalPids.Some? {
      var pids := v.g.externalPids.value;
      if NewProcess(v) {
        var i :| 0 <= i < |pids| && pids[i] !in v.before.pids;
        assert pids[i] in Pids(v.g) - v.before.pids;
      }
      if pids != [] {
        assert pids[0] in Pids(v.g);
      }
    }
  }

  // ---------------------------------------------------------------- the cap

  /** `x` is the most that is left of `charge` once at least `percent` of it is given up. */
  ghost predicate GivesUp(x: nat, charge: nat, percent: nat) {
    && (x > 0 ==> Leaves(x, charge, percent)) && forall y: nat :: Leaves(y, charge, percent) ==> y <= x
  }

  predicate Leaves(y: nat, charge: nat, percent: nat) {
    100 * y + charge * percent <= 100 * charge
  }

  lemma ShrinkExact(charge: nat, percent: nat)
    requires charge <= U64_MAX
    ensures GivesUp(Monus(charge, CeilRatio(charge, percent, 100)), charge, percent)
  {
    RoundsUpExact(charge, percent, 100);
    var share := (charge * percent + 100 - 1) / 100;
    var x := Monus(charge, CeilRatio(charge, percent, 100));
    assert share * 100 >= charge * percent && (share > 0 ==> (share - 1) * 100 < charge * percent);
    forall y: nat | Leaves(y, charge, percent) ensures y <= x {
    }
  }

  /** Fresh evidence of others, or the first doubt, tightens the cap; repeated doubt only holds it. */
  ghost predicate Alarmed(v: Sight, cap: Option<nat>) {
    NewProcess(v) || ForeignGrew(v) || (OthersCompute(v) && FreshSample(v)) || ((Unclear(v) || OthersCompute(v)) && cap.None?)
  }

  /** What the cap starts from: nothing at all for a device that must not be shared or cannot be read. */
  ghost function Base(v: Sight): Option<nat> {
    if Shared(v) || v.mode == Some(InsufficientObservability) then Some(0) else v.before.cap
  }

  ghost function Percent(cfg: Config, v: Sight): nat {
    if OthersCompute(v) && FreshSample(v) then cfg.activeShrink else cfg.protectiveShrink
  }

  /** The cap an evaluation leaves on a device it does not clear. */
  ghost predicate CapLaw(cfg: Config, v: Sight, cap: Option<nat>) {
    if !Alarmed(v, Base(v)) then cap == Base(v)
    else exists x: nat :: GivesUp(x, v.charge, Percent(cfg, v)) && cap == Some(Lower(Base(v), x))
  }

  lemma NewCapExact(cfg: Config, at: nat, v: Sight)
    requires v.mode == EffectiveCapability(cfg, at, v.g) && v.charge <= U64_MAX
    ensures CapLaw(cfg, v, NewCap(cfg, Read(cfg, at, v.g, v.before, v.managed, v.charge, v.dark), v.before.cap, v.charge))
  {
    ReadExact(cfg, at, v);
    ShrinkExact(v.charge, Percent(cfg, v));
    var x := Monus(v.charge, CeilRatio(v.charge, Percent(cfg, v), 100));
    hide Read, GivesUp, CeilRatio, NewProcess, ForeignGrew, OthersCompute, Unclear, Shared, FreshSample, EffectiveCapability;
    if Alarmed(v, Base(v)) {
      assert GivesUp(x, v.charge, Percent(cfg, v));
    }
  }

  // ---------------------------------------------------------------- one evaluation

  /** A started allocation that names the device and that nobody has observed. */
  ghost predicate NamedInTheDark(input: Input, u: Uuid) {
    exists i :: 0 <= i < |input.allocations| && input.allocations[i].stage != Pending
      && input.allocations[i].observed.None? && u in input.allocations[i].requested.gpu
  }

  lemma {:induction false} MissingKeys(allocations: seq<Allocation>, u: Uuid)
    requires Accounts(allocations).Some?
    ensures u in Accounts(allocations).value.missing.gpu <==>
      exists i :: 0 <= i < |allocations| && allocations[i].stage != Pending && allocations[i].observed.None?
                  && u in allocations[i].requested.gpu
  {
    if allocations != [] {
      var n := |allocations| - 1;
      MissingKeys(allocations[..n], u);
      MissingLast(Accounts(allocations[..n]).value, allocations[n], u);
      hide Tally;
      if i :| 0 <= i < |allocations| && allocations[i].stage != Pending && allocations[i].observed.None?
              && u in allocations[i].requested.gpu && i < n {
        assert allocations[..n][i] == allocations[i];
      }
    }
  }

  lemma MissingLast(acc: Account, a: Allocation, u: Uuid)
    requires Tally(acc, a).Some?
    ensures u in Tally(acc, a).value.missing.gpu <==>
      u in acc.missing.gpu || (a.stage != Pending && a.observed.None? && u in a.requested.gpu)
  {
    hide Charge;
  }

  lemma {:induction false} ChargedBounded(allocations: seq<Allocation>, d: Dim)
    requires Accounts(allocations).Some?
    ensures Amount(Accounts(allocations).value.charged, d) <= U64_MAX
  {
    if allocations != [] {
      var n := |allocations| - 1;
      ChargedBounded(allocations[..n], d);
      AddBounded(Accounts(allocations[..n]).value.charged, Charge(allocations[n]), d);
      hide Charge, Add;
    }
  }

  lemma AddBounded(a: Resources, b: Resources, d: Dim)
    requires Add(a, b).Some? && Amount(a, d) <= U64_MAX
    ensures Amount(Add(a, b).value, d) <= U64_MAX
  {
  }

  /** How an evaluation sees one device of its snapshot. */
  ghost function Seen(e: Engine, cfg: Config, s: Snapshot, input: Input, g: Policy.Gpu): Sight {
    Sight(g, Prior(e, g.uuid), EffectiveCapability(cfg, s.observedAt, g), Managed(input, Dim.Gpu(g.uuid)),
          ChargedIn(input, Dim.Gpu(g.uuid)), NamedInTheDark(input, g.uuid))
  }

  /** CPU and RAM are known, and managed work fits both budgets, on a node that is not being drained. */
  ghost predicate HostSafe(e: Engine, cfg: Config, s: Snapshot, input: Input, now: nat, budget: Resources) {
    && !input.explicitDrain && CpuKnown(e, cfg, s, input, now) && RamKnown(s, input)
    && CpuScope(e, cfg, s, now).capacity > 0 && s.totalRam > 0
    && ChargedIn(input, Cpu) <= budget.cpu && ChargedIn(input, Ram) <= budget.ram
  }

  lemma SeenAs(e: Engine, cfg: Config, s: Snapshot, input: Input, h: Host, g: Policy.Gpu, now: nat)
    requires Valid(cfg, s, input) && Accounts(input.allocations) == Some(h.acc)
    ensures var v := Seen(e, cfg, s, input, g);
      && v.managed == Get(h.acc.observed.gpu, g.uuid) && v.charge == Get(h.acc.charged.gpu, g.uuid)
      && (v.dark <==> g.uuid in h.acc.missing.gpu) && v.charge <= U64_MAX
  {
    AccountsExact(input.allocations, Dim.Gpu(g.uuid));
    ChargedExact(input.allocations, Dim.Gpu(g.uuid));
    ChargedBounded(input.allocations, Dim.Gpu(g.uuid));
    MissingKeys(input.allocations, g.uuid);
    hide Accounts, TotalIn, Charges, Observations, Unobserved;
  }

  lemma HostSafeExact(e: Engine, cfg: Config, s: Snapshot, input: Input, now: nat, h: Host, outcomes: map<Uuid, Outcome>)
    requires Valid(cfg, s, input) && Accounts(input.allocations).Some?
    requires h == ViewHost(cfg, e, s, input, Accounts(input.allocations).value, now)
    ensures h.safe <==> HostSafe(e, cfg, s, input, now, ManagedBudget(input, h, outcomes))
  {
    ViewCpuExact(e, cfg, s, input, now);
    ViewRamExact(cfg, s, input);
    ChargedExact(input.allocations, Cpu);
    ChargedExact(input.allocations, Ram);
    hide Accounts, ViewCpu, ViewRam, Charges, TotalIn, CpuKnown, RamKnown, CpuScope, Fills, RamReserve, Managed, Valid;
  }

  /** A clock that was started early enough. */
  predicate Rested(cfg: Config, since: Option<nat>, now: nat) {
    since.Some? && (now >= since.value + cfg.cooldown || cfg.cooldown == 0)
  }

  /** The device part of an evaluation: its clock runs exactly while host and device are quiet, and its cap follows. */
  ghost predicate DeviceFollows(e: Engine, cfg: Config, s: Snapshot, input: Input, now: nat, e': Engine, budget: Resources,
                                g: Policy.Gpu)
  {
    var v := Seen(e, cfg, s, input, g);
    && g.uuid in e'.gpus
    && var after := e'.gpus[g.uuid];
    && var calm := Quiet(cfg, v) && HostSafe(e, cfg, s, input, now, budget);
    && after.stableSince == (if calm then Some(GetOr(v.before.stableSince, now)) else None)
    && (if calm && Rested(cfg, after.stableSince, now) then after.cap == None else CapLaw(cfg, v, after.cap))
  }

  lemma DeviceFollowed(e: Engine, cfg: Config, s: Snapshot, input: Input, now: nat, h: Host, g: Policy.Gpu)
    requires Valid(cfg, s, input) && Accounts(input.allocations) == Some(h.acc)
    ensures var v := Seen(e, cfg, s, input, g);
      var o := DeviceFinal(cfg, e, s, h, g, now);
      && (o.blocked <==> !Quiet(cfg, v))
      && o.next.stableSince == (if !o.blocked && h.safe then Some(GetOr(v.before.stableSince, now)) else None)
      && (if !o.blocked && Cooled(cfg, o.next.stableSince, now) then o.next.cap == None else CapLaw(cfg, v, o.next.cap))
  {
    var v := Seen(e, cfg, s, input, g);
    SeenAs(e, cfg, s, input, h, g, now);
    ReadExact(cfg, s.observedAt, v);
    NewCapExact(cfg, s.observedAt, v);
    hide Read, Quiet, CapLaw, NewCap, Blocks, Valid, Accounts, MemoryBudget, EffectiveCapability, Managed, ChargedIn, NamedInTheDark;
  }

  /** The whole node is quiet: the host is safe, every device is quiet, and no charged device is missing. */
  ghost predicate NodeQuiet(e: Engine, cfg: Config, s: Snapshot, input: Input, now: nat, budget: Resources) {
    HostSafe(e, cfg, s, input, now, budget) && DevicesQuiet(e, cfg, s, input) && DevicesPresent(s, input)
  }

  ghost predicate DevicesQuiet(e: Engine, cfg: Config, s: Snapshot, input: Input) {
    forall i :: 0 <= i < |s.gpus| ==> Quiet(cfg, Seen(e, cfg, s, input, s.gpus[i]))
  }

  ghost predicate InInventory(s: Snapshot, u: Uuid) {
    exists j :: 0 <= j < |s.gpus| && s.gpus[j].uuid == u
  }

  ghost predicate DevicesPresent(s: Snapshot, input: Input) {
    forall i, u :: 0 <= i < |input.allocations| && u in Charge(input.allocations[i]).gpu ==> InInventory(s, u)
  }

  /** Both clocks run exactly while what they watch is quiet, and permissions wait for them. */
  ghost predicate PermissionLaw(e: Engine, cfg: Config, s: Snapshot, input: Input, now: nat, e': Engine, d: Decision) {
    && e'.cpuRamStableSince ==
         (if HostSafe(e, cfg, s, input, now, d.budget) then Some(GetOr(e.cpuRamStableSince, now)) else None)
    && e'.stableSince ==
         (if NodeQuiet(e, cfg, s, input, now, d.budget) then Some(GetOr(e.stableSince, now)) else None)
    && (d.cpuRamExpansion <==> Rested(cfg, e'.cpuRamStableSince, now))
    && (d.expansion <==> (Rested(cfg, e'.stableSince, now) && d.wouldDrain == [])
                         || (d.cpuRamExpansion && exists u :: u in d.headroom.gpu && d.headroom.gpu[u] > 0))
  }

  /** Headroom is budget minus every charge, once expansion is permitted; a device's, once it has rested. */
  ghost predicate HeadroomLaw(e: Engine, cfg: Config, s: Snapshot, input: Input, now: nat, e': Engine, d: Decision) {
    && d.headroom.cpu == (if d.expansion || d.cpuRamExpansion then Monus(d.budget.cpu, ChargedIn(input, Cpu)) else 0)
    && d.headroom.ram == (if d.expansion || d.cpuRamExpansion then Monus(d.budget.ram, ChargedIn(input, Ram)) else 0)
    && (forall i :: 0 <= i < |s.gpus| ==>
          var u := s.gpus[i].uuid;
          Get(d.headroom.gpu, u) == if u in e'.gpus && Rested(cfg, e'.gpus[u].stableSince, now)
                                    then Monus(Get(d.budget.gpu, u), ChargedIn(input, Dim.Gpu(u))) else 0)
  }

  /** The pieces of a conclusion that concern permissions. */
  lemma ConclusionParts(e: Engine, cfg: Config, s: Snapshot, input: Input, h: Host, outcomes: map<Uuid, Outcome>, now: nat)
    ensures var (e', d) := Conclusion(e, cfg, s, input, h, outcomes, now);
      var headroom := Headroom(cfg, h, outcomes, d.budget, now);
      && d.budget == ManagedBudget(input, h, outcomes) && e'.gpus == NextGpus(e, outcomes)
      && e'.stableSince == Since(!UnsafeNow(input, h, outcomes), e.stableSince, now)
      && e'.cpuRamStableSince == Since(h.safe, e.cpuRamStableSince, now)
      && d.cpuRamExpansion == Cooled(cfg, e'.cpuRamStableSince, now)
      && d.headroom.gpu == headroom.gpu
      && d.headroom.cpu == (if d.expansion || d.cpuRamExpansion then headroom.cpu else 0)
      && d.headroom.ram == (if d.expansion || d.cpuRamExpansion then headroom.ram else 0)
      && (d.expansion <==> (!UnsafeNow(input, h, outcomes) && Cooled(cfg, e'.stableSince, now) && d.wouldDrain == [])
                           || (d.cpuRamExpansion && exists u :: u in headroom.gpu && headroom.gpu[u] > 0))
  {
    hide UnsafeNow, ManagedBudget, Victims, Headroom, NextGpus, Cooled, Since;
  }

  lemma CooledRested(cfg: Config, since: Option<nat>, now: nat)
    ensures Cooled(cfg, since, now) <==> Rested(cfg, since, now)
  {
  }

  /** Everything an evaluation decides about devices, permissions and headroom, in terms of what it was shown. */
  lemma ProtectionExact(e: Engine, cfg: Config, s: Snapshot, input: Input, now: nat)
    requires Evaluate(e, cfg, s, input, now).Some?
    ensures var (e', d) := Evaluate(e, cfg, s, input, now).value;
      && (forall i :: 0 <= i < |s.gpus| ==> DeviceFollows(e, cfg, s, input, now, e', d.budget, s.gpus[i]))
      && PermissionLaw(e, cfg, s, input, now, e', d) && HeadroomLaw(e, cfg, s, input, now, e', d)
  {
    var h, outcomes := EvaluateShape(e, cfg, s, input, now);
    var (e', d) := Evaluate(e, cfg, s, input, now).value;
    ConclusionParts(e, cfg, s, input, h, outcomes, now);
    HostSafeExact(e, cfg, s, input, now, h, outcomes);
    hide Evaluate, Conclusion, ViewHost, Outcomes, DeviceFollows, PermissionLaw, HeadroomLaw, ManagedBudget, NextGpus;
    forall i | 0 <= i < |s.gpus| ensures DeviceFollows(e, cfg, s, input, now, e', d.budget, s.gpus[i]) {
      DeviceTaken(e, cfg, s, input, now, h, outcomes, e', d.budget, i);
    }
    PermissionTaken(e, cfg, s, input, now, h, outcomes, e', d);
    HeadroomTaken(e, cfg, s, input, now, h, outcomes, e', d);
  }

  lemma DeviceTaken(e: Engine, cfg: Config, s: Snapshot, input: Input, now: nat, h: Host, outcomes: map<Uuid, Outcome>,
                    e': Engine, budget: Resources, i: nat)
    requires Valid(cfg, s, input) && Accounts(input.allocations) == Some(h.acc) && i < |s.gpus|
    requires outcomes == Outcomes(cfg, e, s, h, s.gpus, now) && e'.gpus == NextGpus(e, outcomes)
    requires h.safe <==> HostSafe(e, cfg, s, input, now, budget)
    ensures DeviceFollows(e, cfg, s, input, now, e', budget, s.gpus[i])
  {
    OutcomesListed(cfg, e, s, h, s.gpus, now);
    DeviceFollowed(e, cfg, s, input, now, h, s.gpus[i]);
    CooledRested(cfg, e'.gpus[s.gpus[i].uuid].stableSince, now);
    hide Outcomes, DeviceFinal, CapLaw, Quiet, HostSafe, Accounts, Valid, Cooled, Rested, Seen;
  }

  lemma BlockedExact(e: Engine, cfg: Config, s: Snapshot, input: Input, now: nat, h: Host, outcomes: map<Uuid, Outcome>)
    requires Valid(cfg, s, input) && Accounts(input.allocations) == Some(h.acc)
    requires outcomes == Outcomes(cfg, e, s, h, s.gpus, now)
    ensures (exists u :: u in outcomes && outcomes[u].blocked) <==> !DevicesQuiet(e, cfg, s, input)
    ensures forall u :: u in outcomes <==> InInventory(s, u)
  {
    OutcomesListed(cfg, e, s, h, s.gpus, now);
    forall i | 0 <= i < |s.gpus|
      ensures outcomes[s.gpus[i].uuid].blocked <==> !Quiet(cfg, Seen(e, cfg, s, input, s.gpus[i]))
    {
      DeviceFollowed(e, cfg, s, input, now, h, s.gpus[i]);
    }
    forall u | u in outcomes ensures InInventory(s, u) {
      var i := OutcomesPresent(cfg, e, s, h, s.gpus, now, u);
    }
    hide Outcomes, DeviceFinal, Quiet, Seen, Accounts, Valid;
  }

  lemma {:induction false} ChargedKeys(allocations: seq<Allocation>, u: Uuid)
    requires Accounts(allocations).Some?
    ensures u in Accounts(allocations).value.charged.gpu <==>
      exists i :: 0 <= i < |allocations| && u in Charge(allocations[i]).gpu
  {
    hide Charge;
    if allocations != [] {
      var n := |allocations| - 1;
      ChargedKeys(allocations[..n], u);
      ChargedLast(Accounts(allocations[..n]).value, allocations[n], u);
      hide Tally;
      if i :| 0 <= i < |allocations| && u in Charge(allocations[i]).gpu && i < n {
        assert allocations[..n][i] == allocations[i];
      }
    }
  }

  lemma ChargedLast(acc: Account, a: Allocation, u: Uuid)
    requires Tally(acc, a).Some?
    ensures u in Tally(acc, a).value.charged.gpu <==> u in acc.charged.gpu || u in Charge(a).gpu
  {
    hide Charge;
  }

  lemma LostExact(s: Snapshot, input: Input, h: Host, outcomes: map<Uuid, Outcome>)
    requires Accounts(input.allocations) == Some(h.acc) && forall u :: u in outcomes <==> InInventory(s, u)
    ensures Lost(h, outcomes) == {} <==> DevicesPresent(s, input)
  {
    hide Charge, InInventory;
    forall u ensures u in h.acc.charged.gpu <==>
                     exists i :: 0 <= i < |input.allocations| && u in Charge(input.allocations[i]).gpu {
      ChargedKeys(input.allocations, u);
    }
    hide Accounts;
    if Lost(h, outcomes) == {} {
      forall i, u | 0 <= i < |input.allocations| && u in Charge(input.allocations[i]).gpu ensures InInventory(s, u) {
        assert u !in Lost(h, outcomes);
      }
    } else {
      var u :| u in Lost(h, outcomes);
      assert u in h.acc.charged.gpu && !InInventory(s, u);
    }
  }

  lemma QuietExact(e: Engine, cfg: Config, s: Snapshot, input: Input, now: nat, h: Host, outcomes: map<Uuid, Outcome>)
    requires Valid(cfg, s, input) && Accounts(input.allocations) == Some(h.acc)
    requires h == ViewHost(cfg, e, s, input, h.acc, now) && outcomes == Outcomes(cfg, e, s, h, s.gpus, now)
    ensures UnsafeNow(input, h, outcomes) <==> !NodeQuiet(e, cfg, s, input, now, ManagedBudget(input, h, outcomes))
  {
    hide Outcomes, HostSafe, DevicesQuiet, DevicesPresent, ManagedBudget, InInventory, Lost;
    HostSafeExact(e, cfg, s, input, now, h, outcomes);
    CalmHostIsSafe(e, cfg, s, input, h.acc, now);
    BlockedExact(e, cfg, s, input, now, h, outcomes);
    LostExact(s, input, h, outcomes);
    hide Valid, Accounts, ViewHost;
  }

  lemma PermissionTaken(e: Engine, cfg: Config, s: Snapshot, input: Input, now: nat, h: Host, outcomes: map<Uuid, Outcome>,
                        e': Engine, d: Decision)
    requires Valid(cfg, s, input) && Accounts(input.allocations) == Some(h.acc)
    requires h == ViewHost(cfg, e, s, input, h.acc, now) && outcomes == Outcomes(cfg, e, s, h, s.gpus, now)
    requires (e', d) == Conclusion(e, cfg, s, input, h, outcomes, now)
    ensures PermissionLaw(e, cfg, s, input, now, e', d)
  {
    ConclusionParts(e, cfg, s, input, h, outcomes, now);
    HostSafeExact(e, cfg, s, input, now, h, outcomes);
    QuietExact(e, cfg, s, input, now, h, outcomes);
    CooledRested(cfg, e'.cpuRamStableSince, now);
    CooledRested(cfg, e'.stableSince, now);
    hide Valid, Accounts, ViewHost, Outcomes, HostSafe, NodeQuiet, UnsafeNow, Conclusion, ManagedBudget, Headroom, Cooled, Rested;
  }

  lemma HeadroomTaken(e: Engine, cfg: Config, s: Snapshot, input: Input, now: nat, h: Host, outcomes: map<Uuid, Outcome>,
                      e': Engine, d: Decision)
    requires Valid(cfg, s, input) && Accounts(input.allocations) == Some(h.acc)
    requires h == ViewHost(cfg, e, s, input, h.acc, now) && outcomes == Outcomes(cfg, e, s, h, s.gpus, now)
    requires (e', d) == Conclusion(e, cfg, s, input, h, outcomes, now)
    ensures HeadroomLaw(e, cfg, s, input, now, e', d)
  {
    hide Conclusion, ViewHost, Accounts, Outcomes, Headroom, ManagedBudget, NextGpus, Rested, ChargedIn, UnsafeNow, Since, Cooled;
    ConclusionParts(e, cfg, s, input, h, outcomes, now);
    HostHeadroom(cfg, input, h, outcomes, d.budget, now);
    SafeIsNotDrained(e, cfg, s, input, h.acc, now);
    forall i | 0 <= i < |s.gpus|
      ensures var u := s.gpus[i].uuid;
        Get(d.headroom.gpu, u) == if u in e'.gpus && Rested(cfg, e'.gpus[u].stableSince, now)
                                  then Monus(Get(d.budget.gpu, u), ChargedIn(input, Dim.Gpu(u))) else 0
    {
      DeviceHeadroom(e, cfg, s, input, now, h, outcomes, i);
    }
  }

  lemma SafeIsNotDrained(e: Engine, cfg: Config, s: Snapshot, input: Input, acc: Account, now: nat)
    ensures ViewHost(cfg, e, s, input, acc, now).safe ==> !input.explicitDrain
  {
    hide ViewCpu, ViewRam;
  }

  lemma HostHeadroom(cfg: Config, input: Input, h: Host, outcomes: map<Uuid, Outcome>, budget: Resources, now: nat)
    requires Accounts(input.allocations) == Some(h.acc) && DistinctIds(input.allocations)
    ensures Headroom(cfg, h, outcomes, budget, now).cpu == Monus(budget.cpu, ChargedIn(input, Cpu))
    ensures Headroom(cfg, h, outcomes, budget, now).ram == Monus(budget.ram, ChargedIn(input, Ram))
  {
    ChargedExact(input.allocations, Cpu);
    ChargedExact(input.allocations, Ram);
    hide Accounts, TotalIn, Charges, Cooled;
  }

  lemma DeviceHeadroom(e: Engine, cfg: Config, s: Snapshot, input: Input, now: nat, h: Host, outcomes: map<Uuid, Outcome>,
                       i: nat)
    requires Valid(cfg, s, input) && Accounts(input.allocations) == Some(h.acc) && i < |s.gpus|
    requires h.safe ==> !input.explicitDrain
    requires outcomes == Outcomes(cfg, e, s, h, s.gpus, now)
    ensures var u := s.gpus[i].uuid;
      var budget := ManagedBudget(input, h, outcomes);
      && u in NextGpus(e, outcomes)
      && Get(Headroom(cfg, h, outcomes, budget, now).gpu, u)
         == if Rested(cfg, NextGpus(e, outcomes)[u].stableSince, now)
            then Monus(Get(budget.gpu, u), ChargedIn(input, Dim.Gpu(u))) else 0
  {
    var g := s.gpus[i];
    var budget := ManagedBudget(input, h, outcomes);
    OutcomesListed(cfg, e, s, h, s.gpus, now);
    DeviceFollowed(e, cfg, s, input, now, h, g);
    assert g.uuid in outcomes;
    hide Outcomes, DeviceFinal, CapLaw, Quiet, Seen, Valid;
    HeadroomAt(cfg, h, outcomes, budget, now, g.uuid);
    CooledRested(cfg, outcomes[g.uuid].next.stableSince, now);
    hide Headroom, Cooled, Rested;
    assert Get(h.acc.charged.gpu, g.uuid) == ChargedIn(input, Dim.Gpu(g.uuid)) by {
      ChargedExact(input.allocations, Dim.Gpu(g.uuid));
    }
    hide Accounts, ChargedIn;
  }

  lemma HeadroomAt(cfg: Config, h: Host, outcomes: map<Uuid, Outcome>, budget: Resources, now: nat, u: Uuid)
    ensures Get(Headroom(cfg, h, outcomes, budget, now).gpu, u)
      == if u in budget.gpu && u in outcomes && h.safe && !outcomes[u].blocked
            && Cooled(cfg, outcomes[u].next.stableSince, now)
         then Monus(Get(budget.gpu, u), Get(h.acc.charged.gpu, u)) else 0
  {
    hide Cooled;
  }

  // ---------------------------------------------------------------- over a history

  /** The node was safe at evaluation `i`, by the budget that evaluation reported. */
  ghost predicate SafeAt(es: seq<Engine>, ts: seq<Trial>, i: nat) {
    && i < |ts| && i < |es| && Result(es[i], ts[i]).Some?
    && HostSafe(es[i], ts[i].cfg, ts[i].s, ts[i].input, ts[i].now, Result(es[i], ts[i]).value.1.budget)
  }

  lemma SafeStep(es: seq<Engine>, ts: seq<Trial>, i: nat)
    requires History(es, ts) && i < |ts|
    ensures es[i + 1].cpuRamStableSince ==
      (if SafeAt(es, ts, i) then Some(GetOr(es[i].cpuRamStableSince, ts[i].now)) else None)
    ensures Result(es[i], ts[i]).Some?
      && (Result(es[i], ts[i]).value.1.cpuRamExpansion <==> Rested(ts[i].cfg, es[i + 1].cpuRamStableSince, ts[i].now))
  {
    assert Succeeds(es[i], ts[i], es[i + 1]);
    ProtectionExact(es[i], ts[i].cfg, ts[i].s, ts[i].input, ts[i].now);
    hide Evaluate, HostSafe, NodeQuiet, HeadroomLaw, DeviceFollows;
  }

  /** A running CPU/RAM clock is witnessed by an unbroken run of safe evaluations since it was started. */
  lemma {:induction false} SafeSpan(es: seq<Engine>, ts: seq<Trial>, k: nat) returns (j: nat)
    requires History(es, ts) && k <= |ts| && es[k].cpuRamStableSince.Some?
    ensures j < k && ts[j].now == es[k].cpuRamStableSince.value
    ensures forall i :: j <= i < k ==> SafeAt(es, ts, i)
  {
    hide SafeAt, Succeeds, Result, Rested;
    assert k > 0;
    SafeStep(es, ts, k - 1);
    if es[k - 1].cpuRamStableSince.Some? {
      j := SafeSpan(es, ts, k - 1);
    } else {
      j := k - 1;
    }
  }

  /** CPU and RAM may be expanded only after the node was safe in every evaluation of a whole cooldown. */
  lemma ExpandedAfterCooldown(es: seq<Engine>, ts: seq<Trial>, k: nat) returns (j: nat)
    requires History(es, ts) && k < |ts| && Result(es[k], ts[k]).Some? && Result(es[k], ts[k]).value.1.cpuRamExpansion
    ensures j <= k && ts[j].now + ts[k].cfg.cooldown <= ts[k].now
    ensures forall i :: j <= i <= k ==> SafeAt(es, ts, i)
  {
    hide SafeAt, Succeeds, Result;
    SafeStep(es, ts, k);
    j := SafeSpan(es, ts, k + 1);
    TimeMovesOn(es, ts, j, k);
  }
}
