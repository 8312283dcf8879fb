/** The policy engine as it runs: fields that one evaluation replaces, and the loops that compute their values. */
module PolicyService {
  import opened Options
  import opened Totals
  import opened ResourceVectors
  import opened Listings
  import opened Policy
  import opened PolicyBudgets
  import opened PolicyProtection

  lemma {:induction false} AccountsStop(allocations: seq<Allocation>, i: nat)
    requires i <= |allocations| && Accounts(allocations[..i]).None?
    ensures Accounts(allocations).None?
    decreases |allocations| - i
  {
    if i < |allocations| {
      assert allocations[..i + 1][..i] == allocations[..i];
      AccountsStop(allocations, i + 1);
    } else {
      assert allocations[..i] == allocations;
    }
  }

  /** The accounting loop: charged, observed and unobserved totals, and the charge of each allocation. */
  method TallyLoop(allocations: seq<Allocation>) returns (acc: Option<Account>, charges: map<Id, Resources>)
    ensures acc == Accounts(allocations)
    ensures acc.Some? ==> charges == Charges(allocations)
  {
    hide Add;
    var charged, observed, missing := ZERO, ZERO, ZERO;
    charges := map[];
    var i := 0;
    while i < |allocations|
      invariant 0 <= i <= |allocations|
      invariant Accounts(allocations[..i]) == Some(Account(charged, observed, missing))
      invariant charges == Charges(allocations[..i])
    {
      assert allocations[..i + 1][..i] == allocations[..i];
      var a := allocations[i];
      var charge := a.requested;
      var ok := true;
      if a.stage != Pending {
        if a.observed.Some? {
          var sum := AddLoop(observed, a.observed.value);
          if sum.Some? { observed := sum.value; } else { ok := false; }
          charge := Maximum(charge, a.observed.value);
        } else {
          var sum := AddLoop(missing, a.requested);
          if sum.Some? { missing := sum.value; } else { ok := false; }
        }
      }
      var total := AddLoop(charged, charge);
      if !ok || total.None? {
        AccountsStop(allocations, i + 1);
        return None, charges;
      }
      charged := total.value;
      charges := charges[a.id := charge];
      i := i + 1;
    }
    assert allocations[..i] == allocations;
    return Some(Account(charged, observed, missing)), charges;
  }

  // ---------------------------------------------------------------- devices

  /** The outcomes after the first device loop, before any cap is lifted. */
  function FirstOutcomes(cfg: Config, e: Engine, s: Snapshot, h: Host, gpus: seq<Gpu>, now: nat): map<Uuid, Outcome> {
    if gpus == [] then map[] else
    var n := |gpus| - 1;
    FirstOutcomes(cfg, e, s, h, gpus[..n], now)[gpus[n].uuid := DeviceOutcome(cfg, e, s, h, gpus[n], now)]
  }

  lemma {:induction false} FirstListed(cfg: Config, e: Engine, s: Snapshot, h: Host, gpus: seq<Gpu>, now: nat)
    requires DistinctGpus(gpus)
    ensures forall i :: 0 <= i < |gpus| ==>
              gpus[i].uuid in FirstOutcomes(cfg, e, s, h, gpus, now)
              && FirstOutcomes(cfg, e, s, h, gpus, now)[gpus[i].uuid] == DeviceOutcome(cfg, e, s, h, gpus[i], now)
  {
    hide DeviceOutcome;
    if gpus != [] {
      FirstListed(cfg, e, s, h, gpus[..|gpus| - 1], now);
    }
  }

  lemma {:induction false} SameDevices(cfg: Config, e: Engine, s: Snapshot, h: Host, gpus: seq<Gpu>, now: nat)
    ensures FirstOutcomes(cfg, e, s, h, gpus, now).Keys == Outcomes(cfg, e, s, h, gpus, now).Keys
  {
    hide DeviceOutcome, DeviceFinal;
    if gpus != [] {
      SameDevices(cfg, e, s, h, gpus[..|gpus| - 1], now);
    }
  }

  lemma {:induction false} FirstPresent(cfg: Config, e: Engine, s: Snapshot, h: Host, gpus: seq<Gpu>, now: nat, u: Uuid)
    requires forall i :: 0 <= i < |gpus| ==> gpus[i].uuid != u
    ensures u !in FirstOutcomes(cfg, e, s, h, gpus, now)
  {
    hide DeviceOutcome;
    if gpus != [] {
      FirstPresent(cfg, e, s, h, gpus[..|gpus| - 1], now, u);
    }
  }

  /** The three tables the device loops fill agree with the outcomes so far. */
  ghost predicate Mirrors(e: Engine, outcomes: map<Uuid, Outcome>, nextGpus: map<Uuid, PreviousGpu>,
                          budgets: map<Uuid, nat>, blocked: set<Uuid>)
  {
    && nextGpus.Keys == e.gpus.Keys + outcomes.Keys && budgets.Keys == outcomes.Keys
    && (forall u :: u in nextGpus ==>
          nextGpus[u] == if u in outcomes then outcomes[u].next else e.gpus[u].(stableSince := None))
    && (forall u :: u in budgets ==> budgets[u] == outcomes[u].budget)
    && (forall u :: u in blocked <==> u in outcomes && outcomes[u].blocked)
  }

  lemma MirrorsNext(e: Engine, outcomes: map<Uuid, Outcome>, nextGpus: map<Uuid, PreviousGpu>, budgets: map<Uuid, nat>,
                    blocked: set<Uuid>, u: Uuid, o: Outcome)
    requires Mirrors(e, outcomes, nextGpus, budgets, blocked)
    requires u in outcomes ==> outcomes[u].blocked == o.blocked
    ensures Mirrors(e, outcomes[u := o], nextGpus[u := o.next], budgets[u := o.budget],
                    if o.blocked then blocked + {u} else blocked)
  {
  }

  /** The first device loop: read the evidence, tighten caps, note who is blocked. */
  method InspectLoop(cfg: Config, e: Engine, s: Snapshot, h: Host, now: nat)
      returns (nextGpus: map<Uuid, PreviousGpu>, budgets: map<Uuid, nat>, blocked: set<Uuid>)
    requires DistinctGpus(s.gpus)
    ensures Mirrors(e, FirstOutcomes(cfg, e, s, h, s.gpus, now), nextGpus, budgets, blocked)
  {
    hide DeviceOutcome;
    nextGpus := map u | u in e.gpus :: e.gpus[u].(stableSince := None);
    budgets, blocked := map[], {};
    var i := 0;
    while i < |s.gpus|
      invariant 0 <= i <= |s.gpus|
      invariant Mirrors(e, FirstOutcomes(cfg, e, s, h, s.gpus[..i], now), nextGpus, budgets, blocked)
    {
      hide Mirrors;
      ghost var before := FirstOutcomes(cfg, e, s, h, s.gpus[..i], now);
      assert s.gpus[..i + 1][..i] == s.gpus[..i];
      var g := s.gpus[i];
      var o := DeviceOutcome(cfg, e, s, h, g, now);
      FirstPresent(cfg, e, s, h, s.gpus[..i], now, g.uuid);
      MirrorsStep(e, before, nextGpus, budgets, blocked, g.uuid, o);
      nextGpus := nextGpus[g.uuid := o.next];
      budgets := budgets[g.uuid := o.budget];
      if o.blocked {
        blocked := blocked + {g.uuid};
      }
      i := i + 1;
    }
    assert s.gpus[..i] == s.gpus;
  }

  lemma MirrorsStep(e: Engine, outcomes: map<Uuid, Outcome>, nextGpus: map<Uuid, PreviousGpu>, budgets: map<Uuid, nat>,
                    blocked: set<Uuid>, u: Uuid, o: Outcome)
    ensures Mirrors(e, outcomes, nextGpus, budgets, blocked) && (u in outcomes ==> outcomes[u].blocked == o.blocked) ==>
      Mirrors(e, outcomes[u := o], nextGpus[u := o.next], budgets[u := o.budget],
              if o.blocked then blocked + {u} else blocked)
  {
    if Mirrors(e, outcomes, nextGpus, budgets, blocked) && (u in outcomes ==> outcomes[u].blocked == o.blocked) {
      MirrorsNext(e, outcomes, nextGpus, budgets, blocked, u, o);
    }
  }

  /** After `i` devices of the second loop: those are final, the rest are as the first loop left them. */
  ghost function Relaxed(cfg: Config, e: Engine, s: Snapshot, h: Host, now: nat, i: nat): map<Uuid, Outcome>
    requires i <= |s.gpus|
  {
    FirstOutcomes(cfg, e, s, h, s.gpus, now) + Outcomes(cfg, e, s, h, s.gpus[..i], now)
  }

  lemma RelaxedNext(cfg: Config, e: Engine, s: Snapshot, h: Host, now: nat, i: nat)
    requires i < |s.gpus| && DistinctGpus(s.gpus)
    ensures var g := s.gpus[i];
      var before := Relaxed(cfg, e, s, h, now, i);
      && g.uuid in before && before[g.uuid] == DeviceOutcome(cfg, e, s, h, g, now)
      && Relaxed(cfg, e, s, h, now, i + 1) == before[g.uuid := DeviceFinal(cfg, e, s, h, g, now)]
  {
    hide DeviceOutcome, DeviceFinal;
    assert s.gpus[..i + 1][..i] == s.gpus[..i];
    FirstListed(cfg, e, s, h, s.gpus, now);
    if s.gpus[i].uuid in Outcomes(cfg, e, s, h, s.gpus[..i], now) {
      var j := OutcomesPresent(cfg, e, s, h, s.gpus[..i], now, s.gpus[i].uuid);
      assert false;
    }
  }

  lemma RelaxedEnds(cfg: Config, e: Engine, s: Snapshot, h: Host, now: nat)
    ensures Relaxed(cfg, e, s, h, now, 0) == FirstOutcomes(cfg, e, s, h, s.gpus, now)
    ensures Relaxed(cfg, e, s, h, now, |s.gpus|) == Outcomes(cfg, e, s, h, s.gpus, now)
  {
    hide DeviceOutcome, DeviceFinal;
    SameDevices(cfg, e, s, h, s.gpus, now);
    assert s.gpus[..|s.gpus|] == s.gpus;
    assert Outcomes(cfg, e, s, h, s.gpus[..0], now) == map[];
  }

  /** One iteration of the second loop. */
  method RelaxOne(cfg: Config, e: Engine, g: Gpu, observed: nat, now: nat, ghost before: map<Uuid, Outcome>,
                  first: map<Uuid, PreviousGpu>, firstBudgets: map<Uuid, nat>, blocked: set<Uuid>)
      returns (nextGpus: map<Uuid, PreviousGpu>, budgets: map<Uuid, nat>)
    requires Mirrors(e, before, first, firstBudgets, blocked) && g.uuid in before
    ensures Mirrors(e, before[g.uuid := Relax(cfg, g, before[g.uuid], observed, now)], nextGpus, budgets, blocked)
  {
    DeviceAt(e, before, first, firstBudgets, blocked, g.uuid);
    hide MemoryBudget;
    var next, budget := first[g.uuid], firstBudgets[g.uuid];
    if g.uuid !in blocked && Cooled(cfg, next.stableSince, now) {
      next := next.(cap := None);
      if g.used.Some? {
        budget := MemoryBudget(cfg, g, observed);
      }
    }
    ghost var o := Relax(cfg, g, before[g.uuid], observed, now);
    assert o == before[g.uuid].(next := next, budget := budget);
    MirrorsNext(e, before, first, firstBudgets, blocked, g.uuid, o);
    assert blocked == if o.blocked then blocked + {g.uuid} else blocked;
    hide Mirrors, Relax;
    nextGpus := first[g.uuid := next];
    budgets := firstBudgets[g.uuid := budget];
  }

  /** The second device loop: lift the cap of every device that stayed calm for the whole cooldown. */
  method RelaxLoop(cfg: Config, e: Engine, s: Snapshot, h: Host, now: nat, first: map<Uuid, PreviousGpu>,
                   firstBudgets: map<Uuid, nat>, blocked: set<Uuid>)
      returns (nextGpus: map<Uuid, PreviousGpu>, budgets: map<Uuid, nat>)
    requires DistinctGpus(s.gpus)
    requires Mirrors(e, FirstOutcomes(cfg, e, s, h, s.gpus, now), first, firstBudgets, blocked)
    ensures Mirrors(e, Outcomes(cfg, e, s, h, s.gpus, now), nextGpus, budgets, blocked)
  {
    hide DeviceOutcome, Relax, NextGpus, Outcomes, FirstOutcomes;
    nextGpus, budgets := first, firstBudgets;
    RelaxedEnds(cfg, e, s, h, now);
    hide Relaxed;
    var i := 0;
    while i < |s.gpus|
      invariant 0 <= i <= |s.gpus|
      invariant Mirrors(e, Relaxed(cfg, e, s, h, now, i), nextGpus, budgets, blocked)
    {
      var g := s.gpus[i];
      RelaxedNext(cfg, e, s, h, now, i);
      nextGpus, budgets := RelaxOne(cfg, e, g, Get(h.acc.observed.gpu, g.uuid), now, Relaxed(cfg, e, s, h, now, i),
                                    nextGpus, budgets, blocked);
      i := i + 1;
    }
  }

  lemma DeviceAt(e: Engine, outcomes: map<Uuid, Outcome>, nextGpus: map<Uuid, PreviousGpu>, budgets: map<Uuid, nat>,
                 blocked: set<Uuid>, u: Uuid)
    requires Mirrors(e, outcomes, nextGpus, budgets, blocked) && u in outcomes
    ensures u in nextGpus && u in budgets && nextGpus[u] == outcomes[u].next && budgets[u] == outcomes[u].budget
    ensures u in blocked <==> outcomes[u].blocked
  {
  }

  // ---------------------------------------------------------------- victims

  /** Planned releases are taken off first. */
  method ReleaseLoop(allocations: seq<Allocation>, charged: Resources) returns (remaining: Resources)
    ensures remaining == WithoutDraining(allocations, charged)
  {
    remaining := charged;
    var i := 0;
    while i < |allocations|
      invariant 0 <= i <= |allocations|
      invariant remaining == WithoutDraining(allocations[..i], charged)
    {
      assert allocations[..i + 1][..i] == allocations[..i];
      if allocations[i].stage == Draining {
        remaining := Less(remaining, Charge(allocations[i]));
      }
      i := i + 1;
    }
    assert allocations[..i] == allocations;
  }

  method ChooseLoop(cands: seq<Id>, charges: map<Id, Resources>, budget: Resources, remaining: Resources, explicit: bool)
      returns (chosen: seq<Id>, left: Resources)
    requires forall id :: id in cands ==> id in charges
    ensures (chosen, left) == Choose(cands, charges, budget, remaining, explicit)
  {
    chosen, left := [], remaining;
    var i := 0;
    while i < |cands|
      invariant 0 <= i <= |cands|
      invariant forall id :: id in cands[..i] ==> id in charges
      invariant (chosen, left) == Choose(cands[..i], charges, budget, remaining, explicit)
    {
      assert cands[..i + 1][..i] == cands[..i];
      assert cands[i] in cands;
      var charge := charges[cands[i]];
      if explicit || ContributesToExcess(left, budget, charge) {
        chosen := chosen + [cands[i]];
        left := Less(left, charge);
      }
      i := i + 1;
    }
    assert cands[..i] == cands;
  }

  // ---------------------------------------------------------------- reading the tables back

  lemma UnsafeMirrors(e: Engine, input: Input, h: Host, outcomes: map<Uuid, Outcome>, nextGpus: map<Uuid, PreviousGpu>,
                      budgets: map<Uuid, nat>, blocked: set<Uuid>)
    requires Mirrors(e, outcomes, nextGpus, budgets, blocked)
    ensures Lost(h, outcomes) == h.acc.charged.gpu.Keys - budgets.Keys
    ensures blocked != {} <==> exists u :: u in outcomes && outcomes[u].blocked
    ensures nextGpus == NextGpus(e, outcomes)
  {
    if exists u :: u in outcomes && outcomes[u].blocked {
      var u :| u in outcomes && outcomes[u].blocked;
      assert u in blocked;
    }
  }

  lemma BudgetMirrors(e: Engine, input: Input, h: Host, outcomes: map<Uuid, Outcome>, nextGpus: map<Uuid, PreviousGpu>,
                      budgets: map<Uuid, nat>, blocked: set<Uuid>, lost: set<Uuid>)
    requires Mirrors(e, outcomes, nextGpus, budgets, blocked) && lost == Lost(h, outcomes) && !input.explicitDrain
    ensures ManagedBudget(input, h, outcomes)
            == Resources(h.cpu.budget, h.ram.budget, budgets + map u | u in lost :: 0)
  {
    assert budgets + (map u | u in lost :: 0)
      == map u | u in outcomes.Keys + Lost(h, outcomes) :: if u in outcomes then outcomes[u].budget else 0;
  }

  lemma HeadroomMirrors(cfg: Config, e: Engine, h: Host, outcomes: map<Uuid, Outcome>, nextGpus: map<Uuid, PreviousGpu>,
                        budgets: map<Uuid, nat>, blocked: set<Uuid>, budget: Resources, now: nat)
    requires Mirrors(e, outcomes, nextGpus, budgets, blocked)
    ensures var left := Less(budget, h.acc.charged);
      Headroom(cfg, h, outcomes, budget, now)
      == left.(gpu := map u | u in left.gpu && h.safe && u in budgets && u !in blocked && u in nextGpus
                              && Cooled(cfg, nextGpus[u].stableSince, now) :: left.gpu[u])
  {
  }

  method BudgetOf(e: Engine, input: Input, h: Host, nextGpus: map<Uuid, PreviousGpu>, budgets: map<Uuid, nat>,
                  blocked: set<Uuid>, ghost outcomes: map<Uuid, Outcome>) returns (unsafe: bool, budget: Resources)
    requires Mirrors(e, outcomes, nextGpus, budgets, blocked)
    ensures unsafe == UnsafeNow(input, h, outcomes) && budget == ManagedBudget(input, h, outcomes)
  {
    UnsafeMirrors(e, input, h, outcomes, nextGpus, budgets, blocked);
    var lost := h.acc.charged.gpu.Keys - budgets.Keys;
    unsafe := input.explicitDrain || h.cpu.unknown || h.ram.unknown || blocked != {} || lost != {}
              || h.acc.charged.cpu > h.cpu.budget || h.acc.charged.ram > h.ram.budget;
    if input.explicitDrain {
      budget := ZERO;
    } else {
      BudgetMirrors(e, input, h, outcomes, nextGpus, budgets, blocked, lost);
      hide ManagedBudget, Mirrors;
      budget := Resources(h.cpu.budget, h.ram.budget, budgets + map u | u in lost :: 0);
    }
  }

  method HeadroomOf(e: Engine, cfg: Config, h: Host, nextGpus: map<Uuid, PreviousGpu>, budgets: map<Uuid, nat>,
                    blocked: set<Uuid>, ghost outcomes: map<Uuid, Outcome>, budget: Resources, now: nat)
      returns (headroom: Resources)
    requires Mirrors(e, outcomes, nextGpus, budgets, blocked)
    ensures headroom == Headroom(cfg, h, outcomes, budget, now)
  {
    HeadroomMirrors(cfg, e, h, outcomes, nextGpus, budgets, blocked, budget, now);
    hide Headroom, Mirrors;
    var left := Less(budget, h.acc.charged);
    headroom := left.(gpu := map u | u in left.gpu && h.safe && u in budgets && u !in blocked && u in nextGpus
                                     && Cooled(cfg, nextGpus[u].stableSince, now) :: left.gpu[u]);
  }

  class PolicyEngine {
    var previousGpus: map<Uuid, PreviousGpu>
    var stableSince: Option<nat>
    var cpuRamStableSince: Option<nat>
    var lastNow: Option<nat>
    var node: Option<Id>
    var lastSample: Option<(nat, nat)>

    function State(): Engine
      reads this
    {
      Engine(previousGpus, stableSince, cpuRamStableSince, lastNow, node, lastSample)
    }

    constructor ()
      ensures State() == NEW
    {
      previousGpus, stableSince, cpuRamStableSince, lastNow, node, lastSample := map[], None, None, None, None, None;
    }

    /** The two device loops, and the budget they leave. */
    method JudgeDevices(cfg: Config, s: Snapshot, input: Input, h: Host, now: nat)
        returns (nextGpus: map<Uuid, PreviousGpu>, budgets: map<Uuid, nat>, blocked: set<Uuid>)
      requires DistinctGpus(s.gpus)
      ensures Mirrors(State(), Outcomes(cfg, State(), s, h, s.gpus, now), nextGpus, budgets, blocked)
    {
      nextGpus, budgets, blocked := InspectLoop(cfg, State(), s, h, now);
      nextGpus, budgets := RelaxLoop(cfg, State(), s, h, now, nextGpus, budgets, blocked);
    }

    /** One evaluation; a refused one changes nothing. */
    method Evaluate(cfg: Config, s: Snapshot, input: Input, now: nat) returns (decision: Option<Decision>)
      modifies this
      ensures match Policy.Evaluate(old(State()), cfg, s, input, now)
        case None => decision.None? && State() == old(State())
        case Some(r) => decision == Some(r.1) && State() == r.0
      ensures decision.Some? ==>
        && BudgetLaw(old(State()), cfg, s, input, now, State(), decision.value.budget)
        && PermissionLaw(old(State()), cfg, s, input, now, State(), decision.value)
        && HeadroomLaw(old(State()), cfg, s, input, now, State(), decision.value)
    {
      if Policy.Evaluate(State(), cfg, s, input, now).Some? {
        BudgetExact(State(), cfg, s, input, now);
        ProtectionExact(State(), cfg, s, input, now);
      }
      hide BudgetLaw, PermissionLaw, HeadroomLaw, DeviceFollows;
      hide Outcomes, ViewHost, Accounts, Charges, Conclusion, Mirrors;
      if !Valid(cfg, s, input) || (lastNow.Some? && now < lastNow.value) || (node.Some? && node.value != s.node) {
        return None;
      }
      var acc, charges := TallyLoop(input.allocations);
      if acc.None? {
        return None;
      }
      var h := ViewHost(cfg, State(), s, input, acc.value, now);
      assert h.acc == acc.value by { HostAccount(cfg, State(), s, input, acc.value, now); }
      var nextGpus, budgets, blocked := JudgeDevices(cfg, s, input, h, now);
      var answer := Settle(cfg, s, input, h, charges, now, nextGpus, budgets, blocked,
                           Outcomes(cfg, State(), s, h, s.gpus, now));
      return Some(answer);
    }

    /** Everything after the device loops. */
    method Settle(cfg: Config, s: Snapshot, input: Input, h: Host, charges: map<Id, Resources>, now: nat,
                  nextGpus: map<Uuid, PreviousGpu>, budgets: map<Uuid, nat>, blocked: set<Uuid>,
                  ghost outcomes: map<Uuid, Outcome>) returns (decision: Decision)
      requires Mirrors(State(), outcomes, nextGpus, budgets, blocked) && charges == Charges(input.allocations)
      modifies this
      ensures (State(), decision) == Conclusion(old(State()), cfg, s, input, h, outcomes, now)
    {
      var unsafe, budget := BudgetOf(State(), input, h, nextGpus, budgets, blocked, outcomes);
      var headroom := HeadroomOf(State(), cfg, h, nextGpus, budgets, blocked, outcomes, budget, now);
      UnsafeMirrors(State(), input, h, outcomes, nextGpus, budgets, blocked);
      hide UnsafeNow, ManagedBudget, Headroom, Mirrors, NextGpus, Victims, Charges;
      var drain := SelectLoop(input, charges, h.acc.charged, budget);
      decision := Conclude(cfg, s, h, now, nextGpus, unsafe, budget, drain, headroom);
    }

    method SelectLoop(input: Input, charges: map<Id, Resources>, charged: Resources, budget: Resources)
        returns (drain: seq<Id>)
      requires charges == Charges(input.allocations)
      ensures drain == Victims(input, charged, budget).0
    {
      CandidatesCharged(input, input.allocations);
      var remaining := ReleaseLoop(input.allocations, charged);
      var left;
      drain, left := ChooseLoop(ListBy(CandidateRows(input, input.allocations)), charges, budget, remaining,
                                input.explicitDrain);
    }

    /** The clocks and permissions, and the new state. */
    method Conclude(cfg: Config, s: Snapshot, h: Host, now: nat, nextGpus: map<Uuid, PreviousGpu>, unsafe: bool,
                    budget: Resources, drain: seq<Id>, headroom: Resources) returns (decision: Decision)
      modifies this
      ensures var stable := Since(!unsafe, old(stableSince), now);
        var cpuRam := Since(h.safe, old(cpuRamStableSince), now);
        var cpuRamExpansion := Cooled(cfg, cpuRam, now);
        var expansion := (!unsafe && Cooled(cfg, stable, now) && drain == [])
                         || (cpuRamExpansion && exists u :: u in headroom.gpu && headroom.gpu[u] > 0);
        && State() == Engine(nextGpus, stable, cpuRam, Some(now), Some(s.node), h.cpu.sample)
        && decision == Decision(
             budget, if !expansion && !cpuRamExpansion then headroom.(cpu := 0, ram := 0) else headroom,
             expansion, cpuRamExpansion, drain)
    {
      var stable := Since(!unsafe, stableSince, now);
      var cpuRam := Since(h.safe, cpuRamStableSince, now);
      var cpuRamExpansion := Cooled(cfg, cpuRam, now);
      var expansion := (!unsafe && Cooled(cfg, stable, now) && drain == [])
                       || (cpuRamExpansion && exists u :: u in headroom.gpu && headroom.gpu[u] > 0);
      var left := headroom;
      if !expansion && !cpuRamExpansion {
        left := headroom.(cpu := 0, ram := 0);
      }
      previousGpus, stableSince, cpuRamStableSince := nextGpus, stable, cpuRam;
      lastNow, node, lastSample := Some(now), Some(s.node), h.cpu.sample;
      return Decision(budget, left, expansion, cpuRamExpansion, drain);
    }
  }

  lemma HostAccount(cfg: Config, e: Engine, s: Snapshot, input: Input, acc: Account, now: nat)
    ensures ViewHost(cfg, e, s, input, acc, now).acc == acc
  {
  }
}
