/** The yielding policy (src/policy.rs): one evaluation as a function of the engine's state and its inputs. */
module Policy {
  import opened Options
  import opened Totals
  import opened ResourceVectors
  import opened Listings
  import opened Maxima

  type Id = nat

  // ---------------------------------------------------------------- inputs

  datatype Mode = Auto | RequireContention | NonSharing | BestEffort

  datatype Capability = ContentionAware | ConservativeNonSharing | BestEffortOccupied | InsufficientObservability

  datatype Activity = Idle | Active | Unknown

  datatype Identity = Identity(pid: nat, startTicks: nat, boot: Id)

  datatype Observation = Observation(
    capability: Capability, observedAt: nat, freshAfterBaseline: bool, cursor: nat, newest: Option<nat>,
    baselineAge: Option<nat>, verified: Option<seq<Identity>>)

  datatype Gpu = Gpu(
    uuid: Uuid, total: nat, used: Option<nat>, externalPids: Option<seq<nat>>, compute: Activity,
    sampleId: Option<nat>, observation: Option<Observation>)

  datatype Core = Core(cpu: nat, package: Option<int>, physical: Option<int>)

  datatype Kernel = Kernel(
    linux: bool, schema: nat, elapsed: nat, freshness: nat, effective: Option<seq<nat>>, permitted: Option<seq<nat>>,
    cgroup: Option<seq<nat>>, capacity: Option<nat>, ceiling: Option<nat>, busy: Option<nat>, busyAvailable: bool,
    interval: Option<nat>, cores: seq<Core>)

  datatype Snapshot = Snapshot(
    node: Id, observedAt: nat, capacity: nat, physicalCores: Option<nat>, busy: Option<nat>, totalRam: nat,
    availableRam: Option<nat>, inventoryAvailable: bool, gpus: seq<Gpu>, kernel: Option<Kernel>)

  datatype Stage = Pending | Running | Draining

  datatype Allocation = Allocation(
    id: Id, stage: Stage, grade: Class, requested: Resources, observed: Option<Resources>)

  datatype Input = Input(allocations: seq<Allocation>, explicitDrain: bool)

  datatype Config = Config(
    node: Id, mode: Mode, reserveVram: nat, protectiveShrink: nat, activeShrink: nat, cooldown: nat,
    sampleMaxAge: nat, contract: map<Uuid, set<Identity>>, reserveCores: nat, reserveRam: nat, reservePercent: nat,
    kernelEnabled: bool)

  // ---------------------------------------------------------------- state and answers

  datatype PreviousGpu = PreviousGpu(
    pids: set<nat>, externalMemory: Option<nat>, sampleId: Option<nat>, cap: Option<nat>, stableSince: Option<nat>)

  const UNSEEN := PreviousGpu({}, None, None, None, None)

  /** `sample` pairs the collector's marker with the policy time it first arrived. */
  datatype Engine = Engine(
    gpus: map<Uuid, PreviousGpu>, stableSince: Option<nat>, cpuRamStableSince: Option<nat>, lastNow: Option<nat>,
    node: Option<Id>, sample: Option<(nat, nat)>)

  const NEW := Engine(map[], None, None, None, None, None)

  datatype Decision = Decision(
    budget: Resources, headroom: Resources, expansion: bool, cpuRamExpansion: bool, wouldDrain: seq<Id>)

  // ---------------------------------------------------------------- arithmetic

  function CeilRatio(value: nat, numerator: nat, denominator: nat): nat
    requires denominator > 0
  {
    Min((value * numerator + denominator - 1) / denominator, U64_MAX)
  }

  function GetOr(x: Option<nat>, y: nat): nat {
    if x.Some? then x.value else y
  }

  function Later(x: Option<nat>, y: Option<nat>): Option<nat> {
    if x.None? then y else if y.None? then x else Some(Max(x.value, y.value))
  }

  function Lower(x: Option<nat>, y: nat): nat {
    if x.Some? then Min(x.value, y) else y
  }

  // ---------------------------------------------------------------- validation

  predicate DistinctGpus(gpus: seq<Gpu>) {
    forall i, j :: 0 <= i < j < |gpus| ==> gpus[i].uuid != gpus[j].uuid
  }

  predicate DistinctIds(allocations: seq<Allocation>) {
    forall i, j :: 0 <= i < j < |allocations| ==> allocations[i].id != allocations[j].id
  }

  predicate ValidGpu(g: Gpu) {
    && (g.total > 0 || (g.used.None? && g.observation.Some?
                        && g.observation.value.capability == InsufficientObservability))
    && (g.used.Some? ==> g.used.value <= g.total)
    && (g.externalPids.Some? ==> Distinct(g.externalPids.value)
                                 && forall i :: 0 <= i < |g.externalPids.value| ==> g.externalPids.value[i] > 0)
  }

  predicate ValidSnapshot(s: Snapshot) {
    && (s.capacity > 0 || (s.physicalCores.None? && s.busy.None?))
    && (s.totalRam > 0 || s.availableRam.None?)
    && (s.physicalCores.Some? ==> 0 < s.physicalCores.value <= s.capacity / 1000)
    && (s.busy.Some? ==> s.busy.value <= s.capacity)
    && (s.availableRam.Some? ==> s.availableRam.value <= s.totalRam)
    && (s.inventoryAvailable || s.gpus == [])
    && DistinctGpus(s.gpus)
    && (forall i :: 0 <= i < |s.gpus| ==> ValidGpu(s.gpus[i]))
  }

  predicate Valid(cfg: Config, s: Snapshot, input: Input) {
    && s.node == cfg.node && ValidSnapshot(s) && DistinctIds(input.allocations)
    && (forall i :: 0 <= i < |input.allocations| ==>
          (input.allocations[i].stage == Pending ==> input.allocations[i].observed.None?))
  }

  // ---------------------------------------------------------------- accounting

  /** Pending work is charged in full; started work at max(reservation, observation). */
  function Charge(a: Allocation): Resources {
    if a.stage != Pending && a.observed.Some? then Maximum(a.requested, a.observed.value) else a.requested
  }

  datatype Account = Account(charged: Resources, observed: Resources, missing: Resources)

  /** One iteration of the accounting loop. */
  function Tally(acc: Account, a: Allocation): Option<Account> {
    var observed :- if a.stage != Pending && a.observed.Some? then Add(acc.observed, a.observed.value)
                    else Some(acc.observed);
    var missing :- if a.stage != Pending && a.observed.None? then Add(acc.missing, a.requested)
                   else Some(acc.missing);
    var charged :- Add(acc.charged, Charge(a));
    Some(Account(charged, observed, missing))
  }

  function Accounts(allocations: seq<Allocation>): Option<Account> {
    if allocations == [] then Some(Account(ZERO, ZERO, ZERO)) else
    var n := |allocations| - 1;
    var before :- Accounts(allocations[..n]);
    Tally(before, allocations[n])
  }

  function Charges(allocations: seq<Allocation>): map<Id, Resources> {
    if allocations == [] then map[] else
    var n := |allocations| - 1;
    Charges(allocations[..n])[allocations[n].id := Charge(allocations[n])]
  }

  lemma {:induction false} ChargesListed(allocations: seq<Allocation>)
    requires DistinctIds(allocations)
    ensures forall i :: 0 <= i < |allocations| ==>
              allocations[i].id in Charges(allocations) && Charges(allocations)[allocations[i].id] == Charge(allocations[i])
    ensures forall id :: id in Charges(allocations) ==> exists i :: 0 <= i < |allocations| && allocations[i].id == id
  {
    if allocations != [] {
      var n := |allocations| - 1;
      ChargesListed(allocations[..n]);
    }
  }

  /** The running total is exactly the sum of the charges, in every dimension. */
  lemma {:induction false} ChargedExact(allocations: seq<Allocation>, d: Dim)
    requires DistinctIds(allocations) && Accounts(allocations).Some?
    ensures Amount(Accounts(allocations).value.charged, d) == TotalIn(Charges(allocations), d)
  {
    if allocations == [] {
      assert Column(Charges(allocations), d) == map[];
    } else {
      var n := |allocations| - 1;
      ChargedExact(allocations[..n], d);
      ChargesListed(allocations[..n]);
      TotalInInsert(Charges(allocations[..n]), allocations[n].id, Charge(allocations[n]), d);
    }
  }

  // ---------------------------------------------------------------- CPU and RAM

  predicate ScopedCpuValid(k: Kernel) {
    && k.effective.Some?
    && var ids := k.effective.value;
    && k.schema == 1 && ids != [] && Distinct(ids)
    && k.permitted.Some? && (forall i :: 0 <= i < |ids| ==> ids[i] in k.permitted.value)
    && (k.cgroup.Some? ==> forall i :: 0 <= i < |ids| ==> ids[i] in k.cgroup.value)
    && k.capacity == Some(1000 * |ids|)
    && k.ceiling.Some? && k.ceiling.value <= 1000 * |ids|
    && k.busy.Some? && k.busy.value <= 1000 * |ids|
    && k.busyAvailable && k.freshness > 0
    && k.interval.Some? && 0 < k.interval.value <= k.freshness
  }

  /** What one evaluation concludes about the CPU scope. */
  datatype CpuView = CpuView(capacity: nat, budget: nat, unknown: bool, sample: Option<(nat, nat)>)

  /** A repeated collector marker must not be older than the freshness limit; a smaller one is a reset. */
  predicate SampleFresh(last: Option<(nat, nat)>, k: Kernel, now: nat) {
    last.None? || k.elapsed > last.value.0
    || (k.elapsed == last.value.0 && Monus(now, last.value.1) <= k.freshness)
  }

  /** The budget in a scope of known capacity, reserve and busy time. */
  function CpuBudget(capacity: nat, reserve: nat, busy: nat, managed: nat, ceiling: nat): nat {
    Min(Monus(Monus(capacity, reserve), Monus(busy, managed)), ceiling)
  }

  function ViewCpu(cfg: Config, s: Snapshot, last: Option<(nat, nat)>, acc: Account, now: nat): CpuView {
    if s.kernel.Some? && cfg.kernelEnabled && s.kernel.value.linux then
      var k := s.kernel.value;
      var reserve := ScopedReserve(k, cfg.reserveCores);
      var capacity := GetOr(k.capacity, 0);
      var unknown := acc.missing.cpu > 0 || !ScopedCpuValid(k) || !SampleFresh(last, k, now) || reserve.None?
                     || k.busy.None? || acc.observed.cpu > k.busy.value;
      CpuView(capacity,
              if unknown then 0
              else CpuBudget(capacity, reserve.value, k.busy.value, acc.observed.cpu, GetOr(k.ceiling, 0)),
              unknown,
              if last.Some? && k.elapsed == last.value.0 then last else Some((k.elapsed, now)))
    else
      var reserve := if cfg.reserveCores == 0 then Some(0)
                     else if s.physicalCores.Some? && s.physicalCores.value > 0
                     then Some(Min(CeilRatio(s.capacity, cfg.reserveCores, s.physicalCores.value), s.capacity))
                     else None;
      var unknown := acc.missing.cpu > 0 || reserve.None? || s.busy.None? || acc.observed.cpu > s.busy.value;
      CpuView(s.capacity,
              if unknown then 0
              else CpuBudget(s.capacity, reserve.value, s.busy.value, acc.observed.cpu, s.capacity),
              unknown, None)
  }

  datatype RamView = RamView(budget: nat, unknown: bool)

  function ViewRam(cfg: Config, s: Snapshot, acc: Account): RamView {
    var reserve := Max(cfg.reserveRam, CeilRatio(s.totalRam, cfg.reservePercent, 100));
    var unknown := acc.missing.ram > 0 || s.availableRam.None?
                   || acc.observed.ram > Monus(s.totalRam, s.availableRam.value);
    RamView(if unknown then 0
            else Monus(Monus(s.totalRam, reserve), Monus(Monus(s.totalRam, s.availableRam.value), acc.observed.ram)),
            unknown)
  }

  /** Logical CPUs per physical core within the permitted set; `None` when the topology is incomplete. */
  function CoreGroups(cores: seq<Core>, ids: set<nat>): Option<(map<CoreKey, nat>, set<nat>)> {
    if cores == [] then Some((map[], {})) else
    var n := |cores| - 1;
    var before :- CoreGroups(cores[..n], ids);
    var core := cores[n];
    if core.cpu !in ids || core.cpu in before.1 || core.package.None? || core.physical.None?
       || core.package.value < 0 || core.physical.value < 0 then None
    else
      var key := (core.package.value, core.physical.value);
      Some((before.0[key := 1000 + if key in before.0 then before.0[key] else 0], before.1 + {core.cpu}))
  }

  function Top(amounts: multiset<nat>): (m: nat)
    requires amounts != multiset{}
    ensures m in amounts && forall x :: x in amounts ==> x <= m
  {
    var members := set x | x in amounts;
    assert forall x :: x in amounts ==> x in members;
    assert members != {} by {
      var x :| x in amounts;
      assert x in members;
    }
    MaxOf(members)
  }

  /** Sorted in descending order, the first `k` amounts summed. */
  function LargestSum(amounts: multiset<nat>, k: nat): nat {
    if k == 0 || amounts == multiset{} then 0
    else Top(amounts) + LargestSum(amounts - multiset{Top(amounts)}, k - 1)
  }

  lemma ChoiceShrinks(amounts: multiset<nat>, choice: multiset<nat>)
    requires choice <= amounts && choice != multiset{}
    ensures amounts != multiset{} && Top(choice) <= Top(amounts)
    ensures choice - multiset{Top(choice)} <= amounts - multiset{Top(amounts)}
    ensures |choice| > 0 && |choice - multiset{Top(choice)}| == |choice| - 1
  {
    assert Top(choice) in amounts;
  }

  /** Taking the largest `k` groups covers any choice of at most `k` of them. */
  lemma {:induction false} LargestCover(amounts: multiset<nat>, choice: multiset<nat>, k: nat)
    requires choice <= amounts && |choice| <= k
    ensures LargestSum(choice, k) <= LargestSum(amounts, k)
    decreases k
  {
    if choice != multiset{} {
      ChoiceShrinks(amounts, choice);
      hide Top;
      LargestCover(amounts - multiset{Top(amounts)}, choice - multiset{Top(choice)}, k - 1);
    }
  }

  /** A physical core: package and core number. */
  type CoreKey = (int, int)

  /** The permitted millicores of each physical core; `None` when the topology does not match the CPU set. */
  function PhysicalCores(k: Kernel): Option<map<CoreKey, nat>> {
    if k.effective.None? then None
    else
      var ids := set i | 0 <= i < |k.effective.value| :: k.effective.value[i];
      var groups :- CoreGroups(k.cores, ids);
      if groups.1 != ids || ids == {} then None else Some(groups.0)
  }

  /** Charges the largest core groups of the permitted set, one per reserved physical core. */
  function ScopedReserve(k: Kernel, reserve: nat): Option<nat> {
    if reserve == 0 then Some(0) else
    var cores :- PhysicalCores(k);
    Some(LargestSum(Worths(cores), reserve))
  }

  function TheseCores(cores: map<CoreKey, nat>, choice: set<CoreKey>): map<CoreKey, nat> {
    map c | c in choice && c in cores :: cores[c]
  }

  /**
   The reserve is the most that so many physical cores can be worth: no choice of them sums to more, and some
   choice sums to exactly that.
   */
  lemma ReserveCoversAnyChoice(k: Kernel, reserve: nat)
    requires reserve > 0 && ScopedReserve(k, reserve).Some?
    ensures PhysicalCores(k).Some?
    ensures forall choice: set<CoreKey> :: choice <= PhysicalCores(k).value.Keys && |choice| <= reserve ==>
              Total(TheseCores(PhysicalCores(k).value, choice)) <= ScopedReserve(k, reserve).value
    ensures exists choice: set<CoreKey> :: choice <= PhysicalCores(k).value.Keys && |choice| <= reserve
              && Total(TheseCores(PhysicalCores(k).value, choice)) == ScopedReserve(k, reserve).value
  {
    var cores := PhysicalCores(k).value;
    hide PhysicalCores, LargestSum;
    forall choice: set<CoreKey> | choice <= cores.Keys && |choice| <= reserve
      ensures Total(TheseCores(cores, choice)) <= LargestSum(Worths(cores), reserve)
    {
      ChoiceCovered(cores, choice, reserve);
    }
    var best := BestChoice(cores, reserve);
  }

  /** What each core is worth, without saying which. */
  function Worths(cores: map<CoreKey, nat>): multiset<nat> {
    multiset(SeqOf(cores))
  }

  lemma ChoiceCovered(cores: map<CoreKey, nat>, choice: set<CoreKey>, k: nat)
    requires choice <= cores.Keys && |choice| <= k
    ensures Total(TheseCores(cores, choice)) <= LargestSum(Worths(cores), k)
  {
    var part := TheseCores(cores, choice);
    assert part.Keys == choice && |part| == |part.Keys|;
    hide LargestSum, Worths;
    SumOfFew(part, k);
    PartWorths(part, cores);
    WorthsCount(part);
    LargestCover(Worths(cores), Worths(part), k);
  }

  /** Some core comes first. */
  lemma FirstCore(m: map<CoreKey, nat>) returns (k: CoreKey)
    requires m != map[]
    ensures k in m && Worths(m) == multiset{m[k]} + Worths(m - {k}) && |m| == |m - {k}| + 1
  {
    k :| k in m && SeqOf(m) == [m[k]] + SeqOf(m - {k});
    assert m.Keys == (m - {k}).Keys + {k};
  }

  lemma {:induction false} WorthsCount(m: map<CoreKey, nat>)
    ensures |Worths(m)| == |m|
    decreases |m|
  {
    if m != map[] {
      var k := FirstCore(m);
      hide Worths;
      WorthsCount(m - {k});
    }
  }

  /** Any core may be taken out first. */
  lemma {:induction false} WorthsSplit(m: map<CoreKey, nat>, k: CoreKey)
    requires k in m
    ensures Worths(m) == multiset{m[k]} + Worths(m - {k})
    decreases |m|
  {
    hide Worths;
    var j := FirstCore(m);
    if j != k {
      WorthsSplit(m - {j}, k);
      FewerCores(m, k);
      WorthsSplit(m - {k}, j);
      assert m - {j} - {k} == m - {k} - {j};
    }
  }

  lemma FewerCores(m: map<CoreKey, nat>, k: CoreKey)
    requires k in m
    ensures |m - {k}| == |m| - 1
  {
    assert m.Keys == (m - {k}).Keys + {k};
  }

  lemma {:induction false} PartWorths(part: map<CoreKey, nat>, m: map<CoreKey, nat>)
    requires forall k :: k in part ==> k in m && m[k] == part[k]
    ensures Worths(part) <= Worths(m)
    decreases |part|
  {
    if part != map[] {
      hide Worths;
      var k :| k in part;
      FewerCores(part, k);
      WorthsSplit(part, k);
      WorthsSplit(m, k);
      PartWorths(part - {k}, m - {k});
    }
  }

  lemma {:induction false} WorthHasCore(m: map<CoreKey, nat>, x: nat) returns (k: CoreKey)
    requires x in Worths(m)
    ensures k in m && m[k] == x
    decreases |m|
  {
    assert m != map[];
    hide Worths;
    k := FirstCore(m);
    if m[k] != x {
      k := WorthHasCore(m - {k}, x);
    }
  }

  /** The core worth most, taken out of the sum. */
  lemma DearestCore(m: map<CoreKey, nat>, k: nat) returns (j: CoreKey)
    requires m != map[] && k > 0
    ensures j in m && |m - {j}| == |m| - 1
    ensures LargestSum(Worths(m), k) == m[j] + LargestSum(Worths(m - {j}), k - 1)
  {
    WorthsCount(m);
    hide Worths;
    var top := Top(Worths(m));
    j := WorthHasCore(m, top);
    FewerCores(m, j);
    WorthsSplit(m, j);
    assert Worths(m) - multiset{top} == Worths(m - {j});
  }

  lemma NothingChosen(m: map<CoreKey, nat>, k: nat)
    requires k == 0 || m == map[]
    ensures LargestSum(Worths(m), k) == 0 && Total(TheseCores(m, {})) == 0
  {
    assert TheseCores(m, {}) == map[];
  }

  /** The largest `k` of at most `k` amounts are all of them. */
  lemma {:induction false} SumOfFew(m: map<CoreKey, nat>, k: nat)
    requires |m| <= k
    ensures LargestSum(Worths(m), k) == Total(m)
    decreases k
  {
    hide LargestSum, Worths, Total;
    if m == map[] {
      NothingChosen(m, k);
    } else {
      var j := DearestCore(m, k);
      TotalSplit(m, j);
      SumOfFew(m - {j}, k - 1);
    }
  }

  /** Some choice of at most `k` cores is worth the largest sum. */
  lemma {:induction false} BestChoice(m: map<CoreKey, nat>, k: nat) returns (choice: set<CoreKey>)
    ensures choice <= m.Keys && |choice| <= k && Total(TheseCores(m, choice)) == LargestSum(Worths(m), k)
    decreases k
  {
    hide LargestSum, Worths, Total, TheseCores;
    if k == 0 || m == map[] {
      NothingChosen(m, k);
      choice := {};
    } else {
      var j := DearestCore(m, k);
      var rest := BestChoice(m - {j}, k - 1);
      OneMoreCore(m, rest, j);
      choice := rest + {j};
    }
  }

  lemma OneMoreCore(m: map<CoreKey, nat>, rest: set<CoreKey>, j: CoreKey)
    requires j in m && rest <= (m - {j}).Keys
    ensures |rest + {j}| == |rest| + 1
    ensures Total(TheseCores(m, rest + {j})) == m[j] + Total(TheseCores(m - {j}, rest))
  {
    TotalSplit(TheseCores(m, rest + {j}), j);
    assert TheseCores(m, rest + {j}) - {j} == TheseCores(m - {j}, rest);
  }

  /** The values of a finite map, one per key. */
  function SeqOf(m: map<CoreKey, nat>): seq<nat>
    decreases |m|
  {
    if m == map[] then [] else
    assert exists k :: k in m && forall j :: j in m ==> !KeyBefore(j, k) by {
      var k := LeastKey(m);
    }
    var k :| k in m && forall j :: j in m ==> !KeyBefore(j, k);
    [m[k]] + SeqOf(m - {k})
  }

  predicate KeyBefore(x: CoreKey, y: CoreKey) {
    x.0 < y.0 || (x.0 == y.0 && x.1 < y.1)
  }

  lemma LeastKey(m: map<CoreKey, nat>) returns (k: CoreKey)
    requires m != map[]
    ensures k in m && forall j :: j in m ==> !KeyBefore(j, k)
    decreases |m|
  {
    k :| k in m;
    var rest := m - {k};
    assert forall j :: j in m ==> j == k || j in rest;
    if rest != map[] {
      var other := LeastKey(rest);
      k := if KeyBefore(other, k) then other else k;
    }
  }

  // ---------------------------------------------------------------- one device

  /** Collector evidence against the operator's exact per-device contract. */
  predicate IdentityContract(cfg: Config, at: nat, g: Gpu) {
    && g.uuid in cfg.contract && cfg.contract[g.uuid] != {}
    && g.observation.Some? && g.observation.value.verified.Some? && g.externalPids.Some?
    && g.observation.value.observedAt == at
    && var pids := g.externalPids.value;
    && var verified := g.observation.value.verified.value;
    && Distinct(pids) && |verified| == |pids|
    && (forall i :: 0 <= i < |pids| ==>
          exists j :: 0 <= j < |verified| && verified[j].pid == pids[i]
                      && forall k :: 0 <= k < |verified| && k != j ==> verified[k].pid != pids[i])
    && (forall j :: 0 <= j < |verified| ==>
          verified[j].pid > 0 && verified[j].startTicks > 0 && verified[j] in cfg.contract[g.uuid])
  }

  predicate BasicTelemetry(g: Gpu) {
    g.total > 0 && g.used.Some? && g.used.value <= g.total && g.externalPids.Some?
  }

  predicate FreshActivity(cfg: Config, o: Observation) {
    && o.capability == ContentionAware && o.freshAfterBaseline && o.cursor > 0
    && o.newest.Some? && o.newest.value > o.cursor
    && o.baselineAge.Some? && o.baselineAge.value <= cfg.sampleMaxAge
  }

  function EffectiveCapability(cfg: Config, at: nat, g: Gpu): Option<Capability> {
    if !BasicTelemetry(g)
       || (g.observation.Some? && (g.observation.value.observedAt != at
                                   || g.observation.value.capability == InsufficientObservability))
    then Some(InsufficientObservability)
    else
      var recent := g.observation.Some? && FreshActivity(cfg, g.observation.value);
      match cfg.mode
      case Auto =>
        if g.observation.None? then None
        else Some(if recent then ContentionAware else ConservativeNonSharing)
      case RequireContention => Some(if recent then ContentionAware else InsufficientObservability)
      case NonSharing => Some(ConservativeNonSharing)
      case BestEffort =>
        Some(if IdentityContract(cfg, at, g) then BestEffortOccupied else InsufficientObservability)
  }

  function Pids(g: Gpu): set<nat> {
    if g.externalPids.None? then {} else set i | 0 <= i < |g.externalPids.value| :: g.externalPids.value[i]
  }

  function External(g: Gpu, observed: nat): Option<nat> {
    if g.used.None? then None else Some(Monus(g.used.value, observed))
  }

  function MemoryBudget(cfg: Config, g: Gpu, observed: nat): nat {
    if g.used.None? then 0 else Monus(Monus(g.total, cfg.reserveVram), Monus(g.used.value, observed))
  }

  /** Everything the evaluation derives about one present device before touching its cap. */
  datatype Reading = Reading(
    mode: Option<Capability>, conflict: bool, event: bool, freshSample: bool, unknown: bool, active: bool, breached: bool)

  function Read(cfg: Config, at: nat, g: Gpu, prior: PreviousGpu, observed: nat, charge: nat, missing: bool): Reading {
    var mode := EffectiveCapability(cfg, at, g);
    var bestEffort := mode == Some(BestEffortOccupied);
    var external := External(g, observed);
    var recent := g.sampleId.Some? && (prior.sampleId.None? || g.sampleId.value > prior.sampleId.value);
    Reading(
      mode,
      mode == Some(ConservativeNonSharing) && (Pids(g) != {} || g.externalPids.None?),
      Pids(g) - prior.pids != {}
      || (external.Some? && (if prior.externalMemory.Some? then external.value > prior.externalMemory.value
                             else external.value > 0)),
      recent,
      (!bestEffort && (g.compute == Unknown || (Pids(g) != {} && !recent)))
      || mode == Some(InsufficientObservability) || g.used.None? || g.externalPids.None? || missing
      || (g.used.Some? && observed > g.used.value),
      !bestEffort && g.compute == Active,
      charge > MemoryBudget(cfg, g, observed))
  }

  predicate Blocks(r: Reading) {
    r.conflict || r.mode == Some(InsufficientObservability) || r.event || r.unknown || r.active || r.breached
  }

  /** The cap can be set or tightened here, never relaxed. */
  function NewCap(cfg: Config, r: Reading, prior: Option<nat>, charge: nat): (cap: Option<nat>)
    ensures prior.Some? ==> cap.Some? && cap.value <= prior.value
  {
    var cap := if r.conflict || r.mode == Some(InsufficientObservability) then Some(0) else prior;
    if (r.event || r.unknown || r.active || r.breached)
       && (r.event || (r.active && r.freshSample) || ((r.unknown || r.active) && cap.None?)) then
      var shrink := if r.active && r.freshSample then cfg.activeShrink else cfg.protectiveShrink;
      Some(Lower(cap, Monus(charge, CeilRatio(charge, shrink, 100))))
    else cap
  }

  /** What the evaluation says about one present device. */
  datatype Outcome = Outcome(blocked: bool, next: PreviousGpu, budget: nat)

  predicate Cooled(cfg: Config, since: Option<nat>, now: nat) {
    since.Some? && Monus(now, since.value) >= cfg.cooldown
  }

  function Inspect(cfg: Config, at: nat, g: Gpu, prior: PreviousGpu, observed: nat, charge: nat, missing: bool,
                   hostSafe: bool, now: nat): Outcome
  {
    var r := Read(cfg, at, g, prior, observed, charge, missing);
    var cap := NewCap(cfg, r, prior.cap, charge);
    var since := if !Blocks(r) && hostSafe then Some(GetOr(prior.stableSince, now)) else None;
    Outcome(Blocks(r),
            PreviousGpu(Pids(g), External(g, observed), Later(g.sampleId, prior.sampleId), cap, since),
            Lower(cap, MemoryBudget(cfg, g, observed)))
  }

  /** The second loop: a device that stayed calm for the whole cooldown gets its full budget back. */
  function Relax(cfg: Config, g: Gpu, o: Outcome, observed: nat, now: nat): Outcome {
    if !o.blocked && Cooled(cfg, o.next.stableSince, now) then
      Outcome(o.blocked, o.next.(cap := None), if g.used.Some? then MemoryBudget(cfg, g, observed) else o.budget)
    else o
  }

  // ---------------------------------------------------------------- the whole evaluation

  /** The parts of an evaluation that every device sees. */
  datatype Host = Host(acc: Account, cpu: CpuView, ram: RamView, safe: bool)

  function ViewHost(cfg: Config, e: Engine, s: Snapshot, input: Input, acc: Account, now: nat): Host {
    var cpu := ViewCpu(cfg, s, e.sample, acc, now);
    var ram := ViewRam(cfg, s, acc);
    Host(acc, cpu, ram,
         !input.explicitDrain && !cpu.unknown && !ram.unknown && cpu.capacity > 0 && s.totalRam > 0
         && acc.charged.cpu <= cpu.budget && acc.charged.ram <= ram.budget)
  }

  function Prior(e: Engine, u: Uuid): PreviousGpu {
    if u in e.gpus then e.gpus[u] else UNSEEN
  }

  function DeviceOutcome(cfg: Config, e: Engine, s: Snapshot, h: Host, g: Gpu, now: nat): Outcome {
    Inspect(cfg, s.observedAt, g, Prior(e, g.uuid), Get(h.acc.observed.gpu, g.uuid), Get(h.acc.charged.gpu, g.uuid),
            g.uuid in h.acc.missing.gpu, h.safe, now)
  }

  function DeviceFinal(cfg: Config, e: Engine, s: Snapshot, h: Host, g: Gpu, now: nat): Outcome {
    Relax(cfg, g, DeviceOutcome(cfg, e, s, h, g, now), Get(h.acc.observed.gpu, g.uuid), now)
  }

  /** The outcomes of the devices present, by UUID. */
  function Outcomes(cfg: Config, e: Engine, s: Snapshot, h: Host, gpus: seq<Gpu>, now: nat): map<Uuid, Outcome> {
    if gpus == [] then map[] else
    var n := |gpus| - 1;
    Outcomes(cfg, e, s, h, gpus[..n], now)[gpus[n].uuid := DeviceFinal(cfg, e, s, h, gpus[n], now)]
  }

  lemma {:induction false} OutcomesListed(cfg: Config, e: Engine, s: Snapshot, h: Host, gpus: seq<Gpu>, now: nat)
    requires DistinctGpus(gpus)
    ensures forall i :: 0 <= i < |gpus| ==>
              gpus[i].uuid in Outcomes(cfg, e, s, h, gpus, now)
              && Outcomes(cfg, e, s, h, gpus, now)[gpus[i].uuid] == DeviceFinal(cfg, e, s, h, gpus[i], now)
  {
    hide DeviceFinal;
    if gpus != [] {
      var n := |gpus| - 1;
      OutcomesListed(cfg, e, s, h, gpus[..n], now);
    }
  }

  /** Only devices of the inventory have outcomes. */
  lemma {:induction false} OutcomesPresent(cfg: Config, e: Engine, s: Snapshot, h: Host, gpus: seq<Gpu>, now: nat, u: Uuid)
      returns (i: nat)
    requires u in Outcomes(cfg, e, s, h, gpus, now)
    ensures i < |gpus| && gpus[i].uuid == u
  {
    hide DeviceFinal;
    var n := |gpus| - 1;
    if gpus[n].uuid == u {
      i := n;
    } else {
      i := OutcomesPresent(cfg, e, s, h, gpus[..n], now, u);
    }
  }

  /** Devices that hold charges but are not in the inventory. */
  function Lost(h: Host, outcomes: map<Uuid, Outcome>): set<Uuid> {
    h.acc.charged.gpu.Keys - outcomes.Keys
  }

  predicate UnsafeNow(input: Input, h: Host, outcomes: map<Uuid, Outcome>) {
    || input.explicitDrain || h.cpu.unknown || h.ram.unknown
    || (exists u :: u in outcomes && outcomes[u].blocked)
    || Lost(h, outcomes) != {}
    || h.acc.charged.cpu > h.cpu.budget || h.acc.charged.ram > h.ram.budget
  }

  function ManagedBudget(input: Input, h: Host, outcomes: map<Uuid, Outcome>): Resources {
    if input.explicitDrain then ZERO
    else Resources(h.cpu.budget, h.ram.budget,
                   map u | u in outcomes.Keys + Lost(h, outcomes) :: if u in outcomes then outcomes[u].budget else 0)
  }

  function NextGpus(e: Engine, outcomes: map<Uuid, Outcome>): map<Uuid, PreviousGpu> {
    map u | u in e.gpus.Keys + outcomes.Keys ::
      if u in outcomes then outcomes[u].next else e.gpus[u].(stableSince := None)
  }

  function Since(calm: bool, since: Option<nat>, now: nat): Option<nat> {
    if calm then Some(GetOr(since, now)) else None
  }

  /** Subtraction in place: only devices already named by `total` are kept. */
  function Less(total: Resources, r: Resources): (left: Resources)
    ensures forall d :: Amount(left, d) == Monus(Amount(total, d), Amount(r, d))
  {
    Resources(Monus(total.cpu, r.cpu), Monus(total.ram, r.ram), map u | u in total.gpu :: Monus(total.gpu[u], Get(r.gpu, u)))
  }

  /** Headroom on a device only while it is unblocked and cooled on a safe host. */
  function Headroom(cfg: Config, h: Host, outcomes: map<Uuid, Outcome>, budget: Resources, now: nat): Resources {
    var left := Less(budget, h.acc.charged);
    left.(gpu := map u | u in left.gpu && u in outcomes && h.safe && !outcomes[u].blocked
                                && Cooled(cfg, outcomes[u].next.stableSince, now) :: left.gpu[u])
  }

  /** Clocks, permissions and victims, once host and devices are judged. */
  function Conclusion(e: Engine, cfg: Config, s: Snapshot, input: Input, h: Host, outcomes: map<Uuid, Outcome>, now: nat)
    : (Engine, Decision)
  {
    var unsafe := UnsafeNow(input, h, outcomes);
    var budget := ManagedBudget(input, h, outcomes);
    var stable := Since(!unsafe, e.stableSince, now);
    var cpuRam := Since(h.safe, e.cpuRamStableSince, now);
    var drain := Victims(input, h.acc.charged, budget).0;
    var headroom := Headroom(cfg, h, outcomes, budget, now);
    var cpuRamExpansion := Cooled(cfg, cpuRam, now);
    var expansion := (!unsafe && Cooled(cfg, stable, now) && drain == [])
                     || (cpuRamExpansion && exists u :: u in headroom.gpu && headroom.gpu[u] > 0);
    (Engine(NextGpus(e, outcomes), stable, cpuRam, Some(now), Some(s.node), h.cpu.sample),
     Decision(budget,
              if !expansion && !cpuRamExpansion then headroom.(cpu := 0, ram := 0) else headroom,
              expansion, cpuRamExpansion, drain))
  }

  /** `None` is a refused evaluation: invalid input, a clock that went back, another node, or an overflow. */
  function Evaluate(e: Engine, cfg: Config, s: Snapshot, input: Input, now: nat): Option<(Engine, Decision)> {
    if !Valid(cfg, s, input) || (e.lastNow.Some? && now < e.lastNow.value) || (e.node.Some? && e.node.value != s.node)
    then None else
    var acc :- Accounts(input.allocations);
    var h := ViewHost(cfg, e, s, input, acc, now);
    Some(Conclusion(e, cfg, s, input, h, Outcomes(cfg, e, s, h, s.gpus, now), now))
  }

  // ---------------------------------------------------------------- victims

  predicate Eligible(input: Input, a: Allocation) {
    a.stage != Draining && (input.explicitDrain || a.grade == Opportunistic)
  }

  /** Pending reservations first, then by identifier. */
  function CandidateRows(input: Input, allocations: seq<Allocation>): (rows: map<Id, Row>)
    ensures forall k :: k in rows ==> rows[k].id == k
  {
    if allocations == [] then map[] else
    var n := |allocations| - 1;
    var before := CandidateRows(input, allocations[..n]);
    var a := allocations[n];
    if Eligible(input, a) then before[a.id := Row(a.id, if a.stage == Pending then 0 else 1, 0)] else before
  }

  predicate ContributesToExcess(total: Resources, budget: Resources, charge: Resources)
    ensures ContributesToExcess(total, budget, charge)
            <==> exists d :: Amount(charge, d) > 0 && Amount(total, d) > Amount(budget, d)
  {
    var yes := (total.cpu > budget.cpu && charge.cpu > 0) || (total.ram > budget.ram && charge.ram > 0)
               || exists u :: u in charge.gpu && charge.gpu[u] > 0 && Get(total.gpu, u) > Get(budget.gpu, u);
    assert yes ==> exists d :: Amount(charge, d) > 0 && Amount(total, d) > Amount(budget, d) by {
      if total.cpu > budget.cpu && charge.cpu > 0 {
        assert Amount(charge, Dim.Cpu) > 0 && Amount(total, Dim.Cpu) > Amount(budget, Dim.Cpu);
      } else if total.ram > budget.ram && charge.ram > 0 {
        assert Amount(charge, Dim.Ram) > 0 && Amount(total, Dim.Ram) > Amount(budget, Dim.Ram);
      } else if yes {
        var u :| u in charge.gpu && charge.gpu[u] > 0 && Get(total.gpu, u) > Get(budget.gpu, u);
        assert Amount(charge, Dim.Gpu(u)) > 0 && Amount(total, Dim.Gpu(u)) > Amount(budget, Dim.Gpu(u));
      }
    }
    yes
  }

  /** Work already draining is a planned release when choosing further victims. */
  function WithoutDraining(allocations: seq<Allocation>, charged: Resources): Resources {
    if allocations == [] then charged else
    var n := |allocations| - 1;
    var before := WithoutDraining(allocations[..n], charged);
    if allocations[n].stage == Draining then Less(before, Charge(allocations[n])) else before
  }

  /** The greedy loop: an allocation goes when it charges a dimension that is still over budget. */
  function Choose(cands: seq<Id>, charges: map<Id, Resources>, budget: Resources, remaining: Resources, explicit: bool)
    : (seq<Id>, Resources)
    requires forall id :: id in cands ==> id in charges
  {
    if cands == [] then ([], remaining) else
    var n := |cands| - 1;
    assert forall id :: id in cands[..n] ==> id in cands;
    var (chosen, left) := Choose(cands[..n], charges, budget, remaining, explicit);
    assert cands[n] in cands;
    var charge := charges[cands[n]];
    if explicit || ContributesToExcess(left, budget, charge) then (chosen + [cands[n]], Less(left, charge))
    else (chosen, left)
  }

  lemma {:induction false} CandidatesListed(input: Input, allocations: seq<Allocation>)
    requires DistinctIds(allocations)
    ensures forall id :: id in CandidateRows(input, allocations) <==>
              exists i :: 0 <= i < |allocations| && allocations[i].id == id && Eligible(input, allocations[i])
  {
    if allocations != [] {
      var n := |allocations| - 1;
      CandidatesListed(input, allocations[..n]);
      forall id ensures id in CandidateRows(input, allocations) <==>
                        exists i :: 0 <= i < |allocations| && allocations[i].id == id && Eligible(input, allocations[i]) {
        if exists i :: 0 <= i < |allocations| && allocations[i].id == id && Eligible(input, allocations[i]) {
          var i :| 0 <= i < |allocations| && allocations[i].id == id && Eligible(input, allocations[i]);
          assert i < n ==> allocations[..n][i] == allocations[i];
        }
      }
    }
  }

  lemma {:induction false} CandidatesCharged(input: Input, allocations: seq<Allocation>)
    ensures CandidateRows(input, allocations).Keys <= Charges(allocations).Keys
  {
    if allocations != [] {
      CandidatesCharged(input, allocations[..|allocations| - 1]);
    }
  }

  /** The victims in the order they are chosen, and what is left charged without them. */
  function Victims(input: Input, charged: Resources, budget: Resources): (seq<Id>, Resources) {
    CandidatesCharged(input, input.allocations);
    Choose(ListBy(CandidateRows(input, input.allocations)), Charges(input.allocations), budget,
           WithoutDraining(input.allocations, charged), input.explicitDrain)
  }

  // ---------------------------------------------------------------- protection caps

  /** The device was present and unblocked, on a safe host, in this evaluation. */
  predicate Calm(e: Engine, cfg: Config, s: Snapshot, input: Input, now: nat, u: Uuid) {
    && Accounts(input.allocations).Some?
    && var h := ViewHost(cfg, e, s, input, Accounts(input.allocations).value, now);
    && var outcomes := Outcomes(cfg, e, s, h, s.gpus, now);
    && u in outcomes && !outcomes[u].blocked && h.safe
  }

  /** One device: its cap only tightens, unless the cooldown ran out; its budget respects whatever cap remains. */
  lemma DeviceCap(cfg: Config, e: Engine, s: Snapshot, h: Host, g: Gpu, now: nat)
    ensures var o := DeviceFinal(cfg, e, s, h, g, now);
      && (o.next.cap.Some? ==> o.budget <= o.next.cap.value)
      && (Prior(e, g.uuid).cap.Some? ==>
            (if o.next.cap.Some? then o.next.cap.value <= Prior(e, g.uuid).cap.value
             else !o.blocked && Cooled(cfg, o.next.stableSince, now)))
      && o.next.stableSince ==
           (if !o.blocked && h.safe then Some(GetOr(Prior(e, g.uuid).stableSince, now)) else None)
  {
    hide Read, MemoryBudget, Blocks;
  }

  lemma OutcomeOf(cfg: Config, e: Engine, s: Snapshot, h: Host, now: nat, u: Uuid) returns (g: Gpu)
    requires DistinctGpus(s.gpus) && u in Outcomes(cfg, e, s, h, s.gpus, now)
    ensures g.uuid == u && Outcomes(cfg, e, s, h, s.gpus, now)[u] == DeviceFinal(cfg, e, s, h, g, now)
  {
    hide DeviceFinal;
    OutcomesListed(cfg, e, s, h, s.gpus, now);
    var i := OutcomesPresent(cfg, e, s, h, s.gpus, now, u);
    g := s.gpus[i];
  }

  /** What one evaluation may do to the cap, the clock and the budget of one device. */
  ghost predicate CapRule(cfg: Config, before: PreviousGpu, after: PreviousGpu, budget: nat, calm: bool, now: nat) {
    && (after.cap.Some? ==> budget <= after.cap.value)
    && (before.cap.Some? && after.cap.Some? ==> after.cap.value <= before.cap.value)
    && (before.cap.Some? && after.cap.None? ==> calm && Cooled(cfg, after.stableSince, now))
    && after.stableSince == (if calm then Some(GetOr(before.stableSince, now)) else None)
  }

  lemma CapNeverRises(e: Engine, cfg: Config, s: Snapshot, input: Input, now: nat, u: Uuid)
    requires Evaluate(e, cfg, s, input, now).Some? && u in Evaluate(e, cfg, s, input, now).value.0.gpus
    ensures var (e', decision) := Evaluate(e, cfg, s, input, now).value;
      CapRule(cfg, Prior(e, u), e'.gpus[u], Get(decision.budget.gpu, u), Calm(e, cfg, s, input, now, u), now)
  {
    var h := ViewHost(cfg, e, s, input, Accounts(input.allocations).value, now);
    var outcomes := Outcomes(cfg, e, s, h, s.gpus, now);
    if u in outcomes {
      var g := OutcomeOf(cfg, e, s, h, now, u);
      DeviceCap(cfg, e, s, h, g, now);
      hide DeviceFinal, Outcomes, ViewHost;
    } else {
      hide DeviceFinal, Outcomes, ViewHost;
    }
  }

  // ---------------------------------------------------------------- histories of evaluations

  datatype Trial = Trial(cfg: Config, s: Snapshot, input: Input, now: nat)

  function Result(e: Engine, t: Trial): Option<(Engine, Decision)> {
    Evaluate(e, t.cfg, t.s, t.input, t.now)
  }

  /** Successful evaluations in order; a refused one changes nothing, so it leaves no trace here. */
  ghost predicate History(es: seq<Engine>, ts: seq<Trial>) {
    && |es| == |ts| + 1 && es[0] == NEW
    && (forall i {:trigger ts[i]} :: 0 <= i < |ts| ==> Succeeds(es[i], ts[i], es[i + 1]))
  }

  ghost predicate Succeeds(e: Engine, t: Trial, e': Engine) {
    Result(e, t).Some? && Result(e, t).value.0 == e'
  }

  ghost predicate CalmAt(es: seq<Engine>, ts: seq<Trial>, i: nat, u: Uuid) {
    i < |ts| && i < |es| && Calm(es[i], ts[i].cfg, ts[i].s, ts[i].input, ts[i].now, u)
  }

  /** How one step of a history moves a device's clock and cap. */
  lemma StepRule(e: Engine, t: Trial, e': Engine, u: Uuid)
    requires Succeeds(e, t, e') && u in e'.gpus
    ensures CapRule(t.cfg, Prior(e, u), e'.gpus[u], Get(Result(e, t).value.1.budget.gpu, u),
                    Calm(e, t.cfg, t.s, t.input, t.now, u), t.now)
  {
    CapNeverRises(e, t.cfg, t.s, t.input, t.now, u);
  }

  /** A running device clock is witnessed: it started at evaluation `j`, and the device was calm ever since. */
  lemma {:induction false} UnbrokenCalm(es: seq<Engine>, ts: seq<Trial>, k: nat, u: Uuid) returns (j: nat)
    requires History(es, ts) && k <= |ts| && u in es[k].gpus && es[k].gpus[u].stableSince.Some?
    ensures j < k && ts[j].now == es[k].gpus[u].stableSince.value
    ensures forall i :: j <= i < k ==> CalmAt(es, ts, i, u)
  {
    hide Succeeds, Calm;
    assert k > 0;
    var t := ts[k - 1];
    StepRule(es[k - 1], t, es[k], u);
    if Prior(es[k - 1], u).stableSince.Some? {
      j := UnbrokenCalm(es, ts, k - 1, u);
    } else {
      j := k - 1;
    }
  }

  /** The device memory that evaluation `i` reports as usable. */
  function BudgetAt(es: seq<Engine>, ts: seq<Trial>, i: nat, u: Uuid): nat
    requires i < |es| && i < |ts|
  {
    match Result(es[i], ts[i])
    case None => 0
    case Some(r) => Get(r.1.budget.gpu, u)
  }

  ghost predicate Capped(es: seq<Engine>, i: nat, j: nat, u: Uuid) {
    i <= j < |es| && forall k :: i <= k <= j ==> u in es[k].gpus && es[k].gpus[u].cap.Some?
  }

  /**
   From the evaluation that sets a cap to the one that lifts it, however long: the cap never rises, and every
   budget reported meanwhile stays at or below it, and so below every earlier cap.
   */
  lemma {:induction false} CapThroughout(es: seq<Engine>, ts: seq<Trial>, i: nat, j: nat, u: Uuid)
    requires History(es, ts) && Capped(es, i, j, u)
    ensures es[j].gpus[u].cap.value <= es[i].gpus[u].cap.value
    ensures forall k :: i <= k < j ==> BudgetAt(es, ts, k, u) <= es[k + 1].gpus[u].cap.value <= es[i].gpus[u].cap.value
    decreases j - i
  {
    hide Succeeds, BudgetAt;
    if i < j {
      CapThroughout(es, ts, i, j - 1, u);
      CapStep(es, ts, j - 1, u);
    }
  }

  lemma CapStep(es: seq<Engine>, ts: seq<Trial>, k: nat, u: Uuid)
    requires History(es, ts) && Capped(es, k, k + 1, u)
    ensures BudgetAt(es, ts, k, u) <= es[k + 1].gpus[u].cap.value <= es[k].gpus[u].cap.value
  {
    assert Succeeds(es[k], ts[k], es[k + 1]);
    StepRule(es[k], ts[k], es[k + 1], u);
    hide Result, Calm;
  }

  /**
   A protection cap is lifted only after an unbroken run of evaluations, spanning the cooldown, in each of
   which the device was present and unblocked and the host was safe.
   */
  lemma CapLiftedAfterCooldown(es: seq<Engine>, ts: seq<Trial>, k: nat, u: Uuid) returns (j: nat)
    requires History(es, ts) && k < |ts| && u in es[k].gpus && u in es[k + 1].gpus
    requires es[k].gpus[u].cap.Some? && es[k + 1].gpus[u].cap.None?
    ensures j <= k && ts[j].now + ts[k].cfg.cooldown <= ts[k].now
    ensures forall i :: j <= i <= k ==> CalmAt(es, ts, i, u)
  {
    hide Succeeds, Calm;
    StepRule(es[k], ts[k], es[k + 1], u);
    j := UnbrokenCalm(es, ts, k + 1, u);
    TimeMovesOn(es, ts, j, k);
  }

  lemma {:induction false} TimeMovesOn(es: seq<Engine>, ts: seq<Trial>, j: nat, k: nat)
    requires History(es, ts) && j <= k < |ts|
    ensures ts[j].now <= ts[k].now
    decreases k - j
  {
    hide Succeeds;
    if j < k {
      TimeMovesOn(es, ts, j, k - 1);
      Watermark(es[k - 1], ts[k - 1], es[k]);
      Watermark(es[k], ts[k], es[k + 1]);
    }
  }

  /** The engine remembers its last evaluation time and never accepts an earlier one. */
  lemma Watermark(e: Engine, t: Trial, e': Engine)
    requires Succeeds(e, t, e')
    ensures e'.lastNow == Some(t.now) && (e.lastNow.Some? ==> e.lastNow.value <= t.now)
  {
    hide Accounts, ViewHost, Outcomes, Victims, Headroom, NextGpus, ManagedBudget, UnsafeNow;
  }

  // ---------------------------------------------------------------- stability clocks

  /** The global clock, when set, was set no earlier than the CPU/RAM clock, and neither is ahead of time. */
  ghost predicate ClocksOrdered(e: Engine) {
    && (e.cpuRamStableSince.Some? ==> e.lastNow.Some? && e.cpuRamStableSince.value <= e.lastNow.value)
    && (e.stableSince.Some? ==> e.cpuRamStableSince.Some? && e.cpuRamStableSince.value <= e.stableSince.value)
    && (e.stableSince.Some? ==> e.lastNow.Some? && e.stableSince.value <= e.lastNow.value)
  }

  /** Whatever makes the whole node calm makes CPU and RAM safe, capacity included. */
  lemma CalmHostIsSafe(e: Engine, cfg: Config, s: Snapshot, input: Input, acc: Account, now: nat)
    requires ValidSnapshot(s)
    ensures var h := ViewHost(cfg, e, s, input, acc, now);
      h.safe <==> (!input.explicitDrain && !h.cpu.unknown && !h.ram.unknown
                   && acc.charged.cpu <= h.cpu.budget && acc.charged.ram <= h.ram.budget)
  {
  }

  lemma ExpansionImpliesCpuRam(e: Engine, cfg: Config, s: Snapshot, input: Input, now: nat)
    requires ClocksOrdered(e) && Evaluate(e, cfg, s, input, now).Some?
    ensures var (e', decision) := Evaluate(e, cfg, s, input, now).value;
      ClocksOrdered(e') && (decision.expansion ==> decision.cpuRamExpansion)
  {
    var acc := Accounts(input.allocations).value;
    CalmHostIsSafe(e, cfg, s, input, acc, now);
    hide ViewHost, Outcomes, Victims, Headroom, NextGpus, ManagedBudget, Accounts;
  }

  lemma {:induction false} ClocksAlwaysOrdered(es: seq<Engine>, ts: seq<Trial>, k: nat)
    requires History(es, ts) && k <= |ts|
    ensures ClocksOrdered(es[k])
  {
    hide Succeeds;
    if k > 0 {
      ClocksAlwaysOrdered(es, ts, k - 1);
      ClocksStep(es[k - 1], ts[k - 1], es[k]);
    }
  }

  /** In every reachable state, permission to expand implies permission to expand CPU and RAM. */
  lemma ExpansionNeverOutrunsCpuRam(es: seq<Engine>, ts: seq<Trial>, k: nat)
    requires History(es, ts) && k < |ts|
    ensures Result(es[k], ts[k]).Some?
    ensures Result(es[k], ts[k]).value.1.expansion ==> Result(es[k], ts[k]).value.1.cpuRamExpansion
  {
    ClocksAlwaysOrdered(es, ts, k);
    ClocksStep(es[k], ts[k], es[k + 1]);
    hide Result;
  }

  lemma ClocksStep(e: Engine, t: Trial, e': Engine)
    requires Succeeds(e, t, e') && ClocksOrdered(e)
    ensures ClocksOrdered(e') && (Result(e, t).value.1.expansion ==> Result(e, t).value.1.cpuRamExpansion)
  {
    ExpansionImpliesCpuRam(e, t.cfg, t.s, t.input, t.now);
  }

  // ---------------------------------------------------------------- exactness of the victims

  function Retained(charges: map<Id, Resources>, gone: set<Id>): map<Id, Resources> {
    map id | id in charges && id !in gone :: charges[id]
  }

  lemma RetainedLess(charges: map<Id, Resources>, gone: set<Id>, id: Id, left: Resources, d: Dim)
    requires id in charges && id !in gone && Amount(left, d) == TotalIn(Retained(charges, gone), d)
    ensures Amount(Less(left, charges[id]), d) == TotalIn(Retained(charges, gone + {id}), d)
  {
    TotalInRemove(Retained(charges, gone), id, d);
    assert Retained(charges, gone) - {id} == Retained(charges, gone + {id});
  }

  function DrainingIds(allocations: seq<Allocation>): set<Id> {
    set i | 0 <= i < |allocations| && allocations[i].stage == Draining :: allocations[i].id
  }

  /** The charge table of exactly these allocations. */
  ghost predicate Tabulates(charges: map<Id, Resources>, allocations: seq<Allocation>) {
    forall i :: 0 <= i < |allocations| ==>
      allocations[i].id in charges && charges[allocations[i].id] == Charge(allocations[i])
  }

  lemma DrainingOneMore(allocations: seq<Allocation>)
    requires allocations != [] && DistinctIds(allocations)
    ensures var n := |allocations| - 1;
      && allocations[n].id !in DrainingIds(allocations[..n])
      && DrainingIds(allocations) == DrainingIds(allocations[..n])
                                     + (if allocations[n].stage == Draining then {allocations[n].id} else {})
  {
    var n := |allocations| - 1;
    forall id ensures id in DrainingIds(allocations) <==>
                      id in DrainingIds(allocations[..n]) || (allocations[n].stage == Draining && id == allocations[n].id) {
      if id in DrainingIds(allocations) {
        var i :| 0 <= i < |allocations| && allocations[i].stage == Draining && allocations[i].id == id;
        assert i < n ==> allocations[..n][i] == allocations[i];
      }
      if id in DrainingIds(allocations[..n]) {
        var i :| 0 <= i < n && allocations[..n][i].stage == Draining && allocations[..n][i].id == id;
        assert allocations[i].id == id;
      }
    }
  }

  lemma {:induction false} WithoutDrainingExact(
      allocations: seq<Allocation>, charges: map<Id, Resources>, charged: Resources, d: Dim)
    requires DistinctIds(allocations) && Tabulates(charges, allocations)
    requires Amount(charged, d) == TotalIn(charges, d)
    ensures Amount(WithoutDraining(allocations, charged), d) == TotalIn(Retained(charges, DrainingIds(allocations)), d)
  {
    if allocations == [] {
      assert Retained(charges, DrainingIds(allocations)) == charges;
    } else {
      var n := |allocations| - 1;
      WithoutDrainingExact(allocations[..n], charges, charged, d);
      DrainingOneMore(allocations);
      if allocations[n].stage == Draining {
        assert charges[allocations[n].id] == Charge(allocations[n]);
        RetainedLess(charges, DrainingIds(allocations[..n]), allocations[n].id,
                     WithoutDraining(allocations[..n], charged), d);
      } else {
        assert DrainingIds(allocations) == DrainingIds(allocations[..n]);
      }
    }
  }

  /** What the greedy loop knows about its choice so far. */
  ghost predicate Chosen(cands: seq<Id>, charges: map<Id, Resources>, drained: set<Id>, budget: Resources,
                         explicit: bool, chosen: seq<Id>, left: Resources, d: Dim)
  {
    && Distinct(chosen)
    && (forall id :: id in chosen ==> id in cands)
    && Amount(left, d) == TotalIn(Retained(charges, drained + (set id | id in chosen)), d)
    && (forall id :: id in cands && id !in chosen ==>
          !explicit && id in charges && (Amount(left, d) <= Amount(budget, d) || Amount(charges[id], d) == 0))
  }

  lemma {:induction false} ChooseExact(cands: seq<Id>, charges: map<Id, Resources>, drained: set<Id>, budget: Resources,
                                       remaining: Resources, explicit: bool, d: Dim)
    requires Distinct(cands) && forall id :: id in cands ==> id in charges && id !in drained
    requires Amount(remaining, d) == TotalIn(Retained(charges, drained), d)
    ensures var (chosen, left) := Choose(cands, charges, budget, remaining, explicit);
      Chosen(cands, charges, drained, budget, explicit, chosen, left, d)
  {
    if cands == [] {
      assert drained + (set id | id in cands) == drained;
    } else {
      var n := |cands| - 1;
      assert forall id :: id in cands[..n] ==> id in cands;
      ChooseExact(cands[..n], charges, drained, budget, remaining, explicit, d);
      var (chosen, left) := Choose(cands[..n], charges, budget, remaining, explicit);
      assert cands[n] in cands && cands[n] !in cands[..n];
      assert cands == cands[..n] + [cands[n]];
      ChooseNext(cands[..n], cands[n], charges, drained, budget, explicit, chosen, left, d);
    }
  }

  lemma ChooseNext(cands: seq<Id>, id: Id, charges: map<Id, Resources>, drained: set<Id>, budget: Resources,
                   explicit: bool, chosen: seq<Id>, left: Resources, d: Dim)
    requires Chosen(cands, charges, drained, budget, explicit, chosen, left, d)
    requires id in charges && id !in drained && id !in cands
    ensures if explicit || ContributesToExcess(left, budget, charges[id])
      then Chosen(cands + [id], charges, drained, budget, explicit, chosen + [id], Less(left, charges[id]), d)
      else Chosen(cands + [id], charges, drained, budget, explicit, chosen, left, d)
  {
    if explicit || ContributesToExcess(left, budget, charges[id]) {
      var gone := drained + (set x | x in chosen);
      RetainedLess(charges, gone, id, left, d);
      assert gone + {id} == drained + (set x | x in chosen + [id]);
    }
  }

  /**
   Victim selection is exact. What remains is the sum of the charges of allocations neither draining nor
   chosen; a dimension still over budget has had every eligible allocation that charges it chosen; and
   guaranteed work is chosen only on an explicit drain, which takes everything.
   */
  lemma VictimsExact(input: Input, acc: Account, budget: Resources, d: Dim)
    requires DistinctIds(input.allocations) && Accounts(input.allocations) == Some(acc)
    ensures var (chosen, left) := Victims(input, acc.charged, budget);
      var charges := Charges(input.allocations);
      && Distinct(chosen)
      && Amount(left, d) == TotalIn(Retained(charges, DrainingIds(input.allocations) + (set id | id in chosen)), d)
      && (forall id :: id in chosen ==> EligibleId(input, id))
      && (forall id :: EligibleId(input, id) && id !in chosen ==>
            !input.explicitDrain && id in charges
            && (Amount(left, d) > Amount(budget, d) ==> Amount(charges[id], d) == 0))
  {
    var allocations, charges := input.allocations, Charges(input.allocations);
    ChargesListed(allocations);
    ChargedExact(allocations, d);
    WithoutDrainingExact(allocations, charges, acc.charged, d);
    CandidatesListed(input, allocations);
    var cands := ListBy(CandidateRows(input, allocations));
    CandidatesCharged(input, allocations);
    forall id | id in cands ensures id in charges && id !in DrainingIds(allocations) {
      EligibleNotDraining(input, id);
    }
    ChooseExact(cands, charges, DrainingIds(allocations), budget, WithoutDraining(allocations, acc.charged),
                input.explicitDrain, d);
  }

  predicate EligibleId(input: Input, id: Id) {
    exists i :: 0 <= i < |input.allocations| && input.allocations[i].id == id && Eligible(input, input.allocations[i])
  }

  lemma EligibleNotDraining(input: Input, id: Id)
    requires DistinctIds(input.allocations) && EligibleId(input, id)
    ensures id !in DrainingIds(input.allocations)
  {
  }

  // ---------------------------------------------------------------- what the coordinator may schedule

  /** The budget a node reports: no memory on a device without admission headroom. */
  function SchedulableBudget(decision: Decision): Resources {
    decision.budget.(gpu := map u | u in decision.budget.gpu ::
                       if u in decision.headroom.gpu then decision.budget.gpu[u] else 0)
  }

  /** Device memory is offered for scheduling only while the device is calm and past its cooldown. */
  lemma ScheduledOnlyWhenCooled(e: Engine, cfg: Config, s: Snapshot, input: Input, now: nat, u: Uuid)
    requires Evaluate(e, cfg, s, input, now).Some?
    requires Get(SchedulableBudget(Evaluate(e, cfg, s, input, now).value.1).gpu, u) > 0
    ensures Calm(e, cfg, s, input, now, u)
    ensures var e' := Evaluate(e, cfg, s, input, now).value.0;
      u in e'.gpus && Cooled(cfg, e'.gpus[u].stableSince, now)
  {
    hide Outcomes, ViewHost, Victims;
  }
}
