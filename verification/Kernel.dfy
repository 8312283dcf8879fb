/** The per-CPU busy estimator (src/kernel.rs `CpuUsageTracker::observe`). */
module KernelUsage {
  import opened Options
  import opened ResourceVectors
  import opened Listings
  import Policy

  datatype Ticks = Ticks(total: nat, idle: nat, idleOnly: nat)

  datatype UsageStatus = Available | Baseline | NoInterval | Stale | CounterReset | Unknown

  datatype Usage = Usage(status: UsageStatus, busy: Option<nat>, interval: Option<nat>)

  type Counters = map<nat, Ticks>

  function CeilDiv(x: nat, y: nat): (q: nat)
    requires y > 0
    ensures y * q >= x && (q > 0 ==> y * (q - 1) < x)
  {
    if x == 0 then 0 else
    assert y * ((x - 1) / y) <= x - 1 < y * ((x - 1) / y) + y;
    (x - 1) / y + 1
  }

  lemma CeilDivBound(x: nat, y: nat, bound: nat)
    requires y > 0 && x <= y * bound
    ensures CeilDiv(x, y) <= bound
  {
    var q := CeilDiv(x, y);
    if q > 0 {
      MulMonotone(y, bound, q - 1);
    }
  }

  lemma MulMonotone(y: nat, a: nat, b: nat)
    ensures a <= b ==> y * a <= y * b
  {
  }

  // ---------------------------------------------------------------- one CPU

  /** The estimate for one CPU over one interval, or why there is none. */
  datatype Reading = Estimate(millicores: nat, ticks: nat) | Invalid(why: UsageStatus)

  /** Elapsed time in thousandths of a counter tick. */
  function Elapsed(interval: nat, hz: nat): nat {
    interval * hz
  }

  /** The idle time the counters prove, one tick of endpoint rounding allowed, in thousandths of a tick. */
  function IdleLower(prior: Ticks, current: Ticks): nat {
    1000 * Monus(Monus(current.idleOnly, prior.idleOnly), 1)
  }

  function ReadCpu(prior: Ticks, current: Ticks, interval: nat, hz: Option<nat>): (r: Reading)
    requires interval > 0 && (hz.Some? ==> hz.value > 0)
    ensures r.Estimate? ==> r.millicores <= 1000
  {
    if current.total < prior.total || current.idle < prior.idle
       || current.total - prior.total < current.idle - prior.idle then Invalid(CounterReset)
    else
      var total, idle := current.total - prior.total, current.idle - prior.idle;
      if total == 0 then Invalid(NoInterval) else
      var tickBusy := CeilDiv((total - idle) * 1000, total);
      assert tickBusy <= 1000 by { CeilDivBound((total - idle) * 1000, total, 1000); }
      if hz.None? then Estimate(tickBusy, total)
      else if current.idleOnly < prior.idleOnly then Invalid(CounterReset)
      else
        var elapsed, idleLower := Elapsed(interval, hz.value), IdleLower(prior, current);
        assert elapsed > 0 by { ProductPositive(interval, hz.value); }
        if idleLower > elapsed then Invalid(Unknown)
        else
          var nonIdle := CeilDiv((elapsed - idleLower) * 1000, elapsed);
          assert nonIdle <= 1000 by { CeilDivBound((elapsed - idleLower) * 1000, elapsed, 1000); }
          Estimate(Max(tickBusy, nonIdle), total)
  }

  lemma ProductPositive(a: nat, b: nat)
    requires a > 0 && b > 0
    ensures a * b > 0
  {
  }

  /**
   With a tick rate, the estimate is at least the busy share of any execution whose true idle time is
   no more than one tick below what the idle counter shows.
   */
  lemma EstimateCovers(prior: Ticks, current: Ticks, interval: nat, hz: nat, trueIdle: nat)
    requires interval > 0 && hz > 0 && ReadCpu(prior, current, interval, Some(hz)).Estimate?
    requires trueIdle <= Elapsed(interval, hz) && trueIdle >= IdleLower(prior, current)
    ensures ReadCpu(prior, current, interval, Some(hz)).millicores * Elapsed(interval, hz)
            >= 1000 * (Elapsed(interval, hz) - trueIdle)
  {
    var elapsed, idleLower := Elapsed(interval, hz), IdleLower(prior, current);
    ProductPositive(interval, hz);
    var nonIdle := CeilDiv((elapsed - idleLower) * 1000, elapsed);
    var estimate := ReadCpu(prior, current, interval, Some(hz)).millicores;
    hide IdleLower, Elapsed;
    assert estimate >= nonIdle;
    MulMonotone(elapsed, nonIdle, estimate);
  }

  /** So many thousandths of a CPU account for the ticks not idle and, at a known rate, for the time not proved idle. */
  ghost predicate Accounts(m: nat, prior: Ticks, current: Ticks, interval: nat, hz: Option<nat>) {
    && (current.total - prior.total) * m >= 1000 * (current.total - prior.total - (current.idle - prior.idle))
    && (hz.Some? ==>
          interval * hz.value * m
          >= 1000 * (interval * hz.value
                     - if current.idleOnly > prior.idleOnly then 1000 * (current.idleOnly - prior.idleOnly - 1) else 0))
  }

  /** There is an estimate exactly when no counter went back and the CPU ticked, and it is then the least that accounts. */
  lemma EstimateLeast(prior: Ticks, current: Ticks, interval: nat, hz: Option<nat>)
    requires interval > 0 && (hz.Some? ==> hz.value > 0)
    ensures ReadCpu(prior, current, interval, hz).Estimate? <==>
      && prior.total < current.total && prior.idle <= current.idle
      && current.idle - prior.idle <= current.total - prior.total
      && (hz.Some? ==> prior.idleOnly <= current.idleOnly && IdleLower(prior, current) <= Elapsed(interval, hz.value))
    ensures ReadCpu(prior, current, interval, hz).Estimate? ==>
      var m := ReadCpu(prior, current, interval, hz).millicores;
      Accounts(m, prior, current, interval, hz) && forall k: nat :: Accounts(k, prior, current, interval, hz) ==> m <= k
  {
    var r := ReadCpu(prior, current, interval, hz);
    if r.Estimate? {
      var total := current.total - prior.total;
      var busy := (total - (current.idle - prior.idle)) * 1000;
      LeastOf(busy, total);
      if hz.Some? {
        ProductPositive(interval, hz.value);
        var elapsed := Elapsed(interval, hz.value);
        LeastOf((elapsed - IdleLower(prior, current)) * 1000, elapsed);
        MulMonotone(total, CeilDiv(busy, total), r.millicores);
        MulMonotone(elapsed, CeilDiv((elapsed - IdleLower(prior, current)) * 1000, elapsed), r.millicores);
      }
    }
  }

  lemma LeastOf(x: nat, y: nat)
    requires y > 0
    ensures y * CeilDiv(x, y) >= x && forall k: nat :: y * k >= x ==> CeilDiv(x, y) <= k
  {
    forall k: nat | y * k >= x ensures CeilDiv(x, y) <= k {
      if k < CeilDiv(x, y) {
        MulMonotone(y, k, CeilDiv(x, y) - 1);
      }
    }
  }

  // ---------------------------------------------------------------- the selected set

  /** The selected rows, or `None` when one is missing or the set is absent or empty. */
  function Selected(all: Option<Counters>, ids: Option<seq<nat>>): Option<Counters> {
    if all.None? || ids.None? || ids.value == [] || exists i :: 0 <= i < |ids.value| && ids.value[i] !in all.value
    then None
    else Some(map id | id in ids.value :: all.value[id])
  }

  /** CPU numbers in ascending order. */
  function Order(c: Counters): (s: seq<nat>)
    ensures Distinct(s) && forall id :: id in s <==> id in c
  {
    ListBy(map id | id in c :: Row(id, 0, 0))
  }

  datatype Sum = Sum(busy: nat, maxTicks: nat) | Broken(why: UsageStatus)

  /** The accumulation loop over the CPUs in order, stopping at the first invalid one. */
  function Accumulate(order: seq<nat>, prior: Counters, current: Counters, interval: nat, hz: Option<nat>): (r: Sum)
    requires interval > 0 && (hz.Some? ==> hz.value > 0)
    requires forall id :: id in order ==> id in prior && id in current
    ensures r.Sum? ==> r.busy <= 1000 * |order|
  {
    if order == [] then Sum(0, 0) else
    var n := |order| - 1;
    assert forall id :: id in order[..n] ==> id in order;
    var before := Accumulate(order[..n], prior, current, interval, hz);
    assert order[n] in order;
    match before
    case Broken(_) => before
    case Sum(busy, ticks) =>
      match ReadCpu(prior[order[n]], current[order[n]], interval, hz)
      case Invalid(why) => Broken(why)
      case Estimate(m, total) => Sum(busy + m, Max(ticks, total))
  }

  /** What the estimator remembers: the last sample, if it was usable. */
  type Previous = Option<(nat, Counters)>

  function Observed(previous: Previous, hz: Option<nat>, all: Option<Counters>, ids: Option<seq<nat>>, now: nat,
                    freshness: nat)
    : (Previous, Usage, Option<nat>)
    requires hz.Some? ==> hz.value > 0
  {
    var selected := Selected(all, ids);
    if selected.None? then (None, Usage(Unknown, None, None), None)
    else
      var next := Some((now, selected.value));
      if previous.None? || previous.value.1.Keys != selected.value.Keys then (next, Usage(Baseline, None, None), None)
      else if now < previous.value.0 then (next, Usage(NoInterval, None, None), None)
      else
        var interval := now - previous.value.0;
        if interval == 0 then (next, Usage(NoInterval, None, Some(0)), None)
        else if interval > freshness then (next, Usage(Stale, None, Some(interval)), None)
        else
          match Accumulate(Order(selected.value), previous.value.1, selected.value, interval, hz)
          case Broken(why) => (next, Usage(why, None, Some(interval)), None)
          case Sum(busy, ticks) => (next, Usage(Available, Some(busy), Some(interval)), Some(ticks))
  }

  // ---------------------------------------------------------------- bounds

  lemma {:induction false} DistinctCount(order: seq<nat>, c: set<nat>)
    requires Distinct(order) && forall id :: id in order ==> id in c
    ensures |order| <= |c|
  {
    if order != [] {
      var n := |order| - 1;
      assert order[n] in order && order[n] !in order[..n];
      assert forall id :: id in order[..n] ==> id in order;
      DistinctCount(order[..n], c - {order[n]});
    }
  }

  lemma {:induction false} KeysCount(ids: seq<nat>, c: set<nat>)
    requires forall id :: id in c ==> id in ids
    ensures |c| <= |ids|
  {
    if ids == [] {
      assert c == {};
    } else {
      var n := |ids| - 1;
      assert ids == ids[..n] + [ids[n]];
      KeysCount(ids[..n], c - {ids[n]});
    }
  }

  lemma SelectedCount(all: Option<Counters>, ids: Option<seq<nat>>)
    ensures Selected(all, ids).Some? ==> ids.Some? && |Selected(all, ids).value.Keys| <= |ids.value|
  {
    if Selected(all, ids).Some? {
      KeysCount(ids.value, Selected(all, ids).value.Keys);
    }
  }

  /** Available usage is at most 1000 millicores per selected CPU, over a positive and fresh interval. */
  lemma UsageWithinHardware(previous: Previous, hz: Option<nat>, all: Option<Counters>, ids: Option<seq<nat>>, now: nat,
                            freshness: nat)
    requires hz.Some? ==> hz.value > 0
    requires Observed(previous, hz, all, ids, now, freshness).1.status == Available
    ensures var usage := Observed(previous, hz, all, ids, now, freshness).1;
      && ids.Some? && usage.busy.Some? && usage.busy.value <= 1000 * |ids.value|
      && usage.interval.Some? && 0 < usage.interval.value <= freshness
  {
    var selected := Selected(all, ids);
    SelectedCount(all, ids);
    AvailableSum(previous, hz, all, ids, now, freshness);
    hide Observed, Accumulate, Order, Selected;
    DistinctCount(Order(selected.value), selected.value.Keys);
  }

  /** Where an available estimate comes from. */
  lemma AvailableSum(previous: Previous, hz: Option<nat>, all: Option<Counters>, ids: Option<seq<nat>>, now: nat,
                     freshness: nat)
    requires hz.Some? ==> hz.value > 0
    requires Observed(previous, hz, all, ids, now, freshness).1.status == Available
    ensures var usage := Observed(previous, hz, all, ids, now, freshness).1;
      && previous.Some? && now > previous.value.0 && now - previous.value.0 <= freshness
      && Selected(all, ids).Some? && previous.value.1.Keys == Selected(all, ids).value.Keys
      && usage.interval == Some(now - previous.value.0)
      && var sum := Accumulate(Order(Selected(all, ids).value), previous.value.1, Selected(all, ids).value,
                               now - previous.value.0, hz);
      sum.Sum? && usage.busy == Some(sum.busy)
  {
    hide Order, Selected, ReadCpu;
    AccumulateNeverAvailable(previous, hz, all, ids, now);
    hide Accumulate;
  }

  lemma AccumulateNeverAvailable(previous: Previous, hz: Option<nat>, all: Option<Counters>, ids: Option<seq<nat>>, now: nat)
    requires hz.Some? ==> hz.value > 0
    ensures previous.Some? && now > previous.value.0 && Selected(all, ids).Some?
            && previous.value.1.Keys == Selected(all, ids).value.Keys ==>
      Accumulate(Order(Selected(all, ids).value), previous.value.1, Selected(all, ids).value, now - previous.value.0, hz)
      != Broken(Available)
  {
    hide Selected, Accumulate, Order, ReadCpu;
    if previous.Some? && now > previous.value.0 && Selected(all, ids).Some?
       && previous.value.1.Keys == Selected(all, ids).value.Keys {
      BrokenReason(Order(Selected(all, ids).value), previous.value.1, Selected(all, ids).value,
                   now - previous.value.0, hz);
    }
  }

  lemma {:induction false} BrokenReason(order: seq<nat>, prior: Counters, current: Counters, interval: nat, hz: Option<nat>)
    requires interval > 0 && (hz.Some? ==> hz.value > 0)
    requires forall id :: id in order ==> id in prior && id in current
    ensures Accumulate(order, prior, current, interval, hz) != Broken(Available)
  {
    if order != [] {
      var n := |order| - 1;
      assert order[n] in order && forall id :: id in order[..n] ==> id in order;
      BrokenReason(order[..n], prior, current, interval, hz);
    }
  }

  /** A snapshot that carries this usage passes every usage check of the policy; only topology checks remain. */
  lemma UsagePassesPolicy(previous: Previous, hz: Option<nat>, all: Option<Counters>, k: Policy.Kernel, now: nat)
    requires hz.Some? ==> hz.value > 0
    requires var usage := Observed(previous, hz, all, k.effective, now, k.freshness).1;
      usage.status == Available && k.busyAvailable && k.busy == usage.busy && k.interval == usage.interval
    ensures Policy.ScopedCpuValid(k) <==>
      && k.effective.Some? && k.schema == 1 && k.effective.value != [] && Distinct(k.effective.value)
      && k.permitted.Some? && (forall i :: 0 <= i < |k.effective.value| ==> k.effective.value[i] in k.permitted.value)
      && (k.cgroup.Some? ==> forall i :: 0 <= i < |k.effective.value| ==> k.effective.value[i] in k.cgroup.value)
      && k.capacity == Some(1000 * |k.effective.value|)
      && k.ceiling.Some? && k.ceiling.value <= 1000 * |k.effective.value|
  {
    UsageWithinHardware(previous, hz, all, k.effective, now, k.freshness);
    hide Observed;
  }

  /** Busy time, in thousandths of a tick, of an execution with the given idle times. */
  function TrueBusy(order: seq<nat>, idle: map<nat, nat>, elapsed: nat): nat
    requires forall id :: id in order ==> id in idle && idle[id] <= elapsed
  {
    if order == [] then 0 else
    var n := |order| - 1;
    assert order[n] in order && forall id :: id in order[..n] ==> id in order;
    TrueBusy(order[..n], idle, elapsed) + elapsed - idle[order[n]]
  }

  /** The execution is consistent with the counters: its idle time is at most one tick below them. */
  ghost predicate Consistent(order: seq<nat>, prior: Counters, current: Counters, idle: map<nat, nat>, elapsed: nat) {
    forall id :: id in order ==>
      id in prior && id in current && id in idle && IdleLower(prior[id], current[id]) <= idle[id] <= elapsed
  }

  lemma {:induction false} EstimateNeverLow(order: seq<nat>, prior: Counters, current: Counters, interval: nat, hz: nat,
                                            idle: map<nat, nat>)
    requires interval > 0 && hz > 0 && Consistent(order, prior, current, idle, Elapsed(interval, hz))
    requires Accumulate(order, prior, current, interval, Some(hz)).Sum?
    ensures Accumulate(order, prior, current, interval, Some(hz)).busy * Elapsed(interval, hz)
            >= 1000 * TrueBusy(order, idle, Elapsed(interval, hz))
  {
    if order != [] {
      var n := |order| - 1;
      var id, elapsed := order[n], Elapsed(interval, hz);
      assert id in order && forall x :: x in order[..n] ==> x in order;
      EstimateNeverLow(order[..n], prior, current, interval, hz, idle);
      EstimateCovers(prior[id], current[id], interval, hz, idle[id]);
      var before := Accumulate(order[..n], prior, current, interval, Some(hz)).busy;
      var m := ReadCpu(prior[id], current[id], interval, Some(hz)).millicores;
      Distribute(before, m, elapsed);
    }
  }

  lemma Distribute(a: nat, b: nat, c: nat)
    ensures (a + b) * c == a * c + b * c
  {
  }

  /**
   With the tick rate known, available usage is never below the busy time of any execution whose idle time
   is within one tick below the counters.
   */
  lemma UsageNeverLow(previous: Previous, hz: nat, all: Option<Counters>, ids: Option<seq<nat>>, now: nat,
                      freshness: nat, idle: map<nat, nat>)
    requires hz > 0 && previous.Some? && Selected(all, ids).Some? && now > previous.value.0
    requires Observed(previous, Some(hz), all, ids, now, freshness).1.status == Available
    requires Consistent(Order(Selected(all, ids).value), previous.value.1, Selected(all, ids).value, idle,
                        Elapsed(now - previous.value.0, hz))
    ensures var usage := Observed(previous, Some(hz), all, ids, now, freshness).1;
      var elapsed := Elapsed(now - previous.value.0, hz);
      && usage.busy.Some?
      && usage.busy.value * elapsed >= 1000 * TrueBusy(Order(Selected(all, ids).value), idle, elapsed)
  {
    hide Observed, Accumulate, Order, Selected, TrueBusy, Elapsed, IdleLower, ReadCpu;
    AvailableSum(previous, Some(hz), all, ids, now, freshness);
    EstimateNeverLow(Order(Selected(all, ids).value), previous.value.1, Selected(all, ids).value,
                     now - previous.value.0, hz, idle);
  }

  // ---------------------------------------------------------------- the tracker

  class CpuUsageTracker {
    var previous: Previous
    var maxIntervalTicks: Option<nat>
    const clockTickHz: Option<nat>

    ghost predicate Valid()
      reads this
    {
      clockTickHz.Some? ==> clockTickHz.value > 0
    }

    constructor (hz: Option<nat>)
      requires hz.Some? ==> hz.value > 0
      ensures Valid() && clockTickHz == hz && previous == None && maxIntervalTicks == None
    {
      previous, maxIntervalTicks, clockTickHz := None, None, hz;
    }

    method Observe(all: Option<Counters>, ids: Option<seq<nat>>, now: nat, freshness: nat) returns (usage: Usage)
      requires Valid()
      modifies this
      ensures Valid()
      ensures (previous, usage, maxIntervalTicks)
              == Observed(old(previous), clockTickHz, all, ids, now, freshness)
      ensures usage.status == Available ==>
                ids.Some? && usage.busy.Some? && usage.busy.value <= 1000 * |ids.value|
    {
      hide Accumulate, Order, Selected;
      if Observed(previous, clockTickHz, all, ids, now, freshness).1.status == Available {
        UsageWithinHardware(previous, clockTickHz, all, ids, now, freshness);
      }
      maxIntervalTicks := None;
      var selected := Selected(all, ids);
      if selected.None? {
        previous := None;
        return Usage(Unknown, None, None);
      }
      var before := previous;
      previous := Some((now, selected.value));
      if before.None? || before.value.1.Keys != selected.value.Keys {
        return Usage(Baseline, None, None);
      }
      if now < before.value.0 {
        return Usage(NoInterval, None, None);
      }
      var interval := now - before.value.0;
      if interval == 0 {
        return Usage(NoInterval, None, Some(0));
      }
      if interval > freshness {
        return Usage(Stale, None, Some(interval));
      }
      var sum := AccumulateLoop(Order(selected.value), before.value.1, selected.value, interval, clockTickHz);
      if sum.Broken? {
        return Usage(sum.why, None, Some(interval));
      }
      maxIntervalTicks := Some(sum.maxTicks);
      return Usage(Available, Some(sum.busy), Some(interval));
    }
  }

  method AccumulateLoop(order: seq<nat>, prior: Counters, current: Counters, interval: nat, hz: Option<nat>)
      returns (r: Sum)
    requires interval > 0 && (hz.Some? ==> hz.value > 0)
    requires forall id :: id in order ==> id in prior && id in current
    ensures r == Accumulate(order, prior, current, interval, hz)
  {
    hide ReadCpu;
    var busy, ticks := 0, 0;
    var i := 0;
    while i < |order|
      invariant 0 <= i <= |order|
      invariant forall id :: id in order[..i] ==> id in prior && id in current
      invariant Accumulate(order[..i], prior, current, interval, hz) == Sum(busy, ticks)
    {
      assert order[i] in order;
      assert order[..i + 1][..i] == order[..i];
      match ReadCpu(prior[order[i]], current[order[i]], interval, hz) {
        case Invalid(why) =>
          StaysBroken(order, i + 1, prior, current, interval, hz, why);
          return Broken(why);
        case Estimate(m, total) =>
          busy, ticks := busy + m, Max(ticks, total);
      }
      i := i + 1;
    }
    assert order[..i] == order;
    return Sum(busy, ticks);
  }

  lemma {:induction false} StaysBroken(order: seq<nat>, i: nat, prior: Counters, current: Counters, interval: nat,
                                       hz: Option<nat>, why: UsageStatus)
    requires interval > 0 && (hz.Some? ==> hz.value > 0)
    requires forall id :: id in order ==> id in prior && id in current
    requires i <= |order| && (forall id :: id in order[..i] ==> id in prior && id in current)
    requires Accumulate(order[..i], prior, current, interval, hz) == Broken(why)
    ensures Accumulate(order, prior, current, interval, hz) == Broken(why)
    decreases |order| - i
  {
    hide ReadCpu;
    if i < |order| {
      assert order[..i + 1][..i] == order[..i];
      assert forall id :: id in order[..i + 1] ==> id in order;
      StaysBroken(order, i + 1, prior, current, interval, hz, why);
    } else {
      assert order[..i] == order;
    }
  }
}
