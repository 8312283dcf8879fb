/** The coordinator as it runs: one object over the committed tables, handlers that loop and update in place. */
module CoordinatorService {
  import opened Options
  import opened ResourceVectors
  import opened Listings
  import opened CoordinatorCore
  import opened CoordinatorTables
  import opened CoordinatorRules
  import opened CoordinatorSchedule
  import opened CoordinatorSafety
  import opened CoordinatorExpiry
  import opened CoordinatorReports
  import opened CoordinatorOrder
  import opened CoordinatorRuns

  /** `node_charge`: exactly what the node's unreleased rows hold, in every dimension. */
  method ChargeNode(db: Database, node: Id) returns (charge: Option<Resources>)
    ensures charge == NodeCharge(db, node)
    ensures charge.Some? ==> ChargeExact(db, node, charge.value)
  {
    charge := AddLoopAll(ZERO, NodeList(db, node));
    if charge.Some? {
      NodeChargeExact(db, node);
    }
  }

  /** The selection loop of `request_preemption`. */
  method SelectLoop(db: Database, w: Want, cands: seq<Id>, charge: Resources, free: bool)
      returns (victims: Option<seq<Id>>)
    ensures victims == SelectFrom(db, w, cands, 0, charge, [], free)
  {
    hide Add, Subtract, FitsRequested, PoolWorkers, SelectedIn, RowCharge;
    var projected, selected, frees := charge, [], free;
    var i := 0;
    while i < |cands|
      invariant 0 <= i <= |cands|
      invariant SelectFrom(db, w, cands, i, projected, selected, frees) == SelectFrom(db, w, cands, 0, charge, [], free)
    {
      var a := cands[i];
      if a in db.core.reservations {
        var pool := PoolOf(db, a);
        if Monus(|PoolWorkers(db, pool)|, SelectedIn(db, selected, pool)) > PoolRow(db, pool).minWorkers {
          projected := SubtractLoop(projected, RowCharge(db.core.reservations[a]));
          frees := frees || pool == w.pool;
          selected := selected + [a];
          var future := AddLoop(projected, w.request.resources);
          if future.None? {
            return None;
          }
          if frees && FitsRequested(future.value, w.report.budget, w.request.resources) {
            return Some(selected);
          }
        }
      }
      i := i + 1;
    }
    return Some([]);
  }

  /** `request_preemption`: greedy selection until the request fits and its pool has a slot, or nothing. */
  method SelectVictims(db: Database, w: Want, t: Id, charge: Resources) returns (victims: Option<seq<Id>>)
    requires t in db.core.tasks
    ensures victims == Preempt(db, w, t, charge)
  {
    if !GpuRequestAllowed(w.request, w.report)
       || !FitsRequested(w.request.resources, w.report.budget, w.request.resources) {
      return Some([]);
    }
    victims := SelectLoop(db, w, Candidates(db, w.report.node, JobOf(db, t).priority), charge,
                          |PoolWorkers(db, w.pool)| < PoolRow(db, w.pool).maxWorkers);
  }

  /** The three writes of one row that ran out. */
  method ExpireOne(before: Core, a: Id) returns (core: Core)
    ensures core == ExpireRow(before, a, 3)
  {
    core := SetPhase(before, a, Uncertain);
    core := Fence(core, {a});
    var marked := MarkUncertain(core, TaskOf(core, a), AttemptOf(core, a).generation);
    if marked.Some? {
      core := marked.value;
    }
  }

  /** Opportunistic rows whose deadline has passed, in order: exactly the attempts that ran out are given up. */
  method Expire(db: Database, now: nat) returns (core: Core)
    ensures core == ExpireRows(db.core, DueOrder(db, now))
    ensures Authority(db.core) ==> ClockMoved(db, db.(clock := now, core := core), now)
  {
    hide ClockMoved, Authority, ExpireRow;
    var due := DueOrder(db, now);
    hide DueOrder;
    core := db.core;
    var i := 0;
    while i < |due|
      invariant 0 <= i <= |due|
      invariant core == ExpireRows(db.core, due[..i])
    {
      assert due[..i + 1][..i] == due[..i];
      core := ExpireOne(core, due[i]);
      i := i + 1;
    }
    assert due[..i] == due;
    ExpiryExact(db, now, core);
  }

  /** The merge loop of `heartbeat`; `None` rolls the transaction back. */
  method MergeReports(start: Merge, node: Id, reports: seq<AllocationReport>, newer: bool) returns (r: Option<Merge>)
    ensures r == MergeAll(start, node, reports, newer)
  {
    var m := start;
    var i := 0;
    while i < |reports|
      invariant 0 <= i <= |reports|
      invariant MergeAll(start, node, reports[..i], newer) == Some(m)
    {
      assert reports[..i + 1][..i] == reports[..i];
      var next := MergeOne(m, node, reports[i], newer);
      if next.None? {
        MergeStops(start, node, reports, newer, i + 1);
        return None;
      }
      m := next.value;
      i := i + 1;
    }
    assert reports[..i] == reports;
    return Some(m);
  }

  lemma {:induction false} MergeStops(m: Merge, node: Id, reports: seq<AllocationReport>, newer: bool, i: nat)
    requires i <= |reports| && MergeAll(m, node, reports[..i], newer).None?
    ensures MergeAll(m, node, reports, newer).None?
    decreases |reports| - i
  {
    if i < |reports| {
      assert reports[..i + 1][..i] == reports[..i];
      MergeStops(m, node, reports, newer, i + 1);
    } else {
      assert reports[..i] == reports;
    }
  }

  /** The loop that fences what the owning node left out of its report. */
  method FenceAbsent(db: Database, missing: set<Id>) returns (core: Core)
    requires missing <= db.core.reservations.Keys
    ensures core == FenceMissing(db.core, missing)
  {
    core := db.core;
    var rest := missing;
    while rest != {}
      invariant rest <= missing
      invariant core == FenceMissing(db.core, missing - rest)
      decreases rest
    {
      var a :| a in rest;
      var row := core.reservations[a];
      core := core.(reservations := core.reservations[a := row.(phase := Uncertain, observed := None)],
                    fences := core.fences + {a});
      assert core == FenceMissing(db.core, missing - (rest - {a}));
      rest := rest - {a};
    }
    assert missing - rest == missing;
  }

  /** One iteration of `schedule`: skip, give up, ask for victims, or offer. */
  method ConsiderTask(p: Pass, cfg: Config, report: NodeReport, now: nat, t: Id, a: Id) returns (r: Option<Pass>)
    requires t in p.db.core.tasks
    ensures r == Consider(p, cfg, report, now, t, a)
  {
    hide Add, FitsRequested, PoolWorkers, Preempt, Offer, Held;
    var request := SpecOf(p.db, t).request;
    var pool := JobOf(p.db, t).pool;
    if !Eligible(p.db, report, now, t) {
      return Some(p);
    }
    if Exhausted(p.db, t) {
      return Some(p.(db := p.db.(core := SetStatus(p.db.core, t, NeedsReconciliation))));
    }
    if !GpuRequestAllowed(request, report) || !(request.controls <= report.controls) || Held(p.db.core, t) != {} {
      return Some(p);
    }
    var next := AddLoop(p.charge, request.resources);
    if next.None? {
      return None;
    }
    if p.slots == 0 || |PoolWorkers(p.db, pool)| >= PoolRow(p.db, pool).maxWorkers
       || !FitsRequested(next.value, report.budget, request.resources) {
      var victims := SelectVictims(p.db, Want(report, request, pool), t, p.charge);
      if victims.None? {
        return None;
      }
      return Some(p.(db := p.db.(drains := p.db.drains + (set x | x in victims.value))));
    }
    if Taken(p.db, a) {
      return None;
    }
    return Some(Pass(Offer(p.db, cfg, report, now, t, a), next.value, p.slots - 1));
  }

  lemma {:induction false} PassStops(p: Pass, cfg: Config, report: NodeReport, now: nat, queue: seq<Id>,
                                     uuid: Id -> Id, i: nat)
    requires report.node in p.db.nodes && (forall t :: t in queue ==> t in p.db.core.tasks)
    requires i <= |queue| && ConsiderAll(p, cfg, report, now, queue[..i], uuid).None?
    ensures ConsiderAll(p, cfg, report, now, queue, uuid).None?
    decreases |queue| - i
  {
    if i < |queue| {
      assert queue[..i + 1][..i] == queue[..i];
      PassStops(p, cfg, report, now, queue, uuid, i + 1);
    } else {
      assert queue[..i] == queue;
    }
  }

  method ConsiderQueue(start: Pass, cfg: Config, report: NodeReport, now: nat, queue: seq<Id>, uuid: Id -> Id)
      returns (r: Option<Pass>)
    requires report.node in start.db.nodes && forall t :: t in queue ==> t in start.db.core.tasks
    ensures r == ConsiderAll(start, cfg, report, now, queue, uuid)
  {
    var p := start;
    var i := 0;
    while i < |queue|
      invariant 0 <= i <= |queue|
      invariant ConsiderAll(start, cfg, report, now, queue[..i], uuid) == Some(p)
    {
      assert queue[..i + 1][..i] == queue[..i];
      assert queue[i] in queue;
      var next := ConsiderTask(p, cfg, report, now, queue[i], uuid(queue[i]));
      if next.None? {
        PassStops(start, cfg, report, now, queue, uuid, i + 1);
        return None;
      }
      p := next.value;
      i := i + 1;
    }
    assert queue[..i] == queue;
    return Some(p);
  }

  class Coordinator {
    const cfg: Config
    var db: Database

    /**
     `open`: a new epoch over the stored tables. Whatever was unreleased needs reconciliation, nothing is
     fenced, drains already begun are remembered, and no lease is granted to anybody until a node reports.
     */
    constructor (cfg: Config, stored: Database)
      ensures this.cfg == cfg && db == Restart(stored)
      ensures db.epoch == stored.epoch + 1 && db.core.fences == stored.core.fences && db.work == stored.work
      ensures db.core.tasks == stored.core.tasks && db.core.assignments == stored.core.assignments
      ensures Unreleased(db.core) == Unreleased(stored.core)
      ensures forall a :: a in Unreleased(db.core) ==> db.core.reservations[a].phase == Uncertain
      ensures forall a :: a in stored.core.reservations && stored.core.reservations[a].phase == Draining ==> a in db.drains
      ensures forall a, generation, previous, now :: Grant(db, cfg, a, generation, previous, now).None?
      ensures Sound(cfg, stored.core, stored.work) ==> Progress(cfg, stored, db)
    {
      this.cfg := cfg;
      this.db := Restart(stored);
      new;
      if Sound(cfg, stored.core, stored.work) {
        RestartRoutine(stored.core);
        RoutineProgress(cfg, stored, db);
      }
    }

    /** `advance_clock`: refuses a clock behind the durable watermark. */
    method AdvanceTo(now: nat) returns (ok: bool)
      modifies this`db
      ensures ok == (now >= old(db.clock))
      ensures db == if ok then AdvanceClock(old(db), now) else old(db)
      ensures ok && Authority(old(db.core)) ==> ClockMoved(old(db), db, now)
    {
      if now < db.clock {
        return false;
      }
      var core := Expire(db, now);
      db := db.(clock := now, core := core);
      return true;
    }

    /** `schedule`: one transaction; an error leaves the tables as they were. */
    method RunPass(report: NodeReport, now: nat, uuid: Id -> Id) returns (ok: bool)
      requires report.node in db.nodes
      modifies this`db
      ensures Schedule(old(db), cfg, report, now, uuid) == if ok then Some(db) else None
      ensures !ok ==> db == old(db)
      ensures ok ==> ServedInTurn(old(db), db, report, now)
      ensures ok ==> |Offers(old(db), db)| <= FreeSlots(old(db), report)
      ensures ok ==> OffersFit(old(db), db, report) && OffersWithinPools(old(db), db)
    {
      if Schedule(db, cfg, report, now, uuid).Some? {
        PassInTurn(db, cfg, report, now, uuid);
        ScheduleFits(db, cfg, report, now, uuid);
      }
      hide ServedInTurn, Offers, OffersFit, OffersWithinPools;
      if db.nodes[report.node].drain || !ReplayNodeCanAdmit(db, report.node) {
        return true;
      }
      var charge := ChargeNode(db, report.node);
      if charge.None? {
        return false;
      }
      var start := Pass(db, charge.value, FreeSlots(db, report));
      var pass := ConsiderQueue(start, cfg, report, now, Queue(db), uuid);
      if pass.None? {
        return false;
      }
      db := pass.value.db;
      return true;
    }

    /** The heartbeat transaction; returns whether everything reported was reconciled. */
    method Reconcile(report: NodeReport, now: nat) returns (clean: Option<bool>)
      modifies this`db
      ensures MergeReport(old(db), cfg, report, now) == if clean.Some? then Some(Heard(db, clean.value)) else None
      ensures clean.None? ==> db == old(db)
      ensures clean.Some? && Authority(old(db.core)) ==>
        ReportTaken(old(db), db, report) && (clean.value <==> Reconciled(old(db), db, report))
    {
      if MergeReport(db, cfg, report, now).Some? && Authority(db.core) {
        ReportExact(db, cfg, report, now);
      }
      hide ReportTaken, Reconciled;
      if !ReportAdmissible(db, cfg, report, now) {
        return None;
      }
      var merged := MergeReports(Merge(PutNode(db, report, now), {}, {}), report.node, report.allocations,
                                 Newer(db, report));
      if merged.None? {
        return None;
      }
      var tx := merged.value.db;
      var missing := Missing(tx, report.node, report.node in db.sessions, merged.value.seen);
      var core := FenceAbsent(tx, missing);
      tx := MarkReady(tx.(core := core), report.node);
      db := tx;
      return Some(merged.value.flagged == {} && missing == {} && forall k :: k in tx.unrecognized ==> k.0 != report.node);
    }

    /** Late releases are recorded one transaction at a time, up to the first error. */
    method RecordReleases(reports: seq<AllocationReport>, now: nat) returns (ok: bool)
      modifies this`db
      ensures (db, ok) == LateReleases(old(db), cfg, reports, now)
    {
      ok := true;
      var i := 0;
      while i < |reports|
        invariant 0 <= i <= |reports|
        invariant (db, ok) == LateReleases(old(db), cfg, reports[..i], now)
      {
        assert reports[..i + 1][..i] == reports[..i];
        if ok && LateRelease(db, reports[i]) {
          var next := RecordFailure(db, cfg, reports[i].assignment, reports[i].generation, Yielded, now);
          if next.Some? {
            db := next.value;
          } else {
            ok := false;
          }
        }
        i := i + 1;
      }
      assert reports[..i] == reports;
    }

    method ReceiveHeartbeat(report: NodeReport, now: nat, uuid: Id -> Id) returns (ok: bool)
      modifies this`db
      ensures (db, ok) == Beat(old(db), cfg, report, now, uuid)
    {
      var clean := Reconcile(report, now);
      if clean.None? {
        return false;
      }
      ok := RecordReleases(report.allocations, now);
      if ok && report.node in db.nodes && MaySchedule(cfg, report, now, clean.value) {
        ok := RunPass(report, now, uuid);
      }
    }

    /** The request itself, once the session and the clock are settled. */
    method Serve(p: Principal, r: Request, now: nat, o: Oracle) returns (reply: Reply)
      modifies this`db
      ensures (db, reply) == Execute(old(db), cfg, p, r, now, o)
    {
      if r.Heartbeat? && p == Node(r.report.node) {
        hide Beat;
        var ok := ReceiveHeartbeat(r.report, now, o.uuid);
        return if ok then Done else Refused;
      }
      hide Execute;
      var result := Execute(db, cfg, p, r, now, o);
      db := result.0;
      return result.1;
    }

    /** `handle_at`: session first, then the clock, then the request. */
    method HandleAt(p: Principal, r: Request, now: nat, o: Oracle) returns (reply: Reply)
      modifies this`db
      ensures (db, reply) == Handle(old(db), cfg, p, r, now, o)
      ensures Sound(cfg, old(db.core), old(db.work)) ==> Progress(cfg, old(db), db)
      ensures Sound(cfg, old(db.core), old(db.work)) && reply.Leased? ==> LeaseStands(cfg, db, reply.lease, now)
    {
      hide Execute, AdvanceClock;
      if Sound(cfg, db.core, db.work) {
        HandleAdvances(cfg, db, p, r, now, o);
      }
      var inner := ValidateSession(db, p, r);
      if inner.None? {
        return Refused;
      }
      var ok := AdvanceTo(now);
      if !ok {
        return Refused;
      }
      reply := Serve(p, inner.value, now, o);
    }
  }
}
