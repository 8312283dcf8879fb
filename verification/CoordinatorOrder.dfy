/** Who comes first: the order of a scheduling pass and of preemption (src/coordinator.rs `schedule`). */
module CoordinatorOrder {
  import opened Options
  import opened ResourceVectors
  import opened Listings
  import opened CoordinatorCore
  import opened CoordinatorTables
  import opened CoordinatorRules
  import opened CoordinatorSchedule
  import opened CoordinatorSafety
  import opened CoordinatorHistory
  import opened CoordinatorCatalogue

  // ---------------------------------------------------------------- the two listings

  /** A higher priority, or the same priority and an earlier submission. */
  predicate Precedes(db: Database, t: Id, u: Id) {
    JobOf(db, t).priority > JobOf(db, u).priority
    || (JobOf(db, t).priority == JobOf(db, u).priority && SpecOf(db, t).sequence < SpecOf(db, u).sequence)
  }

  lemma QueueOrder(db: Database, t: Id, u: Id)
    requires Waiting(db, t) && Waiting(db, u) && SpecOf(db, t).sequence != SpecOf(db, u).sequence
    ensures StandsBefore(Queue(db), t, u) <==> Precedes(db, t, u)
  {
    var keyed := map x | x in db.core.tasks && Waiting(db, x)
      :: Row(x, -JobOf(db, x).priority, SpecOf(db, x).sequence);
    assert t in keyed && u in keyed;
    hide Waiting;
    ListByOrder(keyed, t, u);
  }

  /** In every reachable state the queue is in exactly this order. */
  lemma RunQueueOrder(cfg: Config, h: Trace, i: nat, t: Id, u: Id)
    requires Run(cfg, h) && i < |h.worlds| && t != u
    requires Waiting(h.worlds[i].db, t) && Waiting(h.worlds[i].db, u)
    ensures StandsBefore(Queue(h.worlds[i].db), t, u) <==> Precedes(h.worlds[i].db, t, u)
  {
    RunCatalogued(cfg, h, i);
    hide Run;
    DistinctSequences(h.worlds[i].db, t, u);
    QueueOrder(h.worlds[i].db, t, u);
  }

  lemma DistinctSequences(db: Database, t: Id, u: Id)
    requires Catalogued(db) && t in db.core.tasks && u in db.core.tasks && t != u
    ensures SpecOf(db, t).sequence != SpecOf(db, u).sequence
  {
  }

  /** Victims are taken the other way round: the lowest priority first, the latest submission first. */
  lemma VictimOrder(db: Database, node: Id, priority: int, a: Id, b: Id)
    requires Displaceable(db, node, priority, a) && Displaceable(db, node, priority, b)
    requires SpecOf(db, TaskOf(db.core, a)).sequence != SpecOf(db, TaskOf(db.core, b)).sequence
    ensures StandsBefore(Candidates(db, node, priority), a, b)
      <==> Precedes(db, TaskOf(db.core, b), TaskOf(db.core, a))
  {
    var keyed := map x | x in db.core.reservations && Displaceable(db, node, priority, x)
      :: Row(x, JobOf(db, TaskOf(db.core, x)).priority, -(SpecOf(db, TaskOf(db.core, x)).sequence as int));
    assert a in keyed && b in keyed;
    hide Displaceable;
    ListByOrder(keyed, a, b);
  }

  lemma RunVictimOrder(cfg: Config, h: Trace, i: nat, node: Id, priority: int, a: Id, b: Id)
    requires Run(cfg, h) && i < |h.worlds| && a != b
    requires Displaceable(h.worlds[i].db, node, priority, a) && Displaceable(h.worlds[i].db, node, priority, b)
    ensures var db := h.worlds[i].db;
      StandsBefore(Candidates(db, node, priority), a, b) <==> Precedes(db, TaskOf(db.core, b), TaskOf(db.core, a))
  {
    var db := h.worlds[i].db;
    RunHealthy(cfg, h, i);
    RunCatalogued(cfg, h, i);
    hide Run;
    DistinctTasks(db, a, b);
    DistinctSequences(db, TaskOf(db.core, a), TaskOf(db.core, b));
    VictimOrder(db, node, priority, a, b);
  }

  lemma DistinctTasks(db: Database, a: Id, b: Id)
    requires Authority(db.core) && a in db.core.reservations && b in db.core.reservations && a != b
    requires !Settled(db.core.reservations[a]) && !Settled(db.core.reservations[b])
    ensures TaskOf(db.core, a) != TaskOf(db.core, b)
    ensures TaskOf(db.core, a) in db.core.tasks && TaskOf(db.core, b) in db.core.tasks
  {
    assert Live(db.core, a) && Live(db.core, b);
    if TaskOf(db.core, a) == TaskOf(db.core, b) {
      OneLivePerTask(db.core, a, b);
    }
  }

  // ---------------------------------------------------------------- what a pass uses up

  /** Slots, capacity and pool places only shrink as a pass goes on. */
  ghost predicate Tighter(p: Pass, q: Pass) {
    && PassFrame(p.db, q.db) && q.slots <= p.slots
    && (forall d :: Amount(p.charge, d) <= Amount(q.charge, d))
    && (forall pool: Id :: |PoolWorkers(p.db, pool)| <= |PoolWorkers(q.db, pool)|)
  }

  lemma TighterReflexive(p: Pass)
    ensures Tighter(p, p)
  {
    hide PoolWorkers;
  }

  lemma TighterTransitive(a: Pass, b: Pass, c: Pass)
    requires Tighter(a, b) && Tighter(b, c)
    ensures Tighter(a, c)
  {
    hide PoolWorkers;
    PassFrameTransitive(a.db, b.db, c.db);
    hide PassFrame;
    forall pool: Id ensures |PoolWorkers(a.db, pool)| <= |PoolWorkers(c.db, pool)| {
      assert |PoolWorkers(a.db, pool)| <= |PoolWorkers(b.db, pool)| <= |PoolWorkers(c.db, pool)|;
    }
  }

  lemma ConsiderTighter(p: Pass, cfg: Config, report: NodeReport, now: nat, t: Id, a: Id)
    requires t in p.db.core.tasks && report.node in p.db.nodes && Consider(p, cfg, report, now, t, a).Some?
    ensures Tighter(p, Consider(p, cfg, report, now, t, a).value)
  {
    var v := Judge(p, report, now, t);
    var q := Consider(p, cfg, report, now, t, a).value;
    ConsiderFrame(p, cfg, report, now, t, a);
    if v.Place? {
      JudgedPlace(p, report, now, t);
    }
    EnactShape(p, cfg, report, now, t, a, v);
    hide Consider, Enact, Judge, Offer;
    forall pool: Id ensures |PoolWorkers(p.db, pool)| <= |PoolWorkers(q.db, pool)| {
      WorkersGrow(p.db, q.db, pool);
    }
  }

  lemma WorkersGrow(db: Database, db': Database, pool: Id)
    requires PassFrame(db, db')
    ensures |PoolWorkers(db, pool)| <= |PoolWorkers(db', pool)|
  {
    forall a | a in PoolWorkers(db, pool) ensures a in PoolWorkers(db', pool) {
      assert AttemptOf(db'.core, a) == AttemptOf(db.core, a);
    }
    hide PassFrame, PoolWorkers;
    Fewer(PoolWorkers(db, pool), PoolWorkers(db', pool));
  }

  /** The pass before its `k`-th task. */
  ghost predicate Reached(p: Pass, cfg: Config, report: NodeReport, now: nat, queue: seq<Id>, uuid: Id -> Id, k: nat, q: Pass)
  {
    && k <= |queue| && report.node in p.db.nodes && (forall t :: t in queue ==> t in p.db.core.tasks)
    && (forall t :: t in queue[..k] ==> t in p.db.core.tasks)
    && ConsiderAll(p, cfg, report, now, queue[..k], uuid) == Some(q)
  }

  lemma ReachedNext(p: Pass, cfg: Config, report: NodeReport, now: nat, queue: seq<Id>, uuid: Id -> Id, k: nat, q': Pass)
      returns (q: Pass)
    requires k < |queue| && Reached(p, cfg, report, now, queue, uuid, k + 1, q')
    ensures Reached(p, cfg, report, now, queue, uuid, k, q) && queue[k] in q.db.core.tasks && report.node in q.db.nodes
    ensures Consider(q, cfg, report, now, queue[k], uuid(queue[k])) == Some(q')
  {
    assert queue[..k + 1][..k] == queue[..k] && queue[k] in queue;
    q := ConsiderAll(p, cfg, report, now, queue[..k], uuid).value;
    hide Consider;
  }

  lemma {:induction false} ReachedTighter(p: Pass, cfg: Config, report: NodeReport, now: nat, queue: seq<Id>,
                                          uuid: Id -> Id, i: nat, j: nat, q: Pass, q': Pass)
    requires i <= j && Reached(p, cfg, report, now, queue, uuid, i, q) && Reached(p, cfg, report, now, queue, uuid, j, q')
    ensures Tighter(q, q')
    decreases j - i
  {
    hide Tighter, ConsiderAll, Consider, PassFrame;
    if i == j {
      TighterReflexive(q);
    } else {
      var r := ReachedNext(p, cfg, report, now, queue, uuid, j - 1, q');
      ReachedTighter(p, cfg, report, now, queue, uuid, i, j - 1, q, r);
      ConsiderTighter(r, cfg, report, now, queue[j - 1], uuid(queue[j - 1]));
      TighterTransitive(q, r, q');
    }
  }

  // ---------------------------------------------------------------- who gets an offer

  /** No launch slot, no place in the pool, or no room in the budget. */
  ghost predicate Blocked(p: Pass, report: NodeReport, request: LaunchRequest, pool: Id) {
    || p.slots == 0
    || |PoolWorkers(p.db, pool)| >= PoolRow(p.db, pool).maxWorkers
    || exists d :: InScope(request.resources, d)
                   && Amount(p.charge, d) + Amount(request.resources, d) > Amount(report.budget, d)
  }

  lemma BlockedStays(p: Pass, q: Pass, report: NodeReport, request: LaunchRequest, pool: Id)
    requires Tighter(p, q) && Blocked(p, report, request, pool)
    ensures Blocked(q, report, request, pool)
  {
    hide PoolWorkers;
    assert PoolRow(q.db, pool) == PoolRow(p.db, pool);
    hide PassFrame, PoolRow;
    if d :| InScope(request.resources, d)
            && Amount(p.charge, d) + Amount(request.resources, d) > Amount(report.budget, d) {
      assert Amount(p.charge, d) <= Amount(q.charge, d);
    }
  }

  /** A task that only capacity can keep from being placed here and now. */
  ghost predicate Placeable(db: Database, report: NodeReport, now: nat, t: Id) {
    && t in db.core.tasks && Eligible(db, report, now, t) && !Exhausted(db, t) && Held(db.core, t) == {}
    && GpuRequestAllowed(SpecOf(db, t).request, report) && SpecOf(db, t).request.controls <= report.controls
  }

  /** Placed exactly when it is placeable and nothing blocks it, unless arithmetic overflows. */
  lemma JudgedFairly(p: Pass, report: NodeReport, now: nat, t: Id)
    requires t in p.db.core.tasks && !Judge(p, report, now, t).Overflow?
    ensures Judge(p, report, now, t).Place?
      <==> Placeable(p.db, report, now, t) && !Blocked(p, report, SpecOf(p.db, t).request, JobOf(p.db, t).pool)
  {
    hide PoolWorkers, Held, Preempt, Eligible, Exhausted, GpuRequestAllowed;
    var request := SpecOf(p.db, t).request;
    var next := Add(p.charge, request.resources);
    if next.Some? {
      assert FitsRequested(next.value, report.budget, request.resources) <==>
        forall d :: InScope(request.resources, d) ==>
          Amount(p.charge, d) + Amount(request.resources, d) <= Amount(report.budget, d);
    }
    hide Add, FitsRequested;
  }

  /** The task was offered to the node by this pass. */
  ghost predicate Received(start: Database, db: Database, t: Id) {
    exists a :: a in Offers(start, db) && TaskOf(db.core, a) == t
  }

  lemma ReceivedStep(start: Database, q: Pass, cfg: Config, report: NodeReport, now: nat, t: Id, a: Id, u: Id)
    requires t in q.db.core.tasks && report.node in q.db.nodes && Consider(q, cfg, report, now, t, a).Some?
    requires PassFrame(start, q.db)
    ensures Received(start, Consider(q, cfg, report, now, t, a).value.db, u)
      <==> Received(start, q.db, u) || (u == t && Judge(q, report, now, t).Place?)
  {
    var v := Judge(q, report, now, t);
    var q' := Consider(q, cfg, report, now, t, a).value;
    ConsiderFrame(q, cfg, report, now, t, a);
    if v.Place? {
      JudgedPlace(q, report, now, t);
    }
    EnactShape(q, cfg, report, now, t, a, v);
    hide Judge, Consider, Enact;
    if v.Place? {
      PlacedOffers(start, q.db, cfg, report, now, t, a);
    }
    if Received(start, q.db, u) {
      var b :| b in Offers(start, q.db) && TaskOf(q.db.core, b) == u;
      assert b in Offers(start, q'.db) && AttemptOf(q'.db.core, b) == AttemptOf(q.db.core, b);
    }
    if Received(start, q'.db, u) {
      var b :| b in Offers(start, q'.db) && TaskOf(q'.db.core, b) == u;
      assert b in Offers(start, q.db) ==> AttemptOf(q'.db.core, b) == AttemptOf(q.db.core, b);
    }
  }

  lemma PlacedOffers(start: Database, db: Database, cfg: Config, report: NodeReport, now: nat, t: Id, a: Id)
    requires t in db.core.tasks && !Taken(db, a) && start.core.reservations.Keys <= db.core.reservations.Keys
    ensures var db' := Offer(db, cfg, report, now, t, a);
      Offers(start, db') == Offers(start, db) + {a} && TaskOf(db'.core, a) == t
  {
  }

  /** Offers made so far went to tasks whose turn has come, and were judged right then. */
  lemma {:induction false} ReceivedAt(p: Pass, cfg: Config, report: NodeReport, now: nat, queue: seq<Id>, uuid: Id -> Id,
                                      k: nat, q: Pass, u: Id) returns (m: nat, r: Pass)
    requires Reached(p, cfg, report, now, queue, uuid, k, q) && Received(p.db, q.db, u)
    ensures m < k && queue[m] == u && Reached(p, cfg, report, now, queue, uuid, m, r)
    ensures u in r.db.core.tasks && Judge(r, report, now, u).Place?
  {
    hide Received, ConsiderAll, Consider, Judge, PassFrame;
    assert k > 0 by {
      if k == 0 {
        NothingReceived(p, cfg, report, now, queue, uuid, q, u);
      }
    }
    r := ReachedNext(p, cfg, report, now, queue, uuid, k - 1, q);
    ReachedFrame(p, cfg, report, now, queue, uuid, k - 1, r);
    ReceivedStep(p.db, r, cfg, report, now, queue[k - 1], uuid(queue[k - 1]), u);
    if Received(p.db, r.db, u) {
      m, r := ReceivedAt(p, cfg, report, now, queue, uuid, k - 1, r, u);
    } else {
      m := k - 1;
    }
  }

  lemma NothingReceived(p: Pass, cfg: Config, report: NodeReport, now: nat, queue: seq<Id>, uuid: Id -> Id, q: Pass, u: Id)
    requires Reached(p, cfg, report, now, queue, uuid, 0, q)
    ensures !Received(p.db, q.db, u)
  {
    assert queue[..0] == [];
  }

  lemma ReachedFrame(p: Pass, cfg: Config, report: NodeReport, now: nat, queue: seq<Id>, uuid: Id -> Id, k: nat, q: Pass)
    requires Reached(p, cfg, report, now, queue, uuid, k, q)
    ensures PassFrame(p.db, q.db)
  {
  }

  lemma {:induction false} ReceivedStays(p: Pass, cfg: Config, report: NodeReport, now: nat, queue: seq<Id>,
                                         uuid: Id -> Id, i: nat, j: nat, q: Pass, q': Pass, t: Id)
    requires i <= j && Reached(p, cfg, report, now, queue, uuid, i, q) && Reached(p, cfg, report, now, queue, uuid, j, q')
    requires Received(p.db, q.db, t)
    ensures Received(p.db, q'.db, t)
    decreases j - i
  {
    hide Received, ConsiderAll, Consider, Judge, PassFrame;
    if i < j {
      var r := ReachedNext(p, cfg, report, now, queue, uuid, j - 1, q');
      ReceivedStays(p, cfg, report, now, queue, uuid, i, j - 1, q, r, t);
      ReachedFrame(p, cfg, report, now, queue, uuid, j - 1, r);
      ReceivedStep(p.db, r, cfg, report, now, queue[j - 1], uuid(queue[j - 1]), t);
    }
  }

  /** Before its turn a task looks as it did when the pass began. */
  lemma TurnUnchanged(p: Pass, cfg: Config, report: NodeReport, now: nat, queue: seq<Id>, uuid: Id -> Id, k: nat, q: Pass)
    requires Reached(p, cfg, report, now, queue, uuid, k, q) && k < |queue| && Distinct(queue)
    ensures queue[k] in q.db.core.tasks
    ensures Placeable(q.db, report, now, queue[k]) <==> Placeable(p.db, report, now, queue[k])
    ensures SpecOf(q.db, queue[k]) == SpecOf(p.db, queue[k]) && JobOf(q.db, queue[k]) == JobOf(p.db, queue[k])
  {
    var t := queue[k];
    assert t in queue && t !in queue[..k];
    PassLeavesRest(p, cfg, report, now, queue[..k], uuid, t);
    ReachedFrame(p, cfg, report, now, queue, uuid, k, q);
    if Received(p.db, q.db, t) {
      var m, r := ReceivedAt(p, cfg, report, now, queue, uuid, k, q, t);
    }
    hide ConsiderAll;
    SameHeldBefore(p.db, q.db, t);
    hide Reached, Held;
    SamePlaceable(p.db, q.db, report, now, t);
  }

  lemma SameHeldBefore(start: Database, db: Database, t: Id)
    requires PassFrame(start, db) && !Received(start, db, t)
    ensures Held(db.core, t) == Held(start.core, t)
  {
    forall a ensures a in Held(db.core, t) <==> a in Held(start.core, t) {
      if a in db.core.reservations && a !in start.core.reservations {
        assert a in Offers(start, db);
      }
      assert a in start.core.reservations ==> AttemptOf(db.core, a) == AttemptOf(start.core, a);
    }
  }

  lemma SamePlaceable(start: Database, db: Database, report: NodeReport, now: nat, t: Id)
    requires PassFrame(start, db) && t in start.core.tasks && t in db.core.tasks
    requires db.core.tasks[t] == start.core.tasks[t] && Held(db.core, t) == Held(start.core, t)
    ensures Placeable(db, report, now, t) <==> Placeable(start, report, now, t)
  {
    hide Held, GpuRequestAllowed;
  }

  /** At its turn a placeable task is either offered or blocked; the others are passed over. */
  lemma AtTurn(p: Pass, cfg: Config, report: NodeReport, now: nat, queue: seq<Id>, uuid: Id -> Id, k: nat, q: Pass, last: Pass)
    requires k < |queue| && Distinct(queue) && Reached(p, cfg, report, now, queue, uuid, k, q)
    requires Reached(p, cfg, report, now, queue, uuid, |queue|, last)
    ensures Received(p.db, last.db, queue[k]) <==>
      Placeable(p.db, report, now, queue[k])
      && !Blocked(q, report, SpecOf(p.db, queue[k]).request, JobOf(p.db, queue[k]).pool)
  {
    var t := queue[k];
    hide ConsiderAll, Received, Placeable, Blocked, PassFrame, Consider, Judge;
    TurnUnchanged(p, cfg, report, now, queue, uuid, k, q);
    var next := ReachedTurn(p, cfg, report, now, queue, uuid, k, q, last);
    NotOverflow(q, cfg, report, now, t, uuid(t));
    JudgedFairly(q, report, now, t);
    ReachedFrame(p, cfg, report, now, queue, uuid, k, q);
    ReceivedStep(p.db, q, cfg, report, now, t, uuid(t), t);
    if Received(p.db, next.db, t) {
      ReceivedStays(p, cfg, report, now, queue, uuid, k + 1, |queue|, next, last, t);
    }
    if Received(p.db, last.db, t) {
      var m, r := ReceivedAt(p, cfg, report, now, queue, uuid, |queue|, last, t);
      SameTurn(queue, m, k);
      ReachedOnce(p, cfg, report, now, queue, uuid, k, q, r);
    }
  }

  lemma SameTurn(queue: seq<Id>, m: nat, k: nat)
    requires Distinct(queue) && m < |queue| && k < |queue| && queue[m] == queue[k]
    ensures m == k
  {
  }

  lemma ReachedOnce(p: Pass, cfg: Config, report: NodeReport, now: nat, queue: seq<Id>, uuid: Id -> Id, k: nat, q: Pass, r: Pass)
    requires Reached(p, cfg, report, now, queue, uuid, k, q) && Reached(p, cfg, report, now, queue, uuid, k, r)
    ensures q == r
  {
  }

  lemma NotOverflow(q: Pass, cfg: Config, report: NodeReport, now: nat, t: Id, a: Id)
    requires t in q.db.core.tasks && Consider(q, cfg, report, now, t, a).Some?
    ensures !Judge(q, report, now, t).Overflow?
  {
  }

  /** The step at position `k` of a pass that ends. */
  lemma {:induction false} ReachedTurn(p: Pass, cfg: Config, report: NodeReport, now: nat, queue: seq<Id>, uuid: Id -> Id,
                                       k: nat, q: Pass, last: Pass) returns (next: Pass)
    requires k < |queue| && Reached(p, cfg, report, now, queue, uuid, k, q)
    requires Reached(p, cfg, report, now, queue, uuid, |queue|, last)
    ensures queue[k] in q.db.core.tasks && report.node in q.db.nodes
    ensures Reached(p, cfg, report, now, queue, uuid, k + 1, next)
    ensures Consider(q, cfg, report, now, queue[k], uuid(queue[k])) == Some(next)
  {
    hide ConsiderAll, Consider;
    next := ReachedDown(p, cfg, report, now, queue, uuid, |queue|, last, k + 1);
    var r := ReachedNext(p, cfg, report, now, queue, uuid, k, next);
    ReachedOnce(p, cfg, report, now, queue, uuid, k, q, r);
  }

  lemma {:induction false} ReachedDown(p: Pass, cfg: Config, report: NodeReport, now: nat, queue: seq<Id>, uuid: Id -> Id,
                                       n: nat, last: Pass, k: nat) returns (q: Pass)
    requires k <= n && Reached(p, cfg, report, now, queue, uuid, n, last)
    ensures Reached(p, cfg, report, now, queue, uuid, k, q)
    decreases n - k
  {
    hide ConsiderAll, Consider;
    if k == n {
      q := last;
    } else {
      var r := ReachedNext(p, cfg, report, now, queue, uuid, n - 1, last);
      q := ReachedDown(p, cfg, report, now, queue, uuid, n - 1, r, k);
    }
  }

  // ---------------------------------------------------------------- a whole pass

  /** The pass a heartbeat runs, from its first task to its last. */
  lemma PassReached(db: Database, cfg: Config, report: NodeReport, now: nat, uuid: Id -> Id) returns (p: Pass, last: Pass)
    requires report.node in db.nodes && Schedule(db, cfg, report, now, uuid).Some?
    requires !db.nodes[report.node].drain && ReplayNodeCanAdmit(db, report.node)
    ensures NodeCharge(db, report.node).Some? && p == Pass(db, NodeCharge(db, report.node).value, FreeSlots(db, report))
    ensures Reached(p, cfg, report, now, Queue(db), uuid, |Queue(db)|, last)
    ensures Schedule(db, cfg, report, now, uuid).value == last.db
  {
    hide ConsiderAll, NodeCharge, FreeSlots, ReplayNodeCanAdmit;
    var queue := Queue(db);
    assert queue[..|queue|] == queue;
    assert forall t :: t in queue ==> t in db.core.tasks;
    hide Queue;
    p := Pass(db, NodeCharge(db, report.node).value, FreeSlots(db, report));
    last := ConsiderAll(p, cfg, report, now, queue, uuid).value;
  }

  lemma IdlePass(db: Database, cfg: Config, report: NodeReport, now: nat, uuid: Id -> Id, t: Id)
    requires report.node in db.nodes && Schedule(db, cfg, report, now, uuid).Some?
    requires db.nodes[report.node].drain || !ReplayNodeCanAdmit(db, report.node)
    ensures !Received(db, Schedule(db, cfg, report, now, uuid).value, t)
  {
  }

  lemma Placing(db: Database, t: Id) returns (k: nat)
    requires Waiting(db, t)
    ensures k < |Queue(db)| && Queue(db)[k] == t
  {
    assert t in Queue(db);
    k :| 0 <= k < |Queue(db)| && Queue(db)[k] == t;
  }

  /** What is still free once the pass is over. */
  ghost predicate BlockedAfter(db: Database, db': Database, report: NodeReport, t: Id) {
    || |Offers(db, db')| >= FreeSlots(db, report)
    || |PoolWorkers(db', JobOf(db, t).pool)| >= PoolRow(db, JobOf(db, t).pool).maxWorkers
    || exists d :: InScope(SpecOf(db, t).request.resources, d)
                   && TotalIn(NodeRows(db', report.node), d) + Amount(SpecOf(db, t).request.resources, d)
                      > Amount(report.budget, d)
  }

  /**
   A pass leaves nothing undone: a waiting task that could be placed but for capacity has been offered, or it does
   not fit beside what the pass leaves behind.
   */
  lemma NothingLeftUndone(db: Database, cfg: Config, report: NodeReport, now: nat, uuid: Id -> Id, t: Id)
    requires report.node in db.nodes && Schedule(db, cfg, report, now, uuid).Some?
    requires !db.nodes[report.node].drain && ReplayNodeCanAdmit(db, report.node)
    requires Waiting(db, t) && Placeable(db, report, now, t)
    ensures var db' := Schedule(db, cfg, report, now, uuid).value;
      Received(db, db', t) || BlockedAfter(db, db', report, t)
  {
    var queue := Queue(db);
    var p, last := PassReached(db, cfg, report, now, uuid);
    var k := Placing(db, t);
    hide Schedule, Queue, Waiting;
    var q := ReachedDown(p, cfg, report, now, queue, uuid, |queue|, last, k);
    AtTurn(p, cfg, report, now, queue, uuid, k, q, last);
    if !Received(db, last.db, t) {
      ReachedTighter(p, cfg, report, now, queue, uuid, k, |queue|, q, last);
      BlockedStays(q, last, report, SpecOf(db, t).request, JobOf(db, t).pool);
      LastPass(db, cfg, report, now, uuid, p, last, t);
    }
  }

  lemma LastPass(db: Database, cfg: Config, report: NodeReport, now: nat, uuid: Id -> Id, p: Pass, last: Pass, t: Id)
    requires NodeCharge(db, report.node).Some? && p == Pass(db, NodeCharge(db, report.node).value, FreeSlots(db, report))
    requires Reached(p, cfg, report, now, Queue(db), uuid, |Queue(db)|, last)
    requires Blocked(last, report, SpecOf(db, t).request, JobOf(db, t).pool)
    ensures BlockedAfter(db, last.db, report, t)
  {
    hide Blocked, BlockedAfter, Queue, NodeCharge, PassInvariant, FreeSlots, ConsiderAll;
    LastInvariant(db, cfg, report, now, uuid, p, last);
    StillBlocked(db, FreeSlots(db, report), report, last, t);
  }

  lemma LastInvariant(db: Database, cfg: Config, report: NodeReport, now: nat, uuid: Id -> Id, p: Pass, last: Pass)
    requires NodeCharge(db, report.node).Some? && p == Pass(db, NodeCharge(db, report.node).value, FreeSlots(db, report))
    requires Reached(p, cfg, report, now, Queue(db), uuid, |Queue(db)|, last)
    ensures PassInvariant(db, FreeSlots(db, report), report, last)
  {
    var queue := Queue(db);
    assert queue[..|queue|] == queue;
    StartInvariant(db, report, p.charge);
    hide Queue, ConsiderAll, FreeSlots, NodeCharge, PassInvariant;
    PassKeeps(db, FreeSlots(db, report), p, cfg, report, now, queue, uuid);
  }

  lemma StartInvariant(db: Database, report: NodeReport, charge: Resources)
    requires NodeCharge(db, report.node) == Some(charge)
    ensures PassInvariant(db, FreeSlots(db, report), report, Pass(db, charge, FreeSlots(db, report)))
  {
    NodeChargeExact(db, report.node);
    hide NodeCharge, FreeSlots, NodeRows;
    assert Offers(db, db) == {};
  }

  lemma StillBlocked(db: Database, slots: nat, report: NodeReport, last: Pass, t: Id)
    requires PassInvariant(db, slots, report, last) && slots == FreeSlots(db, report)
    requires Blocked(last, report, SpecOf(db, t).request, JobOf(db, t).pool)
    ensures BlockedAfter(db, last.db, report, t)
  {
    hide OffersFit, OffersWithinPools, FreeSlots, PoolWorkers, NodeRows;
    if d :| InScope(SpecOf(db, t).request.resources, d)
            && Amount(last.charge, d) + Amount(SpecOf(db, t).request.resources, d) > Amount(report.budget, d) {
      assert Amount(last.charge, d) == TotalIn(NodeRows(last.db, report.node), d);
    }
  }

  /**
   First come, first served: of two waiting tasks with the same request and pool, the one that precedes is offered
   whenever the other one is, unless it still holds an unreleased reservation; then it is passed over.
   */
  lemma EarlierFirst(db: Database, cfg: Config, report: NodeReport, now: nat, uuid: Id -> Id, t: Id, u: Id)
    requires report.node in db.nodes && Schedule(db, cfg, report, now, uuid).Some?
    requires Rivals(db, report, now, t, u)
    ensures var db' := Schedule(db, cfg, report, now, uuid).value;
      Received(db, db', u) ==> (Received(db, db', t) <==> Held(db.core, t) == {})
  {
    if db.nodes[report.node].drain || !ReplayNodeCanAdmit(db, report.node) {
      IdlePass(db, cfg, report, now, uuid, u);
    } else {
      var p, last := PassReached(db, cfg, report, now, uuid);
      var i, j := Positions(db, t, u);
      hide Schedule, Queue;
      ServedInOrder(p, cfg, report, now, Queue(db), uuid, i, j, last);
      hide Eligible, Exhausted, GpuRequestAllowed, Held, Received;
    }
  }

  lemma Positions(db: Database, t: Id, u: Id) returns (i: nat, j: nat)
    requires Waiting(db, t) && Waiting(db, u) && Precedes(db, t, u)
    ensures i < j < |Queue(db)| && Queue(db)[i] == t && Queue(db)[j] == u
  {
    var keyed := map x | x in db.core.tasks && Waiting(db, x)
      :: Row(x, -JobOf(db, x).priority, SpecOf(db, x).sequence);
    assert t in keyed && u in keyed;
    hide Waiting;
    ListByOrder(keyed, t, u);
    i, j :| 0 <= i < j < |Queue(db)| && Queue(db)[i] == t && Queue(db)[j] == u;
  }

  lemma ServedInOrder(p: Pass, cfg: Config, report: NodeReport, now: nat, queue: seq<Id>, uuid: Id -> Id, i: nat, j: nat,
                      last: Pass)
    requires i < j < |queue| && Distinct(queue) && Reached(p, cfg, report, now, queue, uuid, |queue|, last)
    requires SpecOf(p.db, queue[i]).request == SpecOf(p.db, queue[j]).request
    requires JobOf(p.db, queue[i]).pool == JobOf(p.db, queue[j]).pool
    ensures Received(p.db, last.db, queue[i]) ==> Placeable(p.db, report, now, queue[i])
    ensures Received(p.db, last.db, queue[j]) ==> Placeable(p.db, report, now, queue[j])
    ensures Received(p.db, last.db, queue[j]) && Placeable(p.db, report, now, queue[i]) ==>
              Received(p.db, last.db, queue[i])
  {
    hide Placeable, Received, Blocked, ConsiderAll;
    var q := ReachedDown(p, cfg, report, now, queue, uuid, |queue|, last, i);
    var r := ReachedDown(p, cfg, report, now, queue, uuid, |queue|, last, j);
    AtTurn(p, cfg, report, now, queue, uuid, i, q, last);
    AtTurn(p, cfg, report, now, queue, uuid, j, r, last);
    ReachedTighter(p, cfg, report, now, queue, uuid, i, j, q, r);
    if Blocked(q, report, SpecOf(p.db, queue[i]).request, JobOf(p.db, queue[i]).pool) {
      BlockedStays(q, r, report, SpecOf(p.db, queue[i]).request, JobOf(p.db, queue[i]).pool);
    }
  }

  /** Two waiting tasks that compete for the same thing, `t` with the better claim. */
  ghost predicate Rivals(db: Database, report: NodeReport, now: nat, t: Id, u: Id) {
    && Waiting(db, t) && Waiting(db, u) && Precedes(db, t, u) && Eligible(db, report, now, t) && !Exhausted(db, t)
    && SpecOf(db, t).request == SpecOf(db, u).request && JobOf(db, t).pool == JobOf(db, u).pool
  }

  /** The law over a pass, for every pair of tasks. */
  ghost predicate ServedInTurn(db: Database, db': Database, report: NodeReport, now: nat) {
    forall t, u :: Rivals(db, report, now, t, u) && Received(db, db', u) ==>
      (Received(db, db', t) <==> Held(db.core, t) == {})
  }

  lemma PassInTurn(db: Database, cfg: Config, report: NodeReport, now: nat, uuid: Id -> Id)
    requires report.node in db.nodes && Schedule(db, cfg, report, now, uuid).Some?
    ensures ServedInTurn(db, Schedule(db, cfg, report, now, uuid).value, report, now)
  {
    var db' := Schedule(db, cfg, report, now, uuid).value;
    hide Schedule, Received, Held;
    forall t, u | Rivals(db, report, now, t, u) && Received(db, db', u)
      ensures Received(db, db', t) <==> Held(db.core, t) == {}
    {
      EarlierFirst(db, cfg, report, now, uuid, t, u);
    }
  }
}
