/**
 A history in which preemption asks an over-full pool for too little. Pool 1 runs task 3 on node 2 (attempt 11)
 and task 4 on node 1 (attempt 12); its maximum is then lowered to one worker, and task 6 arrives.
 */
module CoordinatorOverfull {
  import opened Options
  import opened ResourceVectors
  import opened Listings
  import opened CoordinatorCore
  import opened CoordinatorTables
  import opened CoordinatorRules
  import opened CoordinatorSchedule
  import opened CoordinatorRuns
  import opened CoordinatorHistory
  import opened CoordinatorWitness

  const WIDE := Pool(Opportunistic, {1, 2}, 0, 2)
  const NARROW := Pool(Opportunistic, {1, 2}, 0, 1)

  function JobFor(task: Id, priority: int): Job {
    Job(1, priority, false, map[task := REQUEST])
  }

  function Idle(node: Id): NodeReport {
    NodeReport(node, 4, 0, UNIT, true, false, false, 1, {}, [])
  }

  function NodeAt(node: Id): NodeRow {
    NodeRow(Idle(node), 0, false)
  }

  const QUEUED := Task(true, Queued, 0, None, None)

  function Placed(a: Id): Task {
    Task(true, Assigned, 1, Some(a), None)
  }

  function On(node: Id): Reservation {
    Reservation(node, Offered, UNIT, None, 0, 10, 0)
  }

  /** The tables with one more job of a single task. */
  function WithJob(db: Database, id: Id, task: Id, priority: int, sequence: nat): Database {
    db.(jobs := db.jobs[id := JobFor(task, priority)], specs := db.specs[task := Spec(sequence, id, REQUEST)],
        core := db.core.(tasks := db.core.tasks[task := QUEUED]))
  }

  /** The tables with that task offered to a node that has just reported. */
  function WithOffer(db: Database, node: Id, task: Id, a: Id): Database {
    db.(nodes := db.nodes[node := NodeAt(node)],
        core := db.core.(
          tasks := db.core.tasks[task := Placed(a)], assignments := db.core.assignments[a := Attempt(task, 1)],
          reservations := db.core.reservations[a := On(node)]))
  }

  const ONE_POOL := EMPTY.(pools := map[1 := WIDE])
  const ONE_JOB := WithJob(ONE_POOL, 2, 3, 0, 1)
  const ONE_RUNS := WithOffer(ONE_JOB, 2, 3, 11)
  const TWO_JOBS := WithJob(ONE_RUNS, 5, 4, 0, 2)
  const TWO_RUN := WithOffer(TWO_JOBS, 1, 4, 12)
  const LOWERED := TWO_RUN.(pools := map[1 := NARROW])
  const OVERFULL := WithJob(LOWERED, 8, 6, 9, 3)

  const WANT := Want(Idle(1), REQUEST, 1)

  // ---------------------------------------------------------------- how it comes about

  lemma Enrolls(db: Database, id: Id, task: Id, priority: int, sequences: map<Id, nat>)
    requires task in sequences && forall u :: u in db.specs ==> db.specs[u].sequence < sequences[task]
    requires 1 in db.pools && db.pools[1].grade == Opportunistic
    requires id !in db.jobs && task !in db.core.tasks
    ensures Submit(db, id, JobFor(task, priority), sequences) == Some(WithJob(db, id, task, priority, sequences[task]))
  {
    hide Enroll, WithJob, Submit;
    RowsAdded(db, id, task, priority, sequences);
    OneTask(task, priority);
    Admits(db, id, JobFor(task, priority), sequences);
  }

  lemma OneTask(task: Id, priority: int)
    ensures |JobFor(task, priority).tasks| == 1
  {
    assert JobFor(task, priority).tasks.Keys == {task};
  }

  lemma RowsAdded(db: Database, id: Id, task: Id, priority: int, sequences: map<Id, nat>)
    requires task in sequences
    ensures Enroll(db, id, JobFor(task, priority), sequences) == WithJob(db, id, task, priority, sequences[task])
  {
    var job := JobFor(task, priority);
    assert db.core.tasks + (map t | t in job.tasks :: Task(job.tasks[t].replaySafe, Queued, 0, None, None))
           == db.core.tasks[task := QUEUED];
    assert db.specs + (map t | t in job.tasks :: Spec(sequences[t], id, job.tasks[t]))
           == db.specs[task := Spec(sequences[task], id, REQUEST)];
  }

  /** One submission at time zero while nothing is due. */
  lemma Submitted(h: Trace, id: Id, task: Id, priority: int) returns (h': Trace)
    requires Run(CFG, h) && Last(h).db.clock == 0 && forall a :: a in Last(h).db.core.reservations ==> !Due(Last(h).db, a, 0)
    requires task in SEQUENCES && forall u :: u in Last(h).db.specs ==> Last(h).db.specs[u].sequence < SEQUENCES[task]
    requires 1 in Last(h).db.pools && Last(h).db.pools[1].grade == Opportunistic
    requires id !in Last(h).db.jobs && task !in Last(h).db.core.tasks && 13 !in Last(h).issued
    ensures Run(CFG, h')
    ensures Last(h') == Remember(Last(h), WithJob(Last(h).db, id, task, priority, SEQUENCES[task]))
  {
    var db := Last(h).db;
    hide Run, Handle, AdvanceClock, Submit, WithJob;
    NoneDue(db, 0);
    Enrolls(db, id, task, priority, SEQUENCES);
    SubmitEnds(db, CFG, id, JobFor(task, priority), 0, Drawing(13), WithJob(db, id, task, priority, SEQUENCES[task]));
    h' := CallThen(h, Operator, SubmitJob(id, JobFor(task, priority)), 0, 13,
                   WithJob(db, id, task, priority, SEQUENCES[task]), Done);
  }

  /** One heartbeat at time zero of a node that holds nothing, while one task waits and its pool has a slot. */
  lemma Beaten(h: Trace, node: Id, task: Id, a: Id) returns (h': Trace)
    requires Run(CFG, h) && Ready(Last(h).db, node, task) && a !in Last(h).issued && !Taken(Last(h).db, a)
    ensures Run(CFG, h') && Last(h') == Remember(Last(h), WithOffer(Last(h).db, node, task, a))
  {
    var db := Last(h).db;
    hide Run, Handle, WithOffer;
    BeatOffers(db, node, task, a);
    h' := CallThen(h, Node(node), Heartbeat(Idle(node)), 0, a, WithOffer(db, node, task, a), Done);
  }

  lemma PassOffers(db: Database, node: Id, task: Id, a: Id)
    requires Ready(db, node, task) && !Taken(db, a)
    ensures Schedule(PutNode(db, Idle(node), 0), CFG, Idle(node), 0, Drawing(a).uuid)
            == Some(WithOffer(db, node, task, a))
  {
    hide Judge, Queue, NodeCharge, Offer, WithOffer, FreeSlots, Schedule;
    Fits(db, node, task);
    OfferedRow(db, node, task, a);
    PlacesOne(PutNode(db, Idle(node), 0), CFG, Idle(node), 0, Drawing(a).uuid, task, ZERO);
  }

  lemma BeatOffers(db: Database, node: Id, task: Id, a: Id)
    requires Ready(db, node, task) && !Taken(db, a)
    ensures Handle(db, CFG, Node(node), Heartbeat(Idle(node)), 0, Drawing(a)) == (WithOffer(db, node, task, a), Done)
  {
    hide Schedule, WithOffer, Handle, Waiting, Held, PoolWorkers, Due;
    PassOffers(db, node, task, a);
    BeatPlaces(db, CFG, Idle(node), 0, Drawing(a), PutNode(db, Idle(node), 0), WithOffer(db, node, task, a));
  }

  ghost predicate Ready(db: Database, node: Id, task: Id) {
    && db.clock == 0 && db.epoch == 0 && db.sessions == map[] && db.unrecognized == map[] && db.retries == map[]
    && (forall a :: a in db.core.reservations ==> !Due(db, a, 0) && db.core.reservations[a].node != node)
    && node !in db.nodes && (forall t :: Waiting(db, t) <==> t == task)
    && task in db.core.tasks && TaskRow(db.core, task) == QUEUED && Held(db.core, task) == {}
    && SpecOf(db, task).request == REQUEST
    && JobOf(db, task).pool == 1 && PoolRow(db, 1) == WIDE && node in WIDE.nodes && |PoolWorkers(db, 1)| < 2
  }

  lemma OfferedRow(db: Database, node: Id, task: Id, a: Id)
    requires Ready(db, node, task)
    ensures Offer(PutNode(db, Idle(node), 0), CFG, Idle(node), 0, task, a) == WithOffer(db, node, task, a)
  {
    assert Waiting(db, task);
  }

  lemma Fits(db: Database, node: Id, task: Id)
    requires Ready(db, node, task)
    ensures var heard := PutNode(db, Idle(node), 0);
      && NodeCharge(heard, node) == Some(ZERO) && Queue(heard) == [task] && task in heard.core.tasks
      && Judge(Pass(heard, ZERO, FreeSlots(heard, Idle(node))), Idle(node), 0, task).Place?
  {
    var heard := PutNode(db, Idle(node), 0);
    hide NodeCharge, Queue, Judge;
    assert NodeRows(heard, node) == map[];
    IdleNode(heard, node);
    forall t ensures Waiting(heard, t) <==> t == task {
      assert Waiting(db, t) <==> t == task;
    }
    OneWaiting(heard, task);
    Judged(db, node, task);
  }

  lemma Judged(db: Database, node: Id, task: Id)
    requires Ready(db, node, task)
    ensures var heard := PutNode(db, Idle(node), 0);
      task in heard.core.tasks && Judge(Pass(heard, ZERO, FreeSlots(heard, Idle(node))), Idle(node), 0, task).Place?
  {
    var heard := PutNode(db, Idle(node), 0);
    assert Waiting(db, task);
    assert Held(heard.core, task) == {} && Unstarted(heard, node) == {};
    SameWorkers(db, heard, 1);
    hide PoolWorkers, Held, Unstarted, Due;
  }

  lemma PutsWide() returns (h: Trace)
    ensures Run(CFG, h) && Last(h) == World(ONE_POOL, [], map[])
  {
    StartRuns();
    NoneDue(EMPTY, 0);
    hide AdvanceClock, Run;
    PoolEnds(EMPTY, CFG, 1, WIDE, 0, Drawing(11), ONE_POOL);
    hide Handle;
    h := CallThen(START, Operator, PutPool(1, WIDE), 0, 11, ONE_POOL, Done);
  }

  lemma FirstRuns() returns (h: Trace)
    ensures Run(CFG, h) && Last(h) == World(ONE_RUNS, [], map[11 := Attempt(3, 1)])
  {
    hide Run;
    h := PutsWide();
    h := Submitted(h, 2, 3, 0);
    FirstReady();
    hide Ready;
    h := Beaten(h, 2, 3, 11);
  }

  lemma FirstReady()
    ensures Ready(ONE_JOB, 2, 3)
  {
    assert PoolWorkers(ONE_JOB, 1) == {};
  }

  lemma SecondRuns() returns (h: Trace)
    ensures Run(CFG, h) && Last(h).db == TWO_RUN && Last(h).issued.Keys == {11, 12}
  {
    hide Run;
    h := FirstRuns();
    h := Submitted(h, 5, 4, 0);
    SecondReady();
    hide Ready;
    h := Beaten(h, 1, 4, 12);
  }

  lemma SecondReady()
    ensures Ready(TWO_JOBS, 1, 4)
  {
    assert PoolWorkers(TWO_JOBS, 1) == {11};
  }

  lemma PoolLowered() returns (h: Trace)
    ensures Run(CFG, h) && Last(h).db == LOWERED && Last(h).issued.Keys == {11, 12}
  {
    hide Run;
    h := SecondRuns();
    NoneDueYet();
    h := Repooled(h, NARROW);
    assert TWO_RUN.pools[1 := NARROW] == LOWERED.pools;
  }

  lemma NoneDueYet()
    ensures forall a :: a in TWO_RUN.core.reservations ==> !Due(TWO_RUN, a, 0)
  {
  }

  /** The operator replaces pool 1 at time zero, keeping its class. */
  lemma Repooled(h: Trace, pool: Pool) returns (h': Trace)
    requires Run(CFG, h) && Last(h).db.clock == 0 && forall a :: a in Last(h).db.core.reservations ==> !Due(Last(h).db, a, 0)
    requires 1 in Last(h).db.pools && Last(h).db.pools[1].grade == pool.grade && 13 !in Last(h).issued
    requires pool.minWorkers <= pool.maxWorkers <= 100_000 && pool.nodes != {}
    ensures Run(CFG, h')
    ensures Last(h') == Remember(Last(h), Last(h).db.(pools := Last(h).db.pools[1 := pool]))
  {
    var db := Last(h).db;
    hide Run, AdvanceClock, Handle;
    NoneDue(db, 0);
    PoolEnds(db, CFG, 1, pool, 0, Drawing(13), db.(pools := db.pools[1 := pool]));
    h' := CallThen(h, Operator, PutPool(1, pool), 0, 13, db.(pools := db.pools[1 := pool]), Done);
  }

  lemma TaskArrives() returns (h: Trace)
    ensures Run(CFG, h) && Last(h).db == OVERFULL && Last(h).issued.Keys == {11, 12}
  {
    hide Run;
    h := PoolLowered();
    h := Submitted(h, 8, 6, 9);
  }

  // ---------------------------------------------------------------- the selection

  lemma Attempts()
    ensures TaskOf(OVERFULL.core, 11) == 3 && TaskOf(OVERFULL.core, 12) == 4
    ensures JobOf(OVERFULL, 3) == JobFor(3, 0) && JobOf(OVERFULL, 4) == JobFor(4, 0) && JobOf(OVERFULL, 6) == JobFor(6, 9)
    ensures OVERFULL.core.reservations == map[11 := On(2), 12 := On(1)]
  {
  }

  lemma TwoWorkers()
    ensures PoolWorkers(OVERFULL, 1) == {11, 12}
  {
    Attempts();
  }

  lemma OneUnitCharged(db: Database)
    requires db.core.reservations == map[11 := On(2), 12 := On(1)]
    ensures NodeCharge(db, 1) == Some(UNIT)
  {
    assert NodeRows(db, 1) == map[12 := UNIT];
    hide NodeCharge, NodeRows, Add;
    OneOnNode(db, 1, 12, UNIT);
    AddsUnit();
  }

  lemma OneCandidate(db: Database)
    requires db.core.reservations == map[11 := On(2), 12 := On(1)] && Displaceable(db, 1, 9, 12)
    ensures Candidates(db, 1, 9) == [12]
  {
    var cands := Candidates(db, 1, 9);
    assert 12 in cands;
    CandidatesHeld(db, 1, 9);
    hide Candidates;
    assert forall a :: a in cands ==> a in db.core.reservations && db.core.reservations[a].node == 1;
    hide Displaceable, NodeRows;
    DistinctCount(cands);
    assert Members(cands) == {12};
  }

  lemma SelectsOne(db: Database)
    requires 12 in db.core.reservations && RowCharge(db.core.reservations[12]) == UNIT && PoolOf(db, 12) == 1
    requires PoolWorkers(db, 1) == {11, 12} && PoolRow(db, 1) == NARROW
    ensures SelectFrom(db, WANT, [12], 0, UNIT, [], false) == Some([12])
    ensures !LeavesSlot(db, WANT, [12])
  {
    SelectedNone(db, 1);
    SelectedOneMore(db, [], 12, 1);
    assert [] + [12] == [12];
    hide SelectedIn, PoolOf, PoolRow, RowCharge;
    assert Subtract(UNIT, UNIT).gpu == map[];
    assert Add(ZERO, UNIT).value.gpu == map[];
    assert FitsRequested(UNIT, UNIT, UNIT);
  }

  /** Attempt 12 alone is asked to drain, and the pool keeps no slot for task 6. */
  lemma AsksForOne()
    ensures Preempt(OVERFULL, WANT, 6, UNIT) == Some([12])
    ensures !LeavesSlot(OVERFULL, WANT, [12])
  {
    hide PoolWorkers, Candidates, SelectFrom;
    TwoWorkers();
    Attempts();
    OneCandidate(OVERFULL);
    SelectsOne(OVERFULL);
  }

  const ASKED := OVERFULL.(drains := {12})

  lemma Waits()
    ensures Queue(OVERFULL) == [6]
  {
    OneWaiting(OVERFULL, 6);
  }

  lemma Blocked()
    ensures Judge(Pass(OVERFULL, UNIT, FreeSlots(OVERFULL, Idle(1))), Idle(1), 0, 6) == Ask([12])
  {
    hide Judge;
    NoSlots();
    AsksForOne();
    hide Preempt, PoolWorkers, Held, Unstarted;
    var next := Add(UNIT, UNIT);
    JudgesAsk(Pass(OVERFULL, UNIT, FreeSlots(OVERFULL, Idle(1))), Idle(1), 0, 6, next.value, [12]);
  }

  lemma NoSlots()
    ensures Held(OVERFULL.core, 6) == {} && FreeSlots(OVERFULL, Idle(1)) == 0
  {
    Attempts();
    assert Unstarted(OVERFULL, 1) == {12};
  }

  lemma PassAsks()
    ensures Schedule(OVERFULL, CFG, Idle(1), 0, Drawing(13).uuid) == Some(ASKED)
  {
    hide Judge, Queue, NodeCharge, FreeSlots, Schedule;
    assert NodeCharge(OVERFULL, 1) == Some(UNIT) by {
      Attempts();
      OneUnitCharged(OVERFULL);
    }
    Waits();
    Blocked();
    AsksOne(OVERFULL, CFG, Idle(1), 0, Drawing(13).uuid, 6, UNIT, [12]);
    assert OVERFULL.drains + (set x | x in [12]) == {12};
  }

  lemma Hears()
    ensures forall a :: a in OVERFULL.core.reservations ==>
      !Due(OVERFULL, a, 0) && OVERFULL.core.reservations[a].leaseSequence == 0
      && OVERFULL.core.reservations[a].phase == Offered
    ensures PutNode(OVERFULL, Idle(1), 0) == OVERFULL
  {
    assert OVERFULL.nodes[1 := NodeAt(1)] == OVERFULL.nodes;
  }

  lemma BeatAsks()
    ensures Handle(OVERFULL, CFG, Node(1), Heartbeat(Idle(1)), 0, Drawing(13)) == (ASKED, Done)
  {
    hide Schedule, Due, PutNode, Handle;
    Hears();
    PassAsks();
    BeatPlaces(OVERFULL, CFG, Idle(1), 0, Drawing(13), OVERFULL, ASKED);
  }

  /**
   A reachable pool with two workers and a maximum of one: the last heartbeat asks attempt 12 to drain for task 6,
   and without it the pool is still at its maximum.
   */
  lemma OverfullAsksTooFew() returns (h: Trace, n: nat)
    ensures Run(CFG, h) && n + 1 == |h.events|
    ensures h.worlds[n].db.drains == {} && h.worlds[n + 1].db.drains == {12}
    ensures |PoolWorkers(h.worlds[n].db, 1)| == 2 && PoolRow(h.worlds[n].db, 1).maxWorkers == 1
    ensures !LeavesSlot(h.worlds[n].db, WANT, [12])
  {
    hide Run, Handle, PoolWorkers, PoolRow, LeavesSlot;
    h := TaskArrives();
    RunShape(h);
    n := |h.events|;
    BeatAsks();
    StillFull();
    h := CallThen(h, Node(1), Heartbeat(Idle(1)), 0, 13, ASKED, Done);
  }

  lemma StillFull()
    ensures OVERFULL.drains == {} && ASKED.drains == {12} && !LeavesSlot(OVERFULL, WANT, [12])
    ensures |PoolWorkers(OVERFULL, 1)| == 2 && PoolRow(OVERFULL, 1).maxWorkers == 1
  {
    TwoWorkers();
    AsksForOne();
    hide PoolWorkers, LeavesSlot, Preempt;
  }
}
