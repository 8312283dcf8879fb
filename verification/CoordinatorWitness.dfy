/**
 Short histories from the empty database that show what the coordinator does not promise. Node 1 runs task 3
 of job 2 in pool 1; its attempts are 7 and 8.
 */
module CoordinatorWitness {
  import opened Options
  import opened ResourceVectors
  import opened Listings
  import opened CoordinatorCore
  import opened CoordinatorTables
  import opened CoordinatorRules
  import opened CoordinatorSchedule
  import opened CoordinatorSafety
  import opened CoordinatorRuns
  import opened CoordinatorHistory

  // ---------------------------------------------------------------- small tables

  lemma {:induction false} DistinctCount(s: seq<nat>)
    requires Distinct(s)
    ensures |Members(s)| == |s|
  {
    if s != [] {
      var n := |s| - 1;
      DistinctCount(s[..n]);
      assert s == s[..n] + [s[n]] && s[n] !in Members(s[..n]);
      assert Members(s) == Members(s[..n]) + {s[n]};
    }
  }

  lemma ListNone(keyed: map<nat, Row>)
    requires keyed == map[]
    ensures ListBy(keyed) == []
  {
    DistinctCount(ListBy(keyed));
    assert Members(ListBy(keyed)) == {};
  }

  lemma ListOne(keyed: map<nat, Row>, k: nat)
    requires keyed.Keys == {k} && keyed[k].id == k
    ensures ListBy(keyed) == [k]
  {
    var s := ListBy(keyed);
    DistinctCount(s);
    assert Members(s) == {k};
    assert s[0] in s;
  }

  lemma NoneDue(db: Database, now: nat)
    requires forall a :: a in db.core.reservations ==> !Due(db, a, now)
    ensures AdvanceClock(db, now) == db.(clock := now)
  {
    ListNone(map a | a in db.core.reservations && Due(db, a, now) :: Row(a, 0, 0));
  }

  lemma OneDue(db: Database, now: nat, a: Id)
    requires a in db.core.reservations && forall b :: b in db.core.reservations ==> (Due(db, b, now) <==> b == a)
    ensures AdvanceClock(db, now) == db.(clock := now, core := ExpireRow(db.core, a, 3))
  {
    var keyed := map b | b in db.core.reservations && Due(db, b, now) :: Row(b, 0, 0);
    assert keyed.Keys == {a};
    ListOne(keyed, a);
    assert DueOrder(db, now) == [a];
    assert [a][..0] == [];
    assert ExpireRows(db.core, []) == db.core;
  }

  lemma OneWaiting(db: Database, t: Id)
    requires forall u :: Waiting(db, u) <==> u == t
    ensures Queue(db) == [t]
  {
    var keyed := map u | u in db.core.tasks && Waiting(db, u) :: Row(u, -JobOf(db, u).priority, SpecOf(db, u).sequence);
    assert Waiting(db, t);
    assert keyed.Keys == {t};
    ListOne(keyed, t);
  }

  lemma IdleNode(db: Database, node: Id)
    requires NodeRows(db, node) == map[]
    ensures NodeCharge(db, node) == Some(ZERO)
  {
    ListNone(map a | a in NodeRows(db, node) :: Row(a, 0, 0));
  }

  lemma OneOnNode(db: Database, node: Id, a: Id, charge: Resources)
    requires NodeRows(db, node) == map[a := charge]
    ensures NodeCharge(db, node) == Add(ZERO, charge)
  {
    ListOne(map b | b in NodeRows(db, node) :: Row(b, 0, 0), a);
    assert NodeOrder(db, node) == [a];
    var rows := NodeList(db, node);
    assert rows == [charge] && rows[..0] == [];
    assert AddAll(ZERO, rows[..0]) == Some(ZERO);
  }

  /** A report that lists nothing from a node that has started nothing. */
  lemma EmptyReport(db: Database, cfg: Config, report: NodeReport, now: nat)
    requires report.allocations == [] && ReportAdmissible(db, cfg, report, now)
    requires report.node !in db.sessions && db.unrecognized == map[]
    requires forall a :: a in db.core.reservations && db.core.reservations[a].node == report.node ==>
               db.core.reservations[a].leaseSequence == 0 && db.core.reservations[a].phase != Phase.Prepared
    ensures MergeReport(db, cfg, report, now) == Some(Heard(PutNode(db, report, now), true))
  {
    hide ReportAdmissible;
    var put := PutNode(db, report, now);
    assert Missing(put, report.node, false, {}) == {};
    assert FenceMissing(put.core, {}) == put.core;
  }

  lemma FenceNone(c: Core)
    ensures FenceMissing(c, {}) == c
  {
  }

  /** A report that lists one allocation of a node that has started nothing else. */
  lemma OneReport(db: Database, cfg: Config, report: NodeReport, now: nat, x: AllocationReport)
    requires report.allocations == [x] && ReportAdmissible(db, cfg, report, now)
    requires report.node !in db.sessions && db.unrecognized == map[]
    requires x.assignment in db.core.reservations && x.assignment in db.core.assignments
    requires db.core.reservations[x.assignment].node == report.node
    requires db.core.assignments[x.assignment].generation == x.generation && x.phase != Draining
    requires db.core.reservations[x.assignment].phase != Draining
    requires forall b :: b in db.core.reservations && b != x.assignment ==>
               db.core.reservations[b].leaseSequence == 0 && db.core.reservations[b].phase != Phase.Prepared
    ensures var row := db.core.reservations[x.assignment];
      var odd := Contradiction(row.phase, x.phase, Newer(db, report)) || InvalidRunning(x.phase, row.leaseSequence > 0);
      MergeReport(db, cfg, report, now)
      == Some(Heard(PutNode(db, report, now).(core := MergeRow(db.core, x.assignment, x.phase, x.observed, Newer(db, report))),
                    !odd))
  {
    var newer := Newer(db, report);
    var start := Merge(PutNode(db, report, now), {}, {});
    OneMerged(start, report.node, x, newer);
    var merged := MergeAll(start, report.node, [x], newer).value;
    hide ReportAdmissible, MergeAll, MergedPhase, Contradiction, InvalidRunning, Newer;
    assert Missing(merged.db, report.node, false, merged.seen) == {};
    FenceNone(merged.db.core);
    hide Missing, FenceMissing, MergeRow;
  }

  lemma OneMerged(m: Merge, node: Id, x: AllocationReport, newer: bool)
    requires m.seen == {} && m.flagged == {}
    requires x.assignment in m.db.core.reservations && x.assignment in m.db.core.assignments
    requires m.db.core.reservations[x.assignment].node == node
    requires m.db.core.assignments[x.assignment].generation == x.generation && x.phase != Draining
    requires m.db.core.reservations[x.assignment].phase != Draining
    ensures var row := m.db.core.reservations[x.assignment];
      var odd := Contradiction(row.phase, x.phase, newer) || InvalidRunning(x.phase, row.leaseSequence > 0);
      MergeAll(m, node, [x], newer)
      == Some(Merge(m.db.(core := MergeRow(m.db.core, x.assignment, x.phase, x.observed, newer)), {x.assignment},
                    if odd then {x.assignment} else {}))
  {
    assert [x][..0] == [];
    assert MergeAll(m, node, [], newer) == Some(m);
    assert m.seen + {x.assignment} == {x.assignment} && m.flagged + {x.assignment} == {x.assignment};
  }

  /** A pass over one waiting task that can be placed. */
  lemma PlacesOne(db: Database, cfg: Config, report: NodeReport, now: nat, uuid: Id -> Id, t: Id, charge: Resources)
    requires report.node in db.nodes && !db.nodes[report.node].drain && report.node !in db.sessions
    requires NodeCharge(db, report.node) == Some(charge) && Queue(db) == [t] && t in db.core.tasks
    requires Judge(Pass(db, charge, FreeSlots(db, report)), report, now, t).Place? && !Taken(db, uuid(t))
    ensures Schedule(db, cfg, report, now, uuid) == Some(Offer(db, cfg, report, now, t, uuid(t)))
  {
    hide Judge, NodeCharge, Queue, FreeSlots, Offer;
    var p := Pass(db, charge, FreeSlots(db, report));
    assert [t][..0] == [];
    assert ConsiderAll(p, cfg, report, now, [], uuid) == Some(p);
    assert ConsiderAll(p, cfg, report, now, [t], uuid) == Consider(p, cfg, report, now, t, uuid(t));
    assert p.slots > 0 by {
      JudgedPlace(p, report, now, t);
    }
  }

  lemma JudgesPlace(p: Pass, report: NodeReport, now: nat, t: Id, next: Resources)
    requires t in p.db.core.tasks && Eligible(p.db, report, now, t) && !Exhausted(p.db, t) && Held(p.db.core, t) == {}
    requires var request := SpecOf(p.db, t).request;
      && GpuRequestAllowed(request, report) && request.controls <= report.controls
      && Add(p.charge, request.resources) == Some(next) && FitsRequested(next, report.budget, request.resources)
    requires p.slots > 0 && |PoolWorkers(p.db, JobOf(p.db, t).pool)| < PoolRow(p.db, JobOf(p.db, t).pool).maxWorkers
    ensures Judge(p, report, now, t) == Place(next)
  {
    hide Eligible, Exhausted, Held, GpuRequestAllowed, Add, FitsRequested, PoolWorkers, PoolRow;
  }

  lemma JudgesAsk(p: Pass, report: NodeReport, now: nat, t: Id, next: Resources, victims: seq<Id>)
    requires t in p.db.core.tasks && Eligible(p.db, report, now, t) && !Exhausted(p.db, t) && Held(p.db.core, t) == {}
    requires var request := SpecOf(p.db, t).request;
      && GpuRequestAllowed(request, report) && request.controls <= report.controls
      && Add(p.charge, request.resources) == Some(next) && p.slots == 0
      && Preempt(p.db, Want(report, request, JobOf(p.db, t).pool), t, p.charge) == Some(victims)
    ensures Judge(p, report, now, t) == Ask(victims)
  {
    hide Eligible, Exhausted, Held, GpuRequestAllowed, Add, FitsRequested, PoolWorkers, PoolRow, Preempt;
  }

  /** A pass over one waiting task that is blocked and asks for victims. */
  lemma AsksOne(db: Database, cfg: Config, report: NodeReport, now: nat, uuid: Id -> Id, t: Id, charge: Resources,
                victims: seq<Id>)
    requires report.node in db.nodes && !db.nodes[report.node].drain && report.node !in db.sessions
    requires NodeCharge(db, report.node) == Some(charge) && Queue(db) == [t] && t in db.core.tasks
    requires Judge(Pass(db, charge, FreeSlots(db, report)), report, now, t) == Ask(victims)
    ensures Schedule(db, cfg, report, now, uuid) == Some(db.(drains := db.drains + (set x | x in victims)))
  {
    hide Judge, NodeCharge, Queue, FreeSlots;
    var p := Pass(db, charge, FreeSlots(db, report));
    assert [t][..0] == [];
    assert ConsiderAll(p, cfg, report, now, [], uuid) == Some(p);
    assert ConsiderAll(p, cfg, report, now, [t], uuid) == Consider(p, cfg, report, now, t, uuid(t));
  }

  /** A heartbeat, one stage after the other. */
  lemma BeatEnds(db: Database, cfg: Config, report: NodeReport, now: nat, o: Oracle,
                 ready: Database, heard: Heard, released: Database, after: Database)
    requires report.node !in db.sessions && now >= db.clock && AdvanceClock(db, now) == ready
    requires MergeReport(ready, cfg, report, now) == Some(heard)
    requires LateReleases(heard.db, cfg, report.allocations, now) == (released, true) && report.node in released.nodes
    requires if MaySchedule(cfg, report, now, heard.clean) then Schedule(released, cfg, report, now, o.uuid) == Some(after)
             else after == released
    ensures Handle(db, cfg, Node(report.node), Heartbeat(report), now, o) == (after, Done)
  {
    hide AdvanceClock, MergeReport, LateReleases, MaySchedule, Schedule;
  }

  lemma Admits(db: Database, id: Id, job: Job, sequences: map<Id, nat>)
    requires Autoincrements(db, job.tasks.Keys, sequences)
    requires 0 < |job.tasks| <= 100_000 && job.pool in db.pools && !job.cancelled && id !in db.jobs
    requires forall t :: t in job.tasks ==>
      && t !in db.core.tasks && job.tasks[t].grade == db.pools[job.pool].grade
      && job.tasks[t].resources.cpu > 0 && job.tasks[t].resources.ram > 0 && job.tasks[t].maxAttempts != Some(0)
    ensures Submit(db, id, job, sequences) == Some(Enroll(db, id, job, sequences))
  {
    hide Enroll;
  }

  lemma SubmitEnds(db: Database, cfg: Config, id: Id, job: Job, now: nat, o: Oracle, after: Database)
    requires now >= db.clock && Submit(AdvanceClock(db, now), id, job, o.sequences) == Some(after)
    ensures Handle(db, cfg, Operator, SubmitJob(id, job), now, o) == (after, Done)
  {
    hide AdvanceClock, Submit;
  }

  /** A heartbeat of an idle node that ends in one offer, at an unmoved clock. */
  lemma BeatPlaces(db: Database, cfg: Config, report: NodeReport, now: nat, o: Oracle, heard: Database,
                   after: Database)
    requires now == db.clock && forall a :: a in db.core.reservations ==> !Due(db, a, now)
    requires report.allocations == [] && ReportAdmissible(db, cfg, report, now) && MaySchedule(cfg, report, now, true)
    requires report.node !in db.sessions && db.unrecognized == map[] && heard == PutNode(db, report, now)
    requires forall a :: a in db.core.reservations && db.core.reservations[a].node == report.node ==>
               db.core.reservations[a].leaseSequence == 0 && db.core.reservations[a].phase != Phase.Prepared
    requires Schedule(heard, cfg, report, now, o.uuid) == Some(after)
    ensures Handle(db, cfg, Node(report.node), Heartbeat(report), now, o) == (after, Done)
  {
    NoneDue(db, now);
    hide Schedule, MergeReport, AdvanceClock, Due;
    EmptyReport(db, cfg, report, now);
    assert LateReleases(heard, cfg, [], now) == (heard, true);
    BeatEnds(db, cfg, report, now, o, db, Heard(heard, true), heard, after);
  }

  lemma PoolEnds(db: Database, cfg: Config, id: Id, pool: Pool, now: nat, o: Oracle, after: Database)
    requires now >= db.clock && CoordinatorRules.PutPool(AdvanceClock(db, now), id, pool) == Some(after)
    ensures Handle(db, cfg, Operator, PutPool(id, pool), now, o) == (after, Done)
  {
    hide AdvanceClock, CoordinatorRules.PutPool;
  }

  lemma PrepareEnds(db: Database, cfg: Config, a: Id, generation: nat, epoch: nat, record: PreparedRecord, now: nat,
                    o: Oracle, recorded: Database, after: Database, lease: Lease)
    requires a in db.core.reservations && db.core.reservations[a].node !in db.sessions && now >= db.clock
    requires RecordPreparation(AdvanceClock(db, now), Node(db.core.reservations[a].node), a, generation, epoch, record)
             == Some(recorded)
    requires Grant(recorded, cfg, a, generation, None, now) == Some((after, lease))
    ensures Handle(db, cfg, Node(db.core.reservations[a].node), Request.Prepared(a, generation, epoch, record), now, o)
            == (after, Leased(lease))
  {
    hide AdvanceClock, RecordPreparation, Grant;
  }

  lemma CompleteEnds(db: Database, cfg: Config, node: Id, s: Submission, now: nat, o: Oracle, after: Database, hash: Id)
    requires node !in db.sessions && now >= db.clock
    requires Accept(AdvanceClock(db, now), cfg, Node(node), s, o.intact, false) == Some((after, hash))
    ensures Handle(db, cfg, Node(node), Complete(s), now, o) == (after, Receipt(s.task, hash))
  {
    hide AdvanceClock, Accept;
  }

  lemma CancelEnds(db: Database, cfg: Config, job: Id, now: nat, o: Oracle)
    requires now >= db.clock && job !in AdvanceClock(db, now).jobs
    ensures Handle(db, cfg, Operator, Cancel(job), now, o) == (AdvanceClock(db, now), Refused)
  {
    hide AdvanceClock;
  }

  // ---------------------------------------------------------------- the setting

  const CFG := Config(10, 100, 3, 0, 0, 0, 0, (s: Submission) => 5)
  const UNIT := Resources(1, 1, map[])
  const REQUEST := LaunchRequest(UNIT, true, Opportunistic, None, {})
  const POOL := Pool(Opportunistic, {1}, 0, 1)
  const JOB := Job(1, 0, false, map[3 := REQUEST])

  const SEQUENCES := map[3 := 1, 4 := 2, 6 := 3]

  function Drawing(a: Id): Oracle {
    Oracle((t: Id) => a, SEQUENCES, {})
  }

  /** What node 1 reports at `now`: room for one unit of work. */
  function Report(now: nat, allocations: seq<AllocationReport>): NodeReport {
    NodeReport(1, 4, now, UNIT, true, false, false, 1, {}, allocations)
  }

  const PREPARED := PreparedRecord(
    3, 7, 1, Opportunistic, true, UNIT, Some(ProcessIdentity(1, 4, 1, 7, 1)), Some(1), {})

  const RESULT := Submission(3, 7, 1, None, 0, [])

  const WITH_POOL := EMPTY.(pools := map[1 := POOL])

  const SUBMITTED := WITH_POOL.(
    jobs := map[2 := JOB], specs := map[3 := Spec(1, 2, REQUEST)],
    core := Core(map[3 := Task(true, Queued, 0, None, None)], map[], map[], {}))

  const OFFERED := SUBMITTED.(
    nodes := map[1 := NodeRow(Report(0, []), 0, false)],
    core := Core(map[3 := Task(true, Assigned, 1, Some(7), None)], map[7 := Attempt(3, 1)],
                 map[7 := Reservation(1, Offered, UNIT, None, 0, 10, 0)], {}))

  const HEARD := SUBMITTED.(nodes := map[1 := NodeRow(Report(0, []), 0, false)])

  lemma AddsUnit()
    ensures Add(ZERO, UNIT) == Some(UNIT)
  {
    assert Add(ZERO, UNIT).value.gpu == map[];
  }

  lemma PutsPool()
    ensures Handle(EMPTY, CFG, Operator, PutPool(1, POOL), 0, Drawing(7)) == (WITH_POOL, Done)
  {
    NoneDue(EMPTY, 0);
    hide AdvanceClock;
  }

  lemma EnrollsJob()
    ensures Submit(WITH_POOL, 2, JOB, SEQUENCES) == Some(SUBMITTED)
  {
    EnrollsTask();
    hide Enroll;
    assert |JOB.tasks| == 1;
  }

  lemma EnrollsTask()
    ensures Enroll(WITH_POOL, 2, JOB, SEQUENCES) == SUBMITTED
  {
    var enrolled := Enroll(WITH_POOL, 2, JOB, SEQUENCES);
    assert enrolled.core.tasks == SUBMITTED.core.tasks;
    assert enrolled.specs == SUBMITTED.specs;
  }

  lemma Submits()
    ensures Handle(WITH_POOL, CFG, Operator, SubmitJob(2, JOB), 0, Drawing(7)) == (SUBMITTED, Done)
  {
    NoneDue(WITH_POOL, 0);
    EnrollsJob();
    SubmitEnds(WITH_POOL, CFG, 2, JOB, 0, Drawing(7), SUBMITTED);
  }

  lemma OffersFirst()
    ensures Handle(SUBMITTED, CFG, Node(1), Heartbeat(Report(0, [])), 0, Drawing(7)) == (OFFERED, Done)
  {
    var report := Report(0, []);
    NoneDue(SUBMITTED, 0);
    EmptyReport(SUBMITTED, CFG, report, 0);
    assert PutNode(SUBMITTED, report, 0) == HEARD;
    FirstPass();
    BeatEnds(SUBMITTED, CFG, report, 0, Drawing(7), SUBMITTED, Heard(HEARD, true), HEARD, OFFERED);
  }

  lemma FirstPass()
    ensures Schedule(HEARD, CFG, Report(0, []), 0, Drawing(7).uuid) == Some(OFFERED)
  {
    hide Schedule, Judge, Queue, NodeCharge, NodeRows;
    FirstRows();
    IdleNode(HEARD, 1);
    OneWaiting(HEARD, 3);
    FirstVerdict();
    PlacesOne(HEARD, CFG, Report(0, []), 0, Drawing(7).uuid, 3, ZERO);
    FirstOffer();
  }

  lemma FirstRows()
    ensures NodeRows(HEARD, 1) == map[]
  {
  }

  lemma FirstOffer()
    ensures Offer(HEARD, CFG, Report(0, []), 0, 3, 7) == OFFERED
  {
  }

  lemma FirstVerdict()
    ensures Judge(Pass(HEARD, ZERO, FreeSlots(HEARD, Report(0, []))), Report(0, []), 0, 3) == Place(UNIT)
  {
    hide Judge;
    assert Held(HEARD.core, 3) == {} && PoolWorkers(HEARD, 1) == {} && Unstarted(HEARD, 1) == {};
    AddsUnit();
    hide Held, PoolWorkers, Unstarted, Add;
    JudgesPlace(Pass(HEARD, ZERO, FreeSlots(HEARD, Report(0, []))), Report(0, []), 0, 3, UNIT);
  }

  // ---------------------------------------------------------------- a lease, its expiry, its result

  const LEASED := OFFERED.(
    preparations := map[7 := PREPARED],
    core := OFFERED.core.(reservations := map[7 := Reservation(1, Authorized, UNIT, None, 1, 10, 0)]))

  const FIRST_LEASE := Lease(7, 1, 0, 1, 10, false)

  const READY := OFFERED.(preparations := map[7 := PREPARED])

  lemma Prepares()
    ensures RecordPreparation(OFFERED, Node(1), 7, 1, 0, PREPARED) == Some(READY)
  {
  }

  lemma NothingToDrain()
    ensures !ShouldDrain(READY, 7)
  {
    assert PoolWorkers(READY, 1) == {7};
    assert Rank(READY, 7) == {7};
  }

  lemma RoomForOne()
    ensures FreshCapacity(READY, CFG, 7, 0)
  {
    OneUnit();
    hide NodeCharge;
  }

  lemma OneUnit()
    ensures NodeCharge(READY, 1) == Some(UNIT)
  {
    ReadyRows();
    OneOnNode(READY, 1, 7, UNIT);
    hide NodeCharge, NodeRows, Add;
    AddsUnit();
  }

  lemma ReadyRows()
    ensures NodeRows(READY, 1) == map[7 := UNIT]
  {
  }

  lemma GrantsFirst()
    ensures Grant(READY, CFG, 7, 1, None, 0) == Some((LEASED, FIRST_LEASE))
  {
    NothingToDrain();
    RoomForOne();
    hide ShouldDrain, FreshCapacity;
    assert READY.core.reservations[7 := LEASED.core.reservations[7]] == LEASED.core.reservations;
  }

  lemma LeasesFirst()
    ensures Handle(OFFERED, CFG, Node(1), Request.Prepared(7, 1, 0, PREPARED), 0, Drawing(8)) == (LEASED, Leased(FIRST_LEASE))
  {
    NoneDue(OFFERED, 0);
    Prepares();
    GrantsFirst();
    PrepareEnds(OFFERED, CFG, 7, 1, 0, PREPARED, 0, Drawing(8), READY, LEASED, FIRST_LEASE);
  }

  const COMPLETED := LEASED.(
    core := LEASED.core.(tasks := map[3 := Task(true, Completed, 1, Some(7), Some(5))]),
    work := Work({}, map[3 := RESULT], map[]))

  lemma AcceptsResult()
    ensures Accept(LEASED, CFG, Node(1), RESULT, {}, false) == Some((COMPLETED, 5))
  {
    assert CompleteCore(LEASED.core, 3, 5).tasks == COMPLETED.core.tasks;
    assert LEASED.work.results[3 := RESULT] == COMPLETED.work.results;
  }

  lemma Completes()
    ensures Handle(LEASED, CFG, Node(1), Complete(RESULT), 0, Drawing(8)) == (COMPLETED, Receipt(3, 5))
  {
    NoneDue(LEASED, 0);
    AcceptsResult();
    CompleteEnds(LEASED, CFG, 1, RESULT, 0, Drawing(8), COMPLETED, 5);
  }

  const EXPIRED := LEASED.(
    clock := 10,
    core := Core(map[3 := Task(true, Queued, 1, Some(7), None)], map[7 := Attempt(3, 1)],
                 map[7 := Reservation(1, Uncertain, UNIT, None, 1, 10, 0)], {7}))

  /** Any call moves the clock, even one that is refused. */
  lemma Expires()
    ensures Handle(LEASED, CFG, Operator, Cancel(99), 10, Drawing(8)) == (EXPIRED, Refused)
  {
    hide AdvanceClock, ExpireRow;
    OneDue(LEASED, 10, 7);
    ExpiresRow();
    CancelEnds(LEASED, CFG, 99, 10, Drawing(8));
  }

  lemma ExpiresRow()
    ensures ExpireRow(LEASED.core, 7, 3) == EXPIRED.core
  {
    var c := SetPhase(LEASED.core, 7, Uncertain);
    assert c.reservations == EXPIRED.core.reservations;
    assert SetStatus(Fence(c, {7}), 3, Queued).tasks == EXPIRED.core.tasks;
  }

  // ---------------------------------------------------------------- a row that comes back

  const GONE := [AllocationReport(7, 1, Released, None)]
  const BACK := [AllocationReport(7, 1, Phase.Prepared, None)]

  /** Attempt 7 expired before it was started. */
  const LAPSED := OFFERED.(
    clock := 10,
    core := Core(map[3 := Task(true, Queued, 1, Some(7), None)], map[7 := Attempt(3, 1)],
                 map[7 := Reservation(1, Uncertain, UNIT, None, 0, 10, 0)], {7}))

  const FREED := LAPSED.(
    nodes := map[1 := NodeRow(Report(10, GONE), 10, false)],
    core := LAPSED.core.(reservations := map[7 := Reservation(1, Released, UNIT, None, 0, 10, 0)]))

  const RETRIED := FREED.(retries := map[3 := CoordinatorTables.Retry(0, 10, 1)], failures := {7})

  const SECOND := RETRIED.(
    core := Core(map[3 := Task(true, Assigned, 2, Some(8), None)], map[7 := Attempt(3, 1), 8 := Attempt(3, 2)],
                 map[7 := Reservation(1, Released, UNIT, None, 0, 10, 0), 8 := Reservation(1, Offered, UNIT, None, 0, 20, 0)],
                 {7}))

  const TWICE := SECOND.(
    clock := 11, nodes := map[1 := NodeRow(Report(11, BACK), 11, false)],
    core := SECOND.core.(
      reservations := map[7 := Reservation(1, Uncertain, UNIT, None, 0, 10, 0),
                          8 := Reservation(1, Offered, UNIT, None, 0, 20, 0)]))

  lemma Lapses()
    ensures AdvanceClock(OFFERED, 10) == LAPSED
  {
    OneDue(OFFERED, 10, 7);
    var c := SetPhase(OFFERED.core, 7, Uncertain);
    assert c.reservations == LAPSED.core.reservations;
    assert SetStatus(Fence(c, {7}), 3, Queued).tasks == LAPSED.core.tasks;
    hide AdvanceClock;
  }

  lemma Frees()
    ensures MergeReport(LAPSED, CFG, Report(10, GONE), 10) == Some(Heard(FREED, true))
  {
    FreesRow();
    FreesNode();
    OneReport(LAPSED, CFG, Report(10, GONE), 10, GONE[0]);
    hide MergeReport, MergeRow, PutNode;
  }

  lemma FreesRow()
    ensures MergeRow(LAPSED.core, 7, Released, None, true) == FREED.core
  {
    assert MergeRow(LAPSED.core, 7, Released, None, true).reservations == FREED.core.reservations;
  }

  lemma FreesNode()
    ensures PutNode(LAPSED, Report(10, GONE), 10) == FREED.(core := LAPSED.core)
  {
  }

  lemma Retries()
    ensures LateReleases(FREED, CFG, GONE, 10) == (RETRIED, true)
  {
    Yields();
    assert GONE[..0] == [];
    assert LateReleases(FREED, CFG, [], 10) == (FREED, true);
    assert LateRelease(FREED, GONE[0]);
    hide RecordFailure;
  }

  lemma Yields()
    ensures RecordFailure(FREED, CFG, 7, 1, Yielded, 10) == Some(RETRIED)
  {
    hide ShouldDrain;
    assert Backoff(0, 0, 1) == 0;
    assert SetStatus(FREED.core, 3, Queued) == FREED.core by {
      assert SetStatus(FREED.core, 3, Queued).tasks == FREED.core.tasks;
    }
    assert FREED.retries[3 := CoordinatorTables.Retry(0, 10, 1)] == RETRIED.retries;
    assert FREED.failures + {7} == RETRIED.failures;
  }

  lemma SecondPass()
    ensures Schedule(RETRIED, CFG, Report(10, GONE), 10, Drawing(8).uuid) == Some(SECOND)
  {
    hide Schedule, Judge, Queue, NodeCharge, NodeRows;
    SecondRows();
    IdleNode(RETRIED, 1);
    OneWaiting(RETRIED, 3);
    SecondVerdict();
    PlacesOne(RETRIED, CFG, Report(10, GONE), 10, Drawing(8).uuid, 3, ZERO);
    SecondOffer();
  }

  lemma SecondRows()
    ensures NodeRows(RETRIED, 1) == map[]
  {
  }

  lemma SecondOffer()
    ensures Offer(RETRIED, CFG, Report(10, GONE), 10, 3, 8) == SECOND
  {
    var c := Offer(RETRIED, CFG, Report(10, GONE), 10, 3, 8).core;
    assert c.tasks == SECOND.core.tasks && c.assignments == SECOND.core.assignments;
    assert c.reservations == SECOND.core.reservations;
  }

  lemma SecondVerdict()
    ensures Judge(Pass(RETRIED, ZERO, FreeSlots(RETRIED, Report(10, GONE))), Report(10, GONE), 10, 3) == Place(UNIT)
  {
    hide Judge;
    SecondIdle();
    AddsUnit();
    hide Held, PoolWorkers, Unstarted, Add;
    JudgesPlace(Pass(RETRIED, ZERO, FreeSlots(RETRIED, Report(10, GONE))), Report(10, GONE), 10, 3, UNIT);
  }

  lemma SecondIdle()
    ensures Held(RETRIED.core, 3) == {} && PoolWorkers(RETRIED, 1) == {} && Unstarted(RETRIED, 1) == {}
  {
  }

  lemma OffersSecond()
    ensures Handle(OFFERED, CFG, Node(1), Heartbeat(Report(10, GONE)), 10, Drawing(8)) == (SECOND, Done)
  {
    hide AdvanceClock, MergeReport, LateReleases, Schedule;
    Lapses();
    Frees();
    Retries();
    SecondPass();
    BeatEnds(OFFERED, CFG, Report(10, GONE), 10, Drawing(8), LAPSED, Heard(FREED, true), RETRIED, SECOND);
  }

  lemma Returns()
    ensures MergeReport(SECOND.(clock := 11), CFG, Report(11, BACK), 11) == Some(Heard(TWICE, false))
  {
    ReturnsRow();
    ReturnsNode();
    OneReport(SECOND.(clock := 11), CFG, Report(11, BACK), 11, BACK[0]);
    hide MergeReport, MergeRow, PutNode;
  }

  lemma ReturnsRow()
    ensures MergeRow(SECOND.core, 7, Phase.Prepared, None, true) == TWICE.core
  {
    assert MergeRow(SECOND.core, 7, Phase.Prepared, None, true).reservations == TWICE.core.reservations;
    assert SECOND.core.fences + {7} == TWICE.core.fences;
  }

  lemma ReturnsNode()
    ensures PutNode(SECOND.(clock := 11), Report(11, BACK), 11) == TWICE.(core := SECOND.core)
  {
  }

  lemma HoldsTwo()
    ensures Handle(SECOND, CFG, Node(1), Heartbeat(Report(11, BACK)), 11, Drawing(9)) == (TWICE, Done)
  {
    NoneDue(SECOND, 11);
    Returns();
    assert BACK[..0] == [];
    assert LateReleases(TWICE, CFG, [], 11) == (TWICE, true);
    assert LateReleases(TWICE, CFG, BACK, 11) == (TWICE, true);
    BeatEnds(SECOND, CFG, Report(11, BACK), 11, Drawing(9), SECOND.(clock := 11), Heard(TWICE, false), TWICE, TWICE);
  }

  // ---------------------------------------------------------------- the histories

  const START := Trace([INITIAL], [], [])

  function Last(h: Trace): World
    requires h.worlds != []
  {
    h.worlds[|h.worlds| - 1]
  }

  function Then(h: Trace, e: Event, w: World, reply: Reply): Trace {
    Trace(h.worlds + [w], h.events + [e], h.replies + [reply])
  }

  lemma RunThen(cfg: Config, h: Trace, e: Event, w: World, reply: Reply)
    requires Run(cfg, h) && Follows(cfg, Last(h), e, w, reply)
    ensures Run(cfg, Then(h, e, w, reply)) && Last(Then(h, e, w, reply)) == w
  {
    hide Follows;
    var h' := Then(h, e, w, reply);
    forall i | 0 <= i < |h'.events| ensures Follows(cfg, h'.worlds[i], h'.events[i], h'.worlds[i + 1], h'.replies[i]) {
      if i < |h.events| {
        assert Follows(cfg, h.worlds[i], h.events[i], h.worlds[i + 1], h.replies[i]);
      }
    }
  }

  /** One more call, whose identifiers are new. */
  lemma CallThen(h: Trace, p: Principal, r: Request, now: nat, a: Id, db: Database, reply: Reply) returns (h': Trace)
    requires Run(CFG, h) && Handle(Last(h).db, CFG, p, r, now, Drawing(a)) == (db, reply)
    requires Last(h).db.core.tasks == map[] || a !in Last(h).issued
    ensures |h'.worlds| == |h.worlds| + 1 && |h'.events| == |h.events| + 1 && h'.worlds[..|h.worlds|] == h.worlds
    ensures Run(CFG, h') && Last(h') == Remember(Last(h), db)
  {
    hide Handle;
    var e := Call(p, r, now, Drawing(a));
    assert DrawnBy(Last(h).db, Drawing(a)) <= {a};
    assert Last(h).db.core.tasks == map[] ==> DrawnBy(Last(h).db, Drawing(a)) == {};
    h' := Then(h, e, Remember(Last(h), db), reply);
    RunThen(CFG, h, e, Remember(Last(h), db), reply);
  }

  lemma BackupThen(h: Trace) returns (h': Trace)
    requires Run(CFG, h)
    ensures Run(CFG, h') && Last(h') == Last(h).(saved := Last(h).saved + [Last(h).db])
  {
    var w := Last(h).(saved := Last(h).saved + [Last(h).db]);
    h' := Then(h, Backup, w, Done);
    RunThen(CFG, h, Backup, w, Done);
  }

  lemma RestoreThen(h: Trace) returns (h': Trace)
    requires Run(CFG, h) && |Last(h).saved| == 1
    ensures h' == Then(h, RestoreBackup(0), Remember(Last(h), Restore(Last(h).saved[0])), Done) && Run(CFG, h')
  {
    var w := Remember(Last(h), Restore(Last(h).saved[0]));
    h' := Then(h, RestoreBackup(0), w, Done);
    RunThen(CFG, h, RestoreBackup(0), w, Done);
  }

  /** The job is submitted and a backup is taken. */
  lemma SavedTrace() returns (h: Trace)
    ensures Run(CFG, h) && Last(h) == World(SUBMITTED, [SUBMITTED], map[])
  {
    hide Handle, Run;
    assert Run(CFG, START) by { StartRuns(); }
    PutsPool();
    h := CallThen(START, Operator, PutPool(1, POOL), 0, 7, WITH_POOL, Done);
    Submits();
    h := CallThen(h, Operator, SubmitJob(2, JOB), 0, 7, SUBMITTED, Done);
    h := BackupThen(h);
  }

  lemma StartRuns()
    ensures Run(CFG, START)
  {
  }

  const ONE_ISSUED := map[7 := Attempt(3, 1)]

  /** And attempt 7 is offered. */
  lemma OfferedTrace() returns (h: Trace)
    ensures Run(CFG, h) && Last(h) == World(OFFERED, [SUBMITTED], ONE_ISSUED)
  {
    hide Handle, Run;
    h := SavedTrace();
    OffersFirst();
    h := CallThen(h, Node(1), Heartbeat(Report(0, [])), 0, 7, OFFERED, Done);
    assert map[] + OFFERED.core.assignments == ONE_ISSUED;
  }

  lemma LeasedTrace() returns (h: Trace)
    ensures Run(CFG, h) && Last(h) == World(LEASED, [SUBMITTED], ONE_ISSUED)
  {
    hide Handle, Run;
    h := OfferedTrace();
    LeasesFirst();
    h := CallThen(h, Node(1), Request.Prepared(7, 1, 0, PREPARED), 0, 8, LEASED, Leased(FIRST_LEASE));
    assert ONE_ISSUED + LEASED.core.assignments == ONE_ISSUED;
  }

  /**
   A fence set after the backup was taken is lost by restoring it: attempt 7 is leased, expires and is fenced,
   and the restored tables know neither the attempt nor its fence. It stays gone all the same.
   */
  lemma RestoreCanDropFence() returns (h: Trace, n: nat)
    ensures Run(CFG, h) && n + 1 == |h.events| && h.events[n] == RestoreBackup(0)
    ensures 7 in h.worlds[n].db.core.reservations && h.worlds[n].db.core.reservations[7].leaseSequence == 1
    ensures 7 in h.worlds[n].db.core.fences && 7 !in h.worlds[n + 1].db.core.fences && Gone(h.worlds[n + 1], 7)
  {
    hide Handle, Run;
    h := LeasedTrace();
    Expires();
    h := CallThen(h, Operator, Cancel(99), 10, 8, EXPIRED, Refused);
    RunShape(h);
    n := |h.events|;
    h := RestoreThen(h);
  }

  lemma RunShape(h: Trace)
    requires Run(CFG, h)
    ensures |h.worlds| == |h.events| + 1 && |h.replies| == |h.events|
  {
  }

  /** An accepted result is lost the same way: task 3 is completed with a receipt, then queued and without a result. */
  lemma RestoreCanLoseResult() returns (h: Trace, n: nat)
    ensures Run(CFG, h) && n + 1 == |h.events| && h.events[n] == RestoreBackup(0)
    ensures 3 in h.worlds[n].db.core.tasks && h.worlds[n].db.core.tasks[3].status == Completed
    ensures h.worlds[n].db.core.tasks[3].receipt.Some? && 3 in h.worlds[n].db.work.results
    ensures 3 in h.worlds[n + 1].db.core.tasks && h.worlds[n + 1].db.core.tasks[3].status == Queued
    ensures 3 !in h.worlds[n + 1].db.work.results
  {
    hide Handle, Run;
    h := LeasedTrace();
    Completes();
    h := CallThen(h, Node(1), Complete(RESULT), 0, 8, COMPLETED, Receipt(3, 5));
    RunShape(h);
    n := |h.events|;
    h := RestoreThen(h);
  }

  /**
   Two unreleased reservations of one task: attempt 7 is reported released, attempt 8 is offered, and a newer
   report brings attempt 7 back. It comes back fenced.
   */
  lemma TwoHeld() returns (h: Trace)
    ensures Run(CFG, h) && Held(Last(h).db.core, 3) == {7, 8} && |Held(Last(h).db.core, 3)| == 2
    ensures 7 in Last(h).db.core.fences
  {
    hide Handle, Run;
    h := SecondTrace();
    HoldsTwo();
    h := CallThen(h, Node(1), Heartbeat(Report(11, BACK)), 11, 9, TWICE, Done);
    BothHeld();
    hide Held;
  }

  lemma SecondTrace() returns (h: Trace)
    ensures Run(CFG, h) && Last(h).db == SECOND && 9 !in Last(h).issued
  {
    hide Handle, Run;
    h := OfferedTrace();
    OffersSecond();
    h := CallThen(h, Node(1), Heartbeat(Report(10, GONE)), 10, 8, SECOND, Done);
  }

  lemma BothHeld()
    ensures Held(TWICE.core, 3) == {7, 8}
  {
  }
}
