/** What ties the authority tables to the catalogue: foreign keys, and the immutable attempt budget of each task. */
module CoordinatorCatalogue {
  import opened Options
  import opened ResourceVectors
  import opened Listings
  import opened CoordinatorCore
  import opened CoordinatorTables
  import opened CoordinatorRules
  import opened CoordinatorSchedule
  import opened CoordinatorSafety
  import opened CoordinatorRuns
  import opened CoordinatorHistory

  /** No task has had more attempts than its budget allows. */
  predicate WithinBudget(db: Database, t: Id) {
    var limit := SpecOf(db, t).request.maxAttempts;
    limit.Some? ==> TaskRow(db.core, t).generation <= limit.value
  }

  ghost predicate Catalogued(db: Database) {
    && db.specs.Keys == db.core.tasks.Keys
    && (forall t :: t in db.specs ==> db.specs[t].job in db.jobs)
    && (forall j :: j in db.jobs ==> db.jobs[j].pool in db.pools)
    && (forall a :: a in db.core.reservations ==> db.core.reservations[a].node in db.nodes)
    && (forall t :: t in db.core.tasks ==> WithinBudget(db, t))
    && Numbered(db)
  }

  /** No two tasks share a submission number. */
  ghost predicate Numbered(db: Database) {
    forall t, u :: t in db.specs && u in db.specs && t != u ==> db.specs[t].sequence != db.specs[u].sequence
  }

  /** The catalogue is as it was, but for nodes seen for the first time. */
  predicate SameCatalogue(db: Database, db': Database) {
    db'.specs == db.specs && db'.jobs == db.jobs && db'.pools == db.pools && db.nodes.Keys <= db'.nodes.Keys
  }

  /** No attempt is opened and no reservation changes its node. */
  ghost predicate SameOwners(c: Core, c': Core) {
    && c'.tasks.Keys == c.tasks.Keys && c'.reservations.Keys == c.reservations.Keys
    && (forall t :: t in c.tasks ==> c'.tasks[t].generation == c.tasks[t].generation)
    && (forall a :: a in c.reservations ==> c'.reservations[a].node == c.reservations[a].node)
  }

  lemma SameKeeps(db: Database, db': Database)
    requires Catalogued(db) && SameCatalogue(db, db') && SameOwners(db.core, db'.core)
    ensures Catalogued(db')
  {
    forall t | t in db'.core.tasks ensures WithinBudget(db', t) {
      assert WithinBudget(db, t);
    }
  }

  lemma RoutineOwners(c: Core, c': Core)
    requires Routine(c, c')
    ensures SameOwners(c, c')
  {
    forall a | a in c.reservations ensures c'.reservations[a].node == c.reservations[a].node {
      assert RowForward(c, c', a);
    }
  }

  lemma RoutineKeeps(db: Database, db': Database)
    requires Catalogued(db) && SameCatalogue(db, db') && Routine(db.core, db'.core)
    ensures Catalogued(db')
  {
    RoutineOwners(db.core, db'.core);
    hide Routine;
    SameKeeps(db, db');
  }

  // ---------------------------------------------------------------- scheduling

  lemma OfferKeepsCatalogue(db: Database, cfg: Config, report: NodeReport, now: nat, t: Id, a: Id)
    requires Catalogued(db) && t in db.core.tasks && report.node in db.nodes && !Exhausted(db, t)
    ensures Catalogued(Offer(db, cfg, report, now, t, a))
  {
    var db' := Offer(db, cfg, report, now, t, a);
    forall u | u in db'.core.tasks ensures WithinBudget(db', u) {
      assert WithinBudget(db, u);
    }
  }

  lemma JudgedNotExhausted(p: Pass, report: NodeReport, now: nat, t: Id)
    requires t in p.db.core.tasks && Judge(p, report, now, t).Place?
    ensures p.slots > 0 && !Exhausted(p.db, t)
  {
    hide Preempt, Add, FitsRequested, PoolWorkers, Held;
  }

  lemma EnactCatalogue(p: Pass, cfg: Config, report: NodeReport, now: nat, t: Id, a: Id, v: Verdict)
    requires Catalogued(p.db) && t in p.db.core.tasks && report.node in p.db.nodes
    requires v.Place? ==> p.slots > 0 && !Exhausted(p.db, t)
    requires Enact(p, cfg, report, now, t, a, v).Some?
    ensures Catalogued(Enact(p, cfg, report, now, t, a, v).value.db)
  {
    if v.Place? {
      OfferKeepsCatalogue(p.db, cfg, report, now, t, a);
      hide Offer;
    } else {
      SameKeeps(p.db, Enact(p, cfg, report, now, t, a, v).value.db);
    }
    hide Catalogued;
  }

  lemma ConsiderCatalogue(p: Pass, cfg: Config, report: NodeReport, now: nat, t: Id, a: Id)
    requires Catalogued(p.db) && t in p.db.core.tasks && report.node in p.db.nodes
    requires Consider(p, cfg, report, now, t, a).Some?
    ensures Catalogued(Consider(p, cfg, report, now, t, a).value.db)
  {
    var v := Judge(p, report, now, t);
    if v.Place? {
      JudgedNotExhausted(p, report, now, t);
    }
    EnactCatalogue(p, cfg, report, now, t, a, v);
  }

  lemma {:induction false} PassCatalogue(p: Pass, cfg: Config, report: NodeReport, now: nat, queue: seq<Id>, uuid: Id -> Id)
    requires Catalogued(p.db) && report.node in p.db.nodes && (forall t :: t in queue ==> t in p.db.core.tasks)
    requires ConsiderAll(p, cfg, report, now, queue, uuid).Some?
    ensures Catalogued(ConsiderAll(p, cfg, report, now, queue, uuid).value.db)
  {
    if queue != [] {
      var n := |queue| - 1;
      assert queue[n] in queue;
      PassCatalogue(p, cfg, report, now, queue[..n], uuid);
      ConsiderCatalogue(ConsiderAll(p, cfg, report, now, queue[..n], uuid).value, cfg, report, now, queue[n],
                        uuid(queue[n]));
      hide Catalogued;
    }
  }

  lemma ScheduleCatalogue(db: Database, cfg: Config, report: NodeReport, now: nat, uuid: Id -> Id)
    requires Catalogued(db) && report.node in db.nodes && Schedule(db, cfg, report, now, uuid).Some?
    ensures Catalogued(Schedule(db, cfg, report, now, uuid).value)
  {
    if !(db.nodes[report.node].drain || !ReplayNodeCanAdmit(db, report.node)) {
      PassCatalogue(Pass(db, NodeCharge(db, report.node).value, FreeSlots(db, report)), cfg, report, now, Queue(db), uuid);
    }
    hide Catalogued;
  }

  // ---------------------------------------------------------------- handlers

  lemma MergeCatalogue(db: Database, cfg: Config, report: NodeReport, now: nat)
    requires MergeReport(db, cfg, report, now).Some?
    ensures SameCatalogue(db, MergeReport(db, cfg, report, now).value.db)
  {
    hide MergeAll, MergeOne, ReportAdmissible, FenceMissing, Missing;
  }

  lemma FailureCatalogue(db: Database, cfg: Config, a: Id, generation: nat, kind: FailureKind, now: nat)
    requires RecordFailure(db, cfg, a, generation, kind, now).Some?
    ensures SameCatalogue(db, RecordFailure(db, cfg, a, generation, kind, now).value)
  {
    hide FailureOutcome, Conclude;
    if a in db.failures {
      assert RecordFailure(db, cfg, a, generation, kind, now).value == db;
    } else if TaskRow(db.core, TaskOf(db.core, a)).status == Completed {
    } else {
    }
  }

  lemma {:induction false} LateReleasesCatalogue(db: Database, cfg: Config, reports: seq<AllocationReport>, now: nat)
    ensures SameCatalogue(db, LateReleases(db, cfg, reports, now).0)
  {
    if reports != [] {
      var n := |reports| - 1;
      LateReleasesCatalogue(db, cfg, reports[..n], now);
      var before := LateReleases(db, cfg, reports[..n], now).0;
      if RecordFailure(before, cfg, reports[n].assignment, reports[n].generation, Yielded, now).Some? {
        FailureCatalogue(before, cfg, reports[n].assignment, reports[n].generation, Yielded, now);
      }
      hide RecordFailure, LateRelease;
    }
  }

  lemma BeatCutCatalogue(db: Database, cfg: Config, report: NodeReport, now: nat, releases: nat)
    requires Authority(db.core) && Catalogued(db) && releases <= |report.allocations|
    ensures Catalogued(BeatCut(db, cfg, report, now, releases))
  {
    var heard := MergeReport(db, cfg, report, now);
    BeatCutRoutine(db, cfg, report, now, releases);
    if heard.Some? {
      MergeCatalogue(db, cfg, report, now);
      LateReleasesCatalogue(heard.value.db, cfg, report.allocations[..releases], now);
    }
    hide MergeReport, LateReleases, Routine;
    assert SameCatalogue(db, BeatCut(db, cfg, report, now, releases));
    hide BeatCut;
    RoutineStep(db, BeatCut(db, cfg, report, now, releases));
  }

  lemma RoutineStep(db: Database, db': Database)
    ensures Catalogued(db) && SameCatalogue(db, db') && Routine(db.core, db'.core) ==> Catalogued(db')
  {
    if Catalogued(db) && SameCatalogue(db, db') && Routine(db.core, db'.core) {
      RoutineKeeps(db, db');
    }
  }

  lemma BeatCatalogue(db: Database, cfg: Config, report: NodeReport, now: nat, uuid: Id -> Id)
    requires Authority(db.core) && Catalogued(db)
    ensures Catalogued(Beat(db, cfg, report, now, uuid).0)
  {
    var heard := MergeReport(db, cfg, report, now);
    if heard.Some? {
      var n := |report.allocations|;
      assert report.allocations[..n] == report.allocations;
      var released := LateReleases(heard.value.db, cfg, report.allocations, now).0;
      assert released == BeatCut(db, cfg, report, now, n);
      BeatCutCatalogue(db, cfg, report, now, n);
      ScheduleCatalogued(released, cfg, report, now, uuid);
      hide Catalogued, Schedule, BeatCut;
    }
  }

  lemma ScheduleCatalogued(db: Database, cfg: Config, report: NodeReport, now: nat, uuid: Id -> Id)
    ensures Catalogued(db) && report.node in db.nodes && Schedule(db, cfg, report, now, uuid).Some? ==>
              Catalogued(Schedule(db, cfg, report, now, uuid).value)
  {
    if Catalogued(db) && report.node in db.nodes && Schedule(db, cfg, report, now, uuid).Some? {
      ScheduleCatalogue(db, cfg, report, now, uuid);
    }
  }

  /** A job's new tasks: attempted zero times, specified, and in that job. */
  ghost predicate Adds(db: Database, db': Database, id: Id, job: Job) {
    && db'.pools == db.pools && db'.nodes == db.nodes && db'.core.reservations == db.core.reservations
    && db'.jobs == db.jobs[id := job] && job.pool in db.pools
    && db'.core.tasks.Keys == db.core.tasks.Keys + job.tasks.Keys && db'.specs.Keys == db.specs.Keys + job.tasks.Keys
    && (forall t :: t in job.tasks ==> db'.core.tasks[t].generation == 0 && db'.specs[t].job == id)
    && (forall t :: t in db.core.tasks && t !in job.tasks ==> db'.core.tasks[t] == db.core.tasks[t])
    && (forall t :: t in db.specs && t !in job.tasks ==> db'.specs[t] == db.specs[t])
  }

  lemma EnrollAdds(db: Database, id: Id, job: Job, sequences: map<Id, nat>)
    requires job.tasks.Keys <= sequences.Keys && job.pool in db.pools
    ensures Adds(db, Enroll(db, id, job, sequences), id, job)
  {
  }

  lemma AddsKeep(db: Database, db': Database, id: Id, job: Job)
    requires Catalogued(db) && Adds(db, db', id, job) && id !in db.jobs && Numbered(db')
    ensures Catalogued(db')
  {
    forall t | t in db'.core.tasks ensures WithinBudget(db', t) {
      assert t !in job.tasks ==> WithinBudget(db, t);
    }
  }

  lemma EnrollNumbers(db: Database, id: Id, job: Job, sequences: map<Id, nat>)
    requires Numbered(db) && Autoincrements(db, job.tasks.Keys, sequences) && job.tasks.Keys !! db.specs.Keys
    ensures Numbered(Enroll(db, id, job, sequences))
  {
  }

  lemma SubmitCatalogue(db: Database, id: Id, job: Job, sequences: map<Id, nat>)
    requires Catalogued(db) && Submit(db, id, job, sequences).Some?
    ensures Catalogued(Submit(db, id, job, sequences).value)
  {
    if id !in db.jobs {
      EnrollAdds(db, id, job, sequences);
      EnrollNumbers(db, id, job, sequences);
      AddsKeep(db, Enroll(db, id, job, sequences), id, job);
    }
    hide Catalogued;
  }

  lemma LeaseCatalogue(db: Database, cfg: Config, a: Id, generation: nat, previous: Option<nat>, now: nat)
    requires Catalogued(db) && Grant(db, cfg, a, generation, previous, now).Some?
    ensures Catalogued(Grant(db, cfg, a, generation, previous, now).value.0)
  {
    GrantShape(db, cfg, a, generation, previous, now);
    hide Grant;
    SameKeeps(db, Grant(db, cfg, a, generation, previous, now).value.0);
  }

  lemma PrepareCatalogue(db: Database, cfg: Config, p: Principal, r: Request, now: nat)
    requires Catalogued(db)
    ensures r.Prepared? ==> Catalogued(Prepare(db, cfg, p, r.assignment, r.generation, r.epoch, r.record, now).0)
    ensures r.Prepared? ==> Catalogued(Or(db, RecordPreparation(db, p, r.assignment, r.generation, r.epoch, r.record)).0)
    ensures r.Renew? ==>
      Catalogued(CoordinatorRules.Renew(db, cfg, p, r.assignment, r.generation, r.epoch, r.previous, now).0)
  {
    if r.Prepared? {
      var recorded := RecordPreparation(db, p, r.assignment, r.generation, r.epoch, r.record);
      if recorded.Some? {
        SameKeeps(db, recorded.value);
        if Grant(recorded.value, cfg, r.assignment, r.generation, None, now).Some? {
          LeaseCatalogue(recorded.value, cfg, r.assignment, r.generation, None, now);
        }
      }
    } else if r.Renew? {
      if Grant(db, cfg, r.assignment, r.generation, Some(r.previous), now).Some? {
        LeaseCatalogue(db, cfg, r.assignment, r.generation, Some(r.previous), now);
      }
    }
    hide Catalogued, Grant, MayAct, PreparedAcceptable, CurrentAttempt;
  }

  lemma AcceptCatalogue(db: Database, cfg: Config, p: Principal, s: Submission, intact: set<Artifact>, checkpoint: bool)
    requires Catalogued(db)
    ensures Catalogued(Credited(db, s.task, Accept(db, cfg, p, s, intact, checkpoint)).0)
  {
    if Accept(db, cfg, p, s, intact, checkpoint).Some? {
      AcceptCases(db, cfg, p, s, intact, checkpoint);
      hide Accept;
      SameKeeps(db, Accept(db, cfg, p, s, intact, checkpoint).value.0);
    }
  }

  lemma RoutineHandlers(db: Database, cfg: Config, p: Principal, r: Request, now: nat, o: Oracle)
    requires Authority(db.core) && Catalogued(db) && (r.OpenSession? || r.Retry? || r.Fail?)
    ensures Catalogued(Execute(db, cfg, p, r, now, o).0)
  {
    hide Or, OpenReplaySession, RetryTask, RecordFailure;
    if r.OpenSession? {
      SessionCatalogue(db, r.node, r.boot, r.session);
    } else if r.Retry? {
      RetryCatalogue(db, r.task, r.confirmed);
    } else {
      FailCatalogue(db, cfg, r.assignment, r.generation, r.kind, now);
    }
  }

  lemma SessionCatalogue(db: Database, node: Id, boot: Id, session: Id)
    requires Authority(db.core) && Catalogued(db)
    ensures Catalogued(Or(db, OpenReplaySession(db, node, boot, session)).0)
  {
    var next := OpenReplaySession(db, node, boot, session);
    if next.Some? {
      SessionRoutine(db, node, boot, session);
      RoutineKeeps(db, next.value);
    }
    hide OpenReplaySession, Catalogued;
  }

  lemma RetryCatalogue(db: Database, task: Id, confirmed: bool)
    requires Authority(db.core) && Catalogued(db)
    ensures Catalogued(Or(db, RetryTask(db, task, confirmed)).0)
  {
    var next := RetryTask(db, task, confirmed);
    if next.Some? {
      RetryTaskRoutine(db, task, confirmed);
      RoutineKeeps(db, next.value);
    }
    hide RetryTask, Catalogued;
  }

  lemma FailCatalogue(db: Database, cfg: Config, a: Id, generation: nat, kind: FailureKind, now: nat)
    requires Authority(db.core) && Catalogued(db)
    ensures Catalogued(Or(db, RecordFailure(db, cfg, a, generation, kind, now)).0)
  {
    var next := RecordFailure(db, cfg, a, generation, kind, now);
    if next.Some? {
      RecordFailureRoutine(db, cfg, a, generation, kind, now);
      FailureCatalogue(db, cfg, a, generation, kind, now);
      hide RecordFailure;
      RoutineKeeps(db, next.value);
    }
  }

  /** Pools, job flags and node rows may change; budgets and owners do not. */
  lemma CatalogueWrites(db: Database, db': Database)
    requires Catalogued(db) && db'.core == db.core && db'.specs == db.specs
    requires db.pools.Keys <= db'.pools.Keys && db'.jobs.Keys == db.jobs.Keys && db'.nodes.Keys == db.nodes.Keys
    requires forall j :: j in db.jobs ==> db'.jobs[j].pool == db.jobs[j].pool
    ensures Catalogued(db')
  {
    forall t | t in db'.core.tasks ensures WithinBudget(db', t) {
      assert WithinBudget(db, t);
    }
  }

  lemma PoolCatalogue(db: Database, id: Id, pool: Pool)
    requires Catalogued(db)
    ensures Catalogued(Or(db, CoordinatorRules.PutPool(db, id, pool)).0)
  {
    var next := CoordinatorRules.PutPool(db, id, pool);
    if next.Some? {
      CatalogueWrites(db, next.value);
    }
  }

  lemma CancelCatalogue(db: Database, job: Id)
    requires Catalogued(db)
    ensures Catalogued(Or(db, CancelJob(db, job)).0)
  {
    var next := CancelJob(db, job);
    if next.Some? {
      CatalogueWrites(db, next.value);
    }
  }

  lemma DrainCatalogue(db: Database, node: Id, drain: bool)
    requires Catalogued(db)
    ensures Catalogued(Or(db, SetDrain(db, node, drain)).0)
  {
    var next := SetDrain(db, node, drain);
    if next.Some? {
      CatalogueWrites(db, next.value);
    }
  }

  lemma UploadCatalogue(db: Database, p: Principal, a: Id, generation: nat, artifact: Artifact)
    requires Catalogued(db)
    ensures Catalogued(Or(db, CoordinatorRules.CommitUpload(db, p, a, generation, artifact)).0)
  {
    hide MayAct, CurrentAttempt;
    var more := db.(work := db.work.(publications := db.work.publications + {(a, generation, artifact)}));
    CatalogueWrites(db, more);
    hide Catalogued;
    if exists row :: row in db.work.publications && row.0 == a && row.2.sha == artifact.sha {
    } else {
    }
  }

  lemma PlainHandlers(db: Database, cfg: Config, p: Principal, r: Request, now: nat, o: Oracle)
    requires Catalogued(db) && (r.NodeSession? || r.PutPool? || r.Cancel? || r.DrainNode? || r.CommitUpload?)
    ensures Catalogued(Execute(db, cfg, p, r, now, o).0)
  {
    hide Or, CancelJob, SetDrain, CoordinatorRules.PutPool, CoordinatorRules.CommitUpload;
    if r.PutPool? {
      PoolCatalogue(db, r.pool, r.poolSpec);
    } else if r.Cancel? {
      CancelCatalogue(db, r.job);
    } else if r.DrainNode? {
      DrainCatalogue(db, r.node, r.drain);
    } else if r.CommitUpload? {
      UploadCatalogue(db, p, r.assignment, r.generation, r.artifact);
    }
  }

  lemma ExecuteCatalogue(db: Database, cfg: Config, p: Principal, r: Request, now: nat, o: Oracle)
    requires Authority(db.core) && Catalogued(db)
    ensures Catalogued(Execute(db, cfg, p, r, now, o).0)
  {
    if r.OpenSession? || r.Retry? || r.Fail? {
      hide Execute;
      RoutineHandlers(db, cfg, p, r, now, o);
    } else if r.Heartbeat? {
      hide Beat;
      BeatCatalogue(db, cfg, r.report, now, o.uuid);
    } else if r.Prepared? || r.Renew? {
      hide Prepare, CoordinatorRules.Renew;
      PrepareCatalogue(db, cfg, p, r, now);
    } else if r.Complete? || r.PublishCheckpoint? {
      hide Accept, Credited;
      AcceptCatalogue(db, cfg, p, r.submission, o.intact, r.PublishCheckpoint?);
    } else if r.SubmitJob? {
      hide Submit;
      if Submit(db, r.job, r.jobSpec, o.sequences).Some? {
        SubmitCatalogue(db, r.job, r.jobSpec, o.sequences);
      }
    } else {
      hide Execute;
      PlainHandlers(db, cfg, p, r, now, o);
    }
  }

  // ---------------------------------------------------------------- whole histories

  lemma ClockCatalogue(db: Database, now: nat)
    requires Authority(db.core) && Catalogued(db)
    ensures Catalogued(AdvanceClock(db, now)) && Authority(AdvanceClock(db, now).core)
  {
    AdvanceRoutine(db, now);
    assert SameCatalogue(db, AdvanceClock(db, now));
    hide AdvanceClock;
    RoutineKeeps(db, AdvanceClock(db, now));
  }

  lemma ReadyCatalogue(db: Database, cfg: Config, p: Principal, r: Request, now: nat, o: Oracle)
    requires Authority(db.core) && Catalogued(db)
    ensures Catalogued(Execute(AdvanceClock(db, now), cfg, p, r, now, o).0)
  {
    hide Execute, AdvanceClock;
    ClockCatalogue(db, now);
    ExecuteCatalogue(AdvanceClock(db, now), cfg, p, r, now, o);
  }

  lemma HandleCatalogue(db: Database, cfg: Config, p: Principal, r: Request, now: nat, o: Oracle)
    requires Authority(db.core) && Catalogued(db)
    ensures Catalogued(Handle(db, cfg, p, r, now, o).0)
  {
    hide Execute, AdvanceClock;
    var inner := ValidateSession(db, p, r);
    if inner.Some? && now >= db.clock {
      ReadyCatalogue(db, cfg, p, inner.value, now, o);
    }
  }

  lemma ExpiryCutCatalogue(db: Database, now: nat, rows: nat, writes: nat)
    requires Authority(db.core) && Catalogued(db) && rows < |DueOrder(db, now)| && writes <= 3
    ensures Catalogued(AdvanceCut(db, now, rows, writes))
  {
    AdvanceCutRoutine(db, now, rows, writes);
    hide Routine, ExpireRow, ExpireRows, DueOrder;
    RoutineStep(db, AdvanceCut(db, now, rows, writes));
  }

  lemma CutCatalogue(db: Database, cfg: Config, p: Principal, r: Request, now: nat, cut: Cut)
    requires Authority(db.core) && Catalogued(db)
    ensures Catalogued(HandleCut(db, cfg, p, r, now, cut))
  {
    hide AdvanceClock, AdvanceCut, BeatCut, RecordPreparation, Or, DueOrder;
    var inner := ValidateSession(db, p, r);
    hide ValidateSession;
    if inner.None? || now < db.clock {
    } else if cut.InExpiry? {
      if cut.rows < |DueOrder(db, now)| && cut.writes <= 3 {
        ExpiryCutCatalogue(db, now, cut.rows, cut.writes);
      }
    } else {
      ClockCatalogue(db, now);
      LateCutCatalogue(AdvanceClock(db, now), cfg, p, inner.value, now, cut);
    }
  }

  lemma LateCutCatalogue(ready: Database, cfg: Config, p: Principal, q: Request, now: nat, cut: Cut)
    requires Authority(ready.core) && Catalogued(ready)
    ensures cut.InBeat? && q.Heartbeat? && cut.releases <= |q.report.allocations| ==>
      Catalogued(BeatCut(ready, cfg, q.report, now, cut.releases))
    ensures q.Prepared? ==>
      Catalogued(Or(ready, RecordPreparation(ready, p, q.assignment, q.generation, q.epoch, q.record)).0)
  {
    if cut.InBeat? && q.Heartbeat? && cut.releases <= |q.report.allocations| {
      BeatCutCatalogue(ready, cfg, q.report, now, cut.releases);
    }
    PrepareCatalogue(ready, cfg, p, q, now);
    hide BeatCut, RecordPreparation, Or, Catalogued;
  }

  ghost predicate AllCatalogued(w: World) {
    Catalogued(w.db) && forall i :: 0 <= i < |w.saved| ==> Catalogued(w.saved[i])
  }

  lemma RestoreCatalogue(saved: Database)
    requires Authority(saved.core) && Catalogued(saved)
    ensures Catalogued(Restore(saved)) && Catalogued(Restart(saved))
  {
    RestoreRoutine(saved.core);
    RoutineKeeps(saved, Restore(saved));
    RestartRoutine(saved.core);
    RoutineKeeps(saved, Restart(saved));
  }

  lemma EventCatalogue(cfg: Config, w: World, e: Event)
    requires Healthy(cfg, w) && AllCatalogued(w)
    ensures AllCatalogued(Apply(cfg, w, e).0)
  {
    hide Handle, HandleCut, Restart, Restore, Catalogued;
    match e {
      case Call(p, r, now, o) => HandleCatalogued(w.db, cfg, p, r, now, o);
      case Crash(p, r, now, cut) => CutCatalogued(w.db, cfg, p, r, now, cut);
      case Reopen => RestoreCatalogued(w.db);
      case Backup =>
      case RestoreBackup(k) =>
        if k < |w.saved| {
          RestoreCatalogued(w.saved[k]);
        }
    }
  }

  lemma HandleCatalogued(db: Database, cfg: Config, p: Principal, r: Request, now: nat, o: Oracle)
    requires Authority(db.core)
    ensures Catalogued(db) ==> Catalogued(Handle(db, cfg, p, r, now, o).0)
  {
    hide Handle;
    if Catalogued(db) {
      HandleCatalogue(db, cfg, p, r, now, o);
    }
  }

  lemma CutCatalogued(db: Database, cfg: Config, p: Principal, r: Request, now: nat, cut: Cut)
    requires Authority(db.core)
    ensures Catalogued(db) ==> Catalogued(HandleCut(db, cfg, p, r, now, cut))
  {
    hide HandleCut;
    if Catalogued(db) {
      CutCatalogue(db, cfg, p, r, now, cut);
    }
  }

  lemma RestoreCatalogued(db: Database)
    requires Authority(db.core)
    ensures Catalogued(db) ==> Catalogued(Restore(db)) && Catalogued(Restart(db))
  {
    if Catalogued(db) {
      RestoreCatalogue(db);
    }
  }

  /** In every reachable state no lookup misses its row, and no task has exceeded its immutable attempt budget. */
  lemma {:induction false} RunCatalogued(cfg: Config, h: Trace, i: nat)
    requires Run(cfg, h) && i < |h.worlds|
    ensures AllCatalogued(h.worlds[i])
  {
    if i > 0 {
      RunCatalogued(cfg, h, i - 1);
      RunHealthy(cfg, h, i - 1);
      assert Follows(cfg, h.worlds[i - 1], h.events[i - 1], h.worlds[i], h.replies[i - 1]);
      EventCatalogue(cfg, h.worlds[i - 1], h.events[i - 1]);
      hide Apply, AllCatalogued;
    }
  }
}
