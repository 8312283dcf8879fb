/**
 Whole runs of the coordinator: authenticated calls in any order, a crash between any two commits of a
 call, restarts, backups, and restores of any earlier backup.
 */
module CoordinatorRuns {
  import opened Options
  import opened ResourceVectors
  import opened Listings
  import opened CoordinatorCore
  import opened CoordinatorTables
  import opened CoordinatorRules
  import opened CoordinatorSchedule
  import opened CoordinatorSafety

  datatype Request =
    | OpenSession(node: Id, boot: Id, session: Id)
    | NodeSession(session: Id, inner: Request)
    | PutPool(pool: Id, poolSpec: Pool)
    | SubmitJob(job: Id, jobSpec: Job)
    | Retry(task: Id, confirmed: bool)
    | Cancel(job: Id)
    | DrainNode(node: Id, drain: bool)
    | Heartbeat(report: NodeReport)
    | Prepared(assignment: Id, generation: nat, epoch: nat, record: PreparedRecord)
    | Renew(assignment: Id, generation: nat, epoch: nat, previous: nat)
    | Complete(submission: Submission)
    | PublishCheckpoint(submission: Submission)
    | Fail(assignment: Id, generation: nat, kind: FailureKind)
    | CommitUpload(assignment: Id, generation: nat, artifact: Artifact)

  datatype Reply = Refused | Done | Leased(lease: Lease) | Receipt(task: Id, hash: Id)

  /** What the call draws from outside: new UUIDs, autoincrement values, and which stored artifacts verify. */
  datatype Oracle = Oracle(uuid: Id -> Id, sequences: map<Id, nat>, intact: set<Artifact>)

  // ---------------------------------------------------------------- one call

  /** A registered replay node must speak through its current session; the wrapper is removed here. */
  function ValidateSession(db: Database, p: Principal, r: Request): Option<Request> {
    match r
    case OpenSession(node, boot, session) =>
      if p == Node(node) && (node, session) !in db.retired then Some(r) else None
    case NodeSession(session, inner) =>
      if p.Node? && !inner.NodeSession? && !inner.OpenSession? && p.node in db.sessions
         && db.sessions[p.node].session == session
         && (db.sessions[p.node].ready || inner.Heartbeat?)
         && (inner.Heartbeat? ==> inner.report.node == p.node && inner.report.boot == db.sessions[p.node].boot)
      then Some(inner) else None
    case _ =>
      if p.Node? && p.node in db.sessions then None else Some(r)
  }

  /** Releases reported after the task went back to the queue, one transaction each, up to the first error. */
  function LateReleases(db: Database, cfg: Config, reports: seq<AllocationReport>, now: nat): (Database, bool) {
    if reports == [] then (db, true) else
    var n := |reports| - 1;
    var (before, ok) := LateReleases(db, cfg, reports[..n], now);
    if !ok || !LateRelease(before, reports[n]) then (before, ok) else
    match RecordFailure(before, cfg, reports[n].assignment, reports[n].generation, Yielded, now)
    case None => (before, false)
    case Some(after) => (after, true)
  }

  predicate ObservedLive(report: NodeReport) {
    forall i :: 0 <= i < |report.allocations| ==>
      (report.allocations[i].phase in {Running, Draining, Authorized, Uncertain} ==>
         report.allocations[i].observed.Some?)
  }

  predicate MaySchedule(cfg: Config, report: NodeReport, now: nat, clean: bool) {
    Monus(now, report.observedAt) <= cfg.telemetryTtl && ObservedLive(report) && clean && report.expansionAllowed
  }

  /** The merge transaction, the late releases, then one scheduling pass when the evidence is fresh and clean. */
  function Beat(db: Database, cfg: Config, report: NodeReport, now: nat, uuid: Id -> Id): (Database, bool) {
    match MergeReport(db, cfg, report, now)
    case None => (db, false)
    case Some(heard) =>
      var (released, ok) := LateReleases(heard.db, cfg, report.allocations, now);
      if !ok || report.node !in released.nodes || !MaySchedule(cfg, report, now, heard.clean) then (released, ok) else
      match Schedule(released, cfg, report, now, uuid)
      case None => (released, false)
      case Some(after) => (after, true)
  }

  function Or(db: Database, next: Option<Database>): (Database, Reply) {
    if next.Some? then (next.value, Done) else (db, Refused)
  }

  function Lent(result: (Database, Option<Lease>)): (Database, Reply) {
    (result.0, if result.1.Some? then Leased(result.1.value) else Refused)
  }

  function Credited(db: Database, task: Id, result: Option<(Database, Id)>): (Database, Reply) {
    if result.Some? then (result.value.0, Receipt(task, result.value.1)) else (db, Refused)
  }

  function CancelJob(db: Database, job: Id): Option<Database> {
    if job in db.jobs then Some(db.(jobs := db.jobs[job := db.jobs[job].(cancelled := true)])) else None
  }

  function SetDrain(db: Database, node: Id, drain: bool): Option<Database> {
    if node in db.nodes then Some(db.(nodes := db.nodes[node := db.nodes[node].(drain := drain)])) else None
  }

  /** Requests that the operator certificate alone may make. */
  predicate OperatorOnly(r: Request) {
    r.PutPool? || r.SubmitJob? || r.Retry? || r.Cancel? || r.DrainNode?
  }

  function Execute(db: Database, cfg: Config, p: Principal, r: Request, now: nat, o: Oracle): (Database, Reply) {
    if OperatorOnly(r) && p != Operator then (db, Refused) else
    match r
    case OpenSession(node, boot, session) => Or(db, OpenReplaySession(db, node, boot, session))
    case NodeSession(_, _) => (db, Refused)
    case PutPool(pool, spec) => Or(db, CoordinatorRules.PutPool(db, pool, spec))
    case SubmitJob(job, spec) => Or(db, Submit(db, job, spec, o.sequences))
    case Retry(task, confirmed) => Or(db, RetryTask(db, task, confirmed))
    case Cancel(job) => Or(db, CancelJob(db, job))
    case DrainNode(node, drain) => Or(db, SetDrain(db, node, drain))
    case Heartbeat(report) =>
      if p != Node(report.node) then (db, Refused) else
      var (after, ok) := Beat(db, cfg, report, now, o.uuid);
      (after, if ok then Done else Refused)
    case Prepared(a, generation, epoch, record) => Lent(Prepare(db, cfg, p, a, generation, epoch, record, now))
    case Renew(a, generation, epoch, previous) =>
      Lent(CoordinatorRules.Renew(db, cfg, p, a, generation, epoch, previous, now))
    case Complete(s) => Credited(db, s.task, Accept(db, cfg, p, s, o.intact, false))
    case PublishCheckpoint(s) => Credited(db, s.task, Accept(db, cfg, p, s, o.intact, true))
    case Fail(a, generation, kind) =>
      if !MayAct(db, p, a, generation) then (db, Refused)
      else Or(db, RecordFailure(db, cfg, a, generation, kind, now))
    case CommitUpload(a, generation, artifact) => Or(db, CoordinatorRules.CommitUpload(db, p, a, generation, artifact))
  }

  /** The session is checked before the clock moves, and the clock before anything else. */
  function Handle(db: Database, cfg: Config, p: Principal, r: Request, now: nat, o: Oracle): (Database, Reply) {
    var inner := ValidateSession(db, p, r);
    if inner.None? || now < db.clock then (db, Refused)
    else Execute(AdvanceClock(db, now), cfg, p, inner.value, now, o)
  }

  // ---------------------------------------------------------------- a call that dies half way

  datatype Cut =
    | InExpiry(rows: nat, writes: nat)  // some commits into the expiry of one row
    | AfterExpiry
    | InBeat(releases: nat)             // the merge is committed, and so many late releases
    | AfterPreparation                  // the preparation is committed, the lease is not

  /** The committed state a crash at `cut` leaves behind. */
  function HandleCut(db: Database, cfg: Config, p: Principal, r: Request, now: nat, cut: Cut): Database {
    var inner := ValidateSession(db, p, r);
    if inner.None? || now < db.clock then db else
    match cut
    case InExpiry(rows, writes) =>
      if rows < |DueOrder(db, now)| && writes <= 3 then AdvanceCut(db, now, rows, writes) else db
    case AfterExpiry => AdvanceClock(db, now)
    case InBeat(releases) =>
      var ready := AdvanceClock(db, now);
      if inner.value.Heartbeat? && p == Node(inner.value.report.node) && releases <= |inner.value.report.allocations|
      then BeatCut(ready, cfg, inner.value.report, now, releases) else ready
    case AfterPreparation =>
      var ready := AdvanceClock(db, now);
      if inner.value.Prepared? then
        var q := inner.value;
        Or(ready, RecordPreparation(ready, p, q.assignment, q.generation, q.epoch, q.record)).0
      else ready
  }

  function BeatCut(db: Database, cfg: Config, report: NodeReport, now: nat, releases: nat): Database
    requires releases <= |report.allocations|
  {
    match MergeReport(db, cfg, report, now)
    case None => db
    case Some(heard) => LateReleases(heard.db, cfg, report.allocations[..releases], now).0
  }

  // ---------------------------------------------------------------- every call makes progress

  /** Progress, with new attempts only under drawn identifiers. */
  ghost predicate Advanced(cfg: Config, db: Database, db': Database, drawn: set<Id>) {
    Progress(cfg, db, db') && db'.core.reservations.Keys <= db.core.reservations.Keys + drawn
  }

  lemma AdvancedTransitive(cfg: Config, a: Database, b: Database, c: Database, drawn: set<Id>)
    requires Advanced(cfg, a, b, {}) && Advanced(cfg, b, c, drawn)
    ensures Advanced(cfg, a, c, drawn)
  {
    ProgressTransitive(cfg, a, b, c);
  }

  lemma SameAdvances(cfg: Config, db: Database, db': Database, drawn: set<Id>)
    requires Sound(cfg, db.core, db.work) && db'.core == db.core && db'.work == db.work
    ensures Advanced(cfg, db, db', drawn)
  {
    SameProgress(cfg, db);
  }

  lemma RoutineAdvances(cfg: Config, db: Database, db': Database, drawn: set<Id>)
    requires Sound(cfg, db.core, db.work) && db'.work == db.work && Routine(db.core, db'.core)
    ensures Advanced(cfg, db, db', drawn)
  {
    RoutineProgress(cfg, db, db');
  }

  lemma OpeningAdvances(cfg: Config, db: Database, db': Database, drawn: set<Id>)
    requires Sound(cfg, db.core, db.work) && db'.work == db.work && Opening(db.core, db'.core, drawn)
    ensures Advanced(cfg, db, db', drawn)
  {
    CoreProgress(cfg, db, db');
  }

  lemma LeaseAdvances(cfg: Config, db: Database, a: Id, generation: nat, previous: Option<nat>, now: nat, drawn: set<Id>)
    requires Sound(cfg, db.core, db.work) && Grant(db, cfg, a, generation, previous, now).Some?
    ensures Advanced(cfg, db, Grant(db, cfg, a, generation, previous, now).value.0, drawn)
  {
    GrantShape(db, cfg, a, generation, previous, now);
    GrantToLive(db, cfg, a, generation, previous, now);
    hide Grant;
    CoreProgress(cfg, db, Grant(db, cfg, a, generation, previous, now).value.0);
  }

  lemma {:induction false} LateReleasesRoutine(db: Database, cfg: Config, reports: seq<AllocationReport>, now: nat)
    requires Authority(db.core)
    ensures var db' := LateReleases(db, cfg, reports, now).0;
      Routine(db.core, db'.core) && db'.work == db.work && db'.nodes == db.nodes
  {
    if reports == [] {
      RoutineReflexive(db.core);
    } else {
      var n := |reports| - 1;
      LateReleasesRoutine(db, cfg, reports[..n], now);
      LateReleaseNext(db, LateReleases(db, cfg, reports[..n], now).0, cfg, reports[n], now);
    }
  }

  lemma LateReleaseNext(db: Database, before: Database, cfg: Config, report: AllocationReport, now: nat)
    requires Routine(db.core, before.core) && before.work == db.work && before.nodes == db.nodes
    ensures var next := RecordFailure(before, cfg, report.assignment, report.generation, Yielded, now);
      next.Some? ==> Routine(db.core, next.value.core) && next.value.work == db.work && next.value.nodes == db.nodes
  {
    var next := RecordFailure(before, cfg, report.assignment, report.generation, Yielded, now);
    if next.Some? {
      RecordFailureRoutine(before, cfg, report.assignment, report.generation, Yielded, now);
      hide RecordFailure;
      RoutineTransitive(db.core, before.core, next.value.core);
    }
  }

  lemma BeatCutRoutine(db: Database, cfg: Config, report: NodeReport, now: nat, releases: nat)
    requires Authority(db.core) && releases <= |report.allocations|
    ensures Routine(db.core, BeatCut(db, cfg, report, now, releases).core)
    ensures BeatCut(db, cfg, report, now, releases).work == db.work
  {
    var heard := MergeReport(db, cfg, report, now);
    if heard.None? {
      RoutineReflexive(db.core);
    } else {
      MergeReportRoutine(db, cfg, report, now);
      LateReleasesRoutine(heard.value.db, cfg, report.allocations[..releases], now);
      hide MergeReport;
      RoutineTransitive(db.core, heard.value.db.core,
                        LateReleases(heard.value.db, cfg, report.allocations[..releases], now).0.core);
    }
  }

  /** Every identifier a call may open an attempt under. */
  function DrawnBy(db: Database, o: Oracle): set<Id> {
    set t | t in db.core.tasks :: o.uuid(t)
  }

  /** Only a heartbeat opens attempts. */
  function Draws(db: Database, r: Request, o: Oracle): set<Id> {
    if r.Heartbeat? then DrawnBy(db, o) else {}
  }

  lemma ScheduleAdvances(cfg: Config, db: Database, report: NodeReport, now: nat, o: Oracle)
    requires Sound(cfg, db.core, db.work) && report.node in db.nodes && Schedule(db, cfg, report, now, o.uuid).Some?
    ensures Advanced(cfg, db, Schedule(db, cfg, report, now, o.uuid).value, DrawnBy(db, o))
  {
    var db' := Schedule(db, cfg, report, now, o.uuid).value;
    ScheduleOpens(db, cfg, report, now, o.uuid);
    ScheduleFits(db, cfg, report, now, o.uuid);
    DrawnFromTasks(db, o);
    hide Schedule, PassFrame;
    assert db'.work == db.work by {
      ScheduleWork(db, cfg, report, now, o.uuid);
    }
    OpeningAdvances(cfg, db, db', Drawn(Queue(db), o.uuid));
  }

  lemma ScheduleWork(db: Database, cfg: Config, report: NodeReport, now: nat, uuid: Id -> Id)
    requires report.node in db.nodes && Schedule(db, cfg, report, now, uuid).Some?
    ensures Schedule(db, cfg, report, now, uuid).value.work == db.work
  {
    ScheduleFits(db, cfg, report, now, uuid);
  }

  lemma DrawnFromTasks(db: Database, o: Oracle)
    ensures Drawn(Queue(db), o.uuid) <= DrawnBy(db, o)
  {
    forall a | a in Drawn(Queue(db), o.uuid) ensures a in DrawnBy(db, o) {
      var t :| t in Queue(db) && a == o.uuid(t);
      assert t in db.core.tasks;
    }
  }

  lemma BeatAdvances(cfg: Config, db: Database, report: NodeReport, now: nat, o: Oracle)
    requires Sound(cfg, db.core, db.work)
    ensures Advanced(cfg, db, Beat(db, cfg, report, now, o.uuid).0, DrawnBy(db, o))
  {
    var heard := MergeReport(db, cfg, report, now);
    if heard.None? {
      SameAdvances(cfg, db, db, DrawnBy(db, o));
    } else {
      var n := |report.allocations|;
      var (released, ok) := LateReleases(heard.value.db, cfg, report.allocations, now);
      assert report.allocations[..n] == report.allocations;
      assert released == BeatCut(db, cfg, report, now, n);
      BeatCutRoutine(db, cfg, report, now, n);
      ReleasedAdvances(cfg, db, released, report, now, o);
    }
  }

  lemma ReleasedAdvances(cfg: Config, db: Database, released: Database, report: NodeReport, now: nat, o: Oracle)
    requires Sound(cfg, db.core, db.work) && Routine(db.core, released.core) && released.work == db.work
    ensures Advanced(cfg, db, released, DrawnBy(db, o))
    ensures report.node in released.nodes && Schedule(released, cfg, report, now, o.uuid).Some? ==>
              Advanced(cfg, db, Schedule(released, cfg, report, now, o.uuid).value, DrawnBy(db, o))
  {
    RoutineAdvances(cfg, db, released, {});
    RoutineAdvances(cfg, db, released, DrawnBy(db, o));
    assert DrawnBy(released, o) == DrawnBy(db, o);
    hide Routine;
    if report.node in released.nodes && Schedule(released, cfg, report, now, o.uuid).Some? {
      ScheduleAfter(cfg, db, released, report, now, o);
    }
  }

  lemma ScheduleAfter(cfg: Config, db: Database, released: Database, report: NodeReport, now: nat, o: Oracle)
    requires Advanced(cfg, db, released, {})
    requires report.node in released.nodes && Schedule(released, cfg, report, now, o.uuid).Some?
    ensures Advanced(cfg, db, Schedule(released, cfg, report, now, o.uuid).value, DrawnBy(released, o))
  {
    hide Schedule;
    ScheduleAdvances(cfg, released, report, now, o);
    AdvancedTransitive(cfg, db, released, Schedule(released, cfg, report, now, o.uuid).value, DrawnBy(released, o));
  }

  lemma PrepareAdvances(cfg: Config, db: Database, p: Principal, a: Id, generation: nat, epoch: nat,
                        record: PreparedRecord, now: nat)
    requires Sound(cfg, db.core, db.work)
    ensures Advanced(cfg, db, Prepare(db, cfg, p, a, generation, epoch, record, now).0, {})
    ensures Advanced(cfg, db, Or(db, RecordPreparation(db, p, a, generation, epoch, record)).0, {})
  {
    var recorded := RecordPreparation(db, p, a, generation, epoch, record);
    if recorded.None? {
      SameAdvances(cfg, db, db, {});
    } else {
      var db1 := recorded.value;
      SameAdvances(cfg, db, db1, {});
      if Grant(db1, cfg, a, generation, None, now).Some? {
        LeaseAdvances(cfg, db1, a, generation, None, now, {});
        hide Grant, RecordPreparation, Progress;
        AdvancedTransitive(cfg, db, db1, Grant(db1, cfg, a, generation, None, now).value.0, {});
      }
    }
  }

  lemma RenewAdvances(cfg: Config, db: Database, p: Principal, a: Id, generation: nat, epoch: nat, previous: nat, now: nat)
    requires Sound(cfg, db.core, db.work)
    ensures Advanced(cfg, db, CoordinatorRules.Renew(db, cfg, p, a, generation, epoch, previous, now).0, {})
  {
    hide Advanced;
    SameAdvances(cfg, db, db, {});
    if Grant(db, cfg, a, generation, Some(previous), now).Some? {
      LeaseAdvances(cfg, db, a, generation, Some(previous), now, {});
    }
  }

  /** A lease in the reply went to a reservation that is live, current and at the lease's own sequence. */
  ghost predicate LeaseFollows(db: Database, lease: Lease) {
    var a := lease.assignment;
    && Live(db.core, a) && IsCurrent(db.core, a) && lease.generation == AttemptOf(db.core, a).generation
    && lease.generation == TaskRow(db.core, TaskOf(db.core, a)).generation
    && lease.sequence == db.core.reservations[a].leaseSequence && lease.epoch == db.epoch
  }

  /** The same, and the time it is good for is read off that reservation's deadline. */
  ghost predicate LeaseStands(cfg: Config, db: Database, lease: Lease, now: nat) {
    LeaseFollows(db, lease) && GoodFor(cfg, db, lease, now)
  }

  lemma GrantFollows(cfg: Config, db: Database, a: Id, generation: nat, previous: Option<nat>, now: nat)
    requires Authority(db.core) && Grant(db, cfg, a, generation, previous, now).Some?
    ensures LeaseStands(cfg, Grant(db, cfg, a, generation, previous, now).value.0,
                        Grant(db, cfg, a, generation, previous, now).value.1, now)
  {
    GrantShape(db, cfg, a, generation, previous, now);
    GrantToLive(db, cfg, a, generation, previous, now);
    hide Grant, GoodFor;
    OneLivePerTask(Grant(db, cfg, a, generation, previous, now).value.0.core, a, a);
  }

  lemma ExecuteLeases(db: Database, cfg: Config, p: Principal, r: Request, now: nat, o: Oracle)
    requires Authority(db.core) && Execute(db, cfg, p, r, now, o).1.Leased?
    ensures LeaseStands(cfg, Execute(db, cfg, p, r, now, o).0, Execute(db, cfg, p, r, now, o).1.lease, now)
  {
    hide LeaseStands;
    if r.Prepared? {
      var db1 := RecordPreparation(db, p, r.assignment, r.generation, r.epoch, r.record).value;
      GrantFollows(cfg, db1, r.assignment, r.generation, None, now);
    } else if r.Renew? {
      GrantFollows(cfg, db, r.assignment, r.generation, Some(r.previous), now);
    }
  }

  lemma OrAdvances(cfg: Config, db: Database, next: Option<Database>, drawn: set<Id>)
    requires Sound(cfg, db.core, db.work)
    requires next.Some? ==> Progress(cfg, db, next.value) && next.value.core.reservations.Keys == db.core.reservations.Keys
    ensures Advanced(cfg, db, Or(db, next).0, drawn)
  {
    SameAdvances(cfg, db, db, drawn);
  }

  lemma OrRoutine(cfg: Config, db: Database, next: Option<Database>, drawn: set<Id>)
    requires Sound(cfg, db.core, db.work)
    requires next.Some? ==> next.value.work == db.work && Routine(db.core, next.value.core)
    ensures Advanced(cfg, db, Or(db, next).0, drawn)
  {
    SameAdvances(cfg, db, db, drawn);
    if next.Some? {
      RoutineAdvances(cfg, db, next.value, drawn);
    }
  }

  lemma SessionAdvances(cfg: Config, db: Database, node: Id, boot: Id, session: Id, drawn: set<Id>)
    requires Sound(cfg, db.core, db.work)
    ensures Advanced(cfg, db, Or(db, OpenReplaySession(db, node, boot, session)).0, drawn)
  {
    if OpenReplaySession(db, node, boot, session).Some? {
      SessionRoutine(db, node, boot, session);
    }
    hide OpenReplaySession;
    OrRoutine(cfg, db, OpenReplaySession(db, node, boot, session), drawn);
  }

  lemma RetryAdvances(cfg: Config, db: Database, task: Id, confirmed: bool, drawn: set<Id>)
    requires Sound(cfg, db.core, db.work)
    ensures Advanced(cfg, db, Or(db, RetryTask(db, task, confirmed)).0, drawn)
  {
    if RetryTask(db, task, confirmed).Some? {
      RetryTaskRoutine(db, task, confirmed);
    }
    hide RetryTask;
    OrRoutine(cfg, db, RetryTask(db, task, confirmed), drawn);
  }

  lemma FailAdvances(cfg: Config, db: Database, a: Id, generation: nat, kind: FailureKind, now: nat, drawn: set<Id>)
    requires Sound(cfg, db.core, db.work)
    ensures Advanced(cfg, db, Or(db, RecordFailure(db, cfg, a, generation, kind, now)).0, drawn)
  {
    if RecordFailure(db, cfg, a, generation, kind, now).Some? {
      RecordFailureRoutine(db, cfg, a, generation, kind, now);
    }
    hide RecordFailure;
    OrRoutine(cfg, db, RecordFailure(db, cfg, a, generation, kind, now), drawn);
  }

  lemma SubmitAdvances(cfg: Config, db: Database, job: Id, spec: Job, sequences: map<Id, nat>, drawn: set<Id>)
    requires Sound(cfg, db.core, db.work)
    ensures Advanced(cfg, db, Or(db, Submit(db, job, spec, sequences)).0, drawn)
  {
    var next := Submit(db, job, spec, sequences);
    if next.Some? {
      SubmitProgress(cfg, db, job, spec, sequences);
      assert next.value.core.reservations == db.core.reservations;
    }
    hide Submit;
    OrAdvances(cfg, db, next, drawn);
  }

  lemma UploadAdvances(cfg: Config, db: Database, p: Principal, a: Id, generation: nat, artifact: Artifact, drawn: set<Id>)
    requires Sound(cfg, db.core, db.work)
    ensures Advanced(cfg, db, Or(db, CoordinatorRules.CommitUpload(db, p, a, generation, artifact)).0, drawn)
  {
    var next := CoordinatorRules.CommitUpload(db, p, a, generation, artifact);
    if next.Some? {
      UploadProgress(cfg, db, p, a, generation, artifact);
      assert next.value.core == db.core;
    }
    hide CoordinatorRules.CommitUpload;
    OrAdvances(cfg, db, next, drawn);
  }

  lemma CatalogueRequests(cfg: Config, db: Database, p: Principal, r: Request, now: nat, o: Oracle)
    requires Sound(cfg, db.core, db.work)
    requires r.NodeSession? || r.PutPool? || r.Cancel? || r.DrainNode?
    ensures Advanced(cfg, db, Execute(db, cfg, p, r, now, o).0, Draws(db, r, o))
  {
    SameAdvances(cfg, db, Execute(db, cfg, p, r, now, o).0, Draws(db, r, o));
  }

  lemma AcceptAdvances(cfg: Config, db: Database, p: Principal, s: Submission, intact: set<Artifact>, checkpoint: bool,
                       drawn: set<Id>)
    requires Sound(cfg, db.core, db.work)
    ensures Advanced(cfg, db, Credited(db, s.task, Accept(db, cfg, p, s, intact, checkpoint)).0, drawn)
  {
    SameAdvances(cfg, db, db, drawn);
    if Accept(db, cfg, p, s, intact, checkpoint).Some? {
      AcceptProgress(cfg, db, p, s, intact, checkpoint);
      AcceptCases(db, cfg, p, s, intact, checkpoint);
      hide Accept, Progress;
    }
  }

  lemma AdvancedWiden(cfg: Config, db: Database, db': Database, drawn: set<Id>)
    requires Advanced(cfg, db, db', {})
    ensures Advanced(cfg, db, db', drawn)
  {
  }

  lemma LentAdvances(cfg: Config, db: Database, p: Principal, r: Request, now: nat, drawn: set<Id>)
    requires Sound(cfg, db.core, db.work)
    ensures r.Prepared? ==>
      Advanced(cfg, db, Prepare(db, cfg, p, r.assignment, r.generation, r.epoch, r.record, now).0, drawn)
    ensures r.Renew? ==>
      Advanced(cfg, db, CoordinatorRules.Renew(db, cfg, p, r.assignment, r.generation, r.epoch, r.previous, now).0, drawn)
  {
    hide Prepare, CoordinatorRules.Renew;
    if r.Prepared? {
      PrepareAdvances(cfg, db, p, r.assignment, r.generation, r.epoch, r.record, now);
      AdvancedWiden(cfg, db, Prepare(db, cfg, p, r.assignment, r.generation, r.epoch, r.record, now).0, drawn);
    } else if r.Renew? {
      RenewAdvances(cfg, db, p, r.assignment, r.generation, r.epoch, r.previous, now);
      AdvancedWiden(cfg, db, CoordinatorRules.Renew(db, cfg, p, r.assignment, r.generation, r.epoch, r.previous, now).0,
                    drawn);
    }
  }

  lemma OperatorRequests(cfg: Config, db: Database, p: Principal, r: Request, now: nat, o: Oracle)
    requires Sound(cfg, db.core, db.work) && (OperatorOnly(r) || r.NodeSession?)
    ensures Advanced(cfg, db, Execute(db, cfg, p, r, now, o).0, Draws(db, r, o))
  {
    var drawn := Draws(db, r, o);
    hide Or, RetryTask, Submit, Advanced;
    if OperatorOnly(r) && p != Operator {
      SameAdvances(cfg, db, db, drawn);
    } else if r.Retry? {
      RetryAdvances(cfg, db, r.task, r.confirmed, drawn);
    } else if r.SubmitJob? {
      SubmitAdvances(cfg, db, r.job, r.jobSpec, o.sequences, drawn);
    } else {
      CatalogueRequests(cfg, db, p, r, now, o);
    }
  }

  lemma WorkRequests(cfg: Config, db: Database, p: Principal, r: Request, now: nat, o: Oracle)
    requires Sound(cfg, db.core, db.work) && (r.Complete? || r.PublishCheckpoint? || r.CommitUpload?)
    ensures Advanced(cfg, db, Execute(db, cfg, p, r, now, o).0, Draws(db, r, o))
  {
    var drawn := Draws(db, r, o);
    hide Or, Credited, Accept, Advanced, CoordinatorRules.CommitUpload;
    if r.CommitUpload? {
      UploadAdvances(cfg, db, p, r.assignment, r.generation, r.artifact, drawn);
    } else {
      AcceptAdvances(cfg, db, p, r.submission, o.intact, r.PublishCheckpoint?, drawn);
    }
  }

  lemma NodeRequests(cfg: Config, db: Database, p: Principal, r: Request, now: nat, o: Oracle)
    requires Sound(cfg, db.core, db.work) && (r.OpenSession? || r.Fail? || r.Heartbeat?)
    ensures Advanced(cfg, db, Execute(db, cfg, p, r, now, o).0, Draws(db, r, o))
  {
    var drawn := Draws(db, r, o);
    hide Or, OpenReplaySession, RecordFailure, Beat, Advanced, MayAct;
    if r.OpenSession? {
      SessionAdvances(cfg, db, r.node, r.boot, r.session, drawn);
    } else if r.Fail? && MayAct(db, p, r.assignment, r.generation) {
      FailAdvances(cfg, db, r.assignment, r.generation, r.kind, now, drawn);
    } else if r.Fail? || p != Node(r.report.node) {
      SameAdvances(cfg, db, db, drawn);
    } else {
      BeatAdvances(cfg, db, r.report, now, o);
    }
  }

  lemma ExecuteAdvances(cfg: Config, db: Database, p: Principal, r: Request, now: nat, o: Oracle)
    requires Sound(cfg, db.core, db.work)
    ensures Advanced(cfg, db, Execute(db, cfg, p, r, now, o).0, Draws(db, r, o))
  {
    hide Advanced;
    if OperatorOnly(r) || r.NodeSession? {
      hide Execute;
      OperatorRequests(cfg, db, p, r, now, o);
    } else if r.Complete? || r.PublishCheckpoint? || r.CommitUpload? {
      hide Execute;
      WorkRequests(cfg, db, p, r, now, o);
    } else if r.Prepared? || r.Renew? {
      hide Prepare, CoordinatorRules.Renew;
      LentAdvances(cfg, db, p, r, now, Draws(db, r, o));
    } else {
      hide Execute;
      NodeRequests(cfg, db, p, r, now, o);
    }
  }

  lemma SameKeysAlone(start: Core, ready: Core, c: Core)
    requires ready.reservations.Keys == start.reservations.Keys && NewAlone(ready, c)
    ensures NewAlone(start, c)
  {
  }

  lemma BeatAlone(db: Database, cfg: Config, report: NodeReport, now: nat, uuid: Id -> Id)
    requires Authority(db.core)
    ensures NewAlone(db.core, Beat(db, cfg, report, now, uuid).0.core)
  {
    var heard := MergeReport(db, cfg, report, now);
    if heard.Some? {
      var n := |report.allocations|;
      assert report.allocations[..n] == report.allocations;
      var released := LateReleases(heard.value.db, cfg, report.allocations, now).0;
      assert released == BeatCut(db, cfg, report, now, n);
      BeatCutRoutine(db, cfg, report, now, n);
      ReleasedAlone(db.core, released, cfg, report, now, uuid);
    }
  }

  lemma ReleasedAlone(c: Core, released: Database, cfg: Config, report: NodeReport, now: nat, uuid: Id -> Id)
    requires released.core.reservations.Keys == c.reservations.Keys
    ensures NewAlone(c, released.core)
    ensures report.node in released.nodes && Schedule(released, cfg, report, now, uuid).Some? ==>
              NewAlone(c, Schedule(released, cfg, report, now, uuid).value.core)
  {
    if report.node in released.nodes && Schedule(released, cfg, report, now, uuid).Some? {
      ScheduleAlone(released, cfg, report, now, uuid);
      hide Schedule;
      SameKeysAlone(c, released.core, Schedule(released, cfg, report, now, uuid).value.core);
    }
  }

  /** Whatever a call opens, it opens for tasks all of whose other attempts are released. */
  lemma ExecuteAlone(cfg: Config, db: Database, p: Principal, r: Request, now: nat, o: Oracle)
    requires Sound(cfg, db.core, db.work)
    ensures NewAlone(db.core, Execute(db, cfg, p, r, now, o).0.core)
  {
    if r.Heartbeat? {
      hide Beat;
      BeatAlone(db, cfg, r.report, now, o.uuid);
    } else {
      hide Execute, Progress;
      ExecuteAdvances(cfg, db, p, r, now, o);
    }
  }

  lemma ClockAdvances(cfg: Config, db: Database, now: nat)
    requires Sound(cfg, db.core, db.work)
    ensures Advanced(cfg, db, AdvanceClock(db, now), {}) && AdvanceClock(db, now).core.tasks.Keys == db.core.tasks.Keys
    ensures AdvanceClock(db, now).core.reservations.Keys == db.core.reservations.Keys
  {
    AdvanceRoutine(db, now);
    RoutineAdvances(cfg, db, AdvanceClock(db, now), {});
  }

  lemma HandleAdvances(cfg: Config, db: Database, p: Principal, r: Request, now: nat, o: Oracle)
    requires Sound(cfg, db.core, db.work)
    ensures Advanced(cfg, db, Handle(db, cfg, p, r, now, o).0, DrawnBy(db, o))
    ensures NewAlone(db.core, Handle(db, cfg, p, r, now, o).0.core)
    ensures Handle(db, cfg, p, r, now, o).1.Leased? ==>
              LeaseStands(cfg, Handle(db, cfg, p, r, now, o).0, Handle(db, cfg, p, r, now, o).1.lease, now)
  {
    var inner := ValidateSession(db, p, r);
    if inner.None? || now < db.clock {
      SameAdvances(cfg, db, db, DrawnBy(db, o));
    } else {
      var ready := AdvanceClock(db, now);
      ClockAdvances(cfg, db, now);
      assert DrawnBy(ready, o) == DrawnBy(db, o);
      ReadyAdvances(cfg, db, ready, p, inner.value, now, o);
    }
  }

  lemma ReadyAdvances(cfg: Config, db: Database, ready: Database, p: Principal, r: Request, now: nat, o: Oracle)
    requires Advanced(cfg, db, ready, {}) && ready.core.reservations.Keys == db.core.reservations.Keys
    ensures Advanced(cfg, db, Execute(ready, cfg, p, r, now, o).0, DrawnBy(ready, o))
    ensures NewAlone(db.core, Execute(ready, cfg, p, r, now, o).0.core)
    ensures Execute(ready, cfg, p, r, now, o).1.Leased? ==>
              LeaseStands(cfg, Execute(ready, cfg, p, r, now, o).0, Execute(ready, cfg, p, r, now, o).1.lease, now)
  {
    hide Execute;
    ExecuteAdvances(cfg, ready, p, r, now, o);
    ExecuteAlone(cfg, ready, p, r, now, o);
    AdvancedTransitive(cfg, db, ready, Execute(ready, cfg, p, r, now, o).0, Draws(ready, r, o));
    SameKeysAlone(db.core, ready.core, Execute(ready, cfg, p, r, now, o).0.core);
    if Execute(ready, cfg, p, r, now, o).1.Leased? {
      ExecuteLeases(ready, cfg, p, r, now, o);
    }
  }

  lemma CutAdvances(cfg: Config, db: Database, p: Principal, r: Request, now: nat, cut: Cut)
    requires Sound(cfg, db.core, db.work)
    ensures Advanced(cfg, db, HandleCut(db, cfg, p, r, now, cut), {})
  {
    hide Advanced, AdvanceClock, AdvanceCut, BeatCut, RecordPreparation, Or, DueOrder;
    var inner := ValidateSession(db, p, r);
    hide ValidateSession;
    if inner.None? || now < db.clock || (cut.InExpiry? && !(cut.rows < |DueOrder(db, now)| && cut.writes <= 3)) {
      SameAdvances(cfg, db, db, {});
    } else if cut.InExpiry? {
      ExpiryCutAdvances(cfg, db, now, cut.rows, cut.writes);
    } else {
      hide HandleCut;
      LateCutAdvances(cfg, db, p, r, now, cut);
    }
  }

  lemma LateCutAdvances(cfg: Config, db: Database, p: Principal, r: Request, now: nat, cut: Cut)
    requires Sound(cfg, db.core, db.work)
    requires ValidateSession(db, p, r).Some? && now >= db.clock && !cut.InExpiry?
    ensures Advanced(cfg, db, HandleCut(db, cfg, p, r, now, cut), {})
  {
    var q := ValidateSession(db, p, r).value;
    hide ValidateSession, Advanced, AdvanceClock, BeatCut, RecordPreparation, Or;
    if cut.InBeat? && q.Heartbeat? && p == Node(q.report.node) && cut.releases <= |q.report.allocations| {
      BeatCutAdvances(cfg, db, q.report, now, cut.releases);
    } else if cut.AfterPreparation? && q.Prepared? {
      PreparedAdvances(cfg, db, p, q.assignment, q.generation, q.epoch, q.record, now);
    } else {
      ClockAdvances(cfg, db, now);
    }
  }

  lemma ExpiryCutAdvances(cfg: Config, db: Database, now: nat, rows: nat, writes: nat)
    requires Sound(cfg, db.core, db.work) && rows < |DueOrder(db, now)| && writes <= 3
    ensures Advanced(cfg, db, AdvanceCut(db, now, rows, writes), {})
  {
    AdvanceCutRoutine(db, now, rows, writes);
    RoutineAdvances(cfg, db, AdvanceCut(db, now, rows, writes), {});
  }

  lemma BeatCutAdvances(cfg: Config, db: Database, report: NodeReport, now: nat, releases: nat)
    requires Sound(cfg, db.core, db.work) && releases <= |report.allocations|
    ensures Advanced(cfg, db, BeatCut(AdvanceClock(db, now), cfg, report, now, releases), {})
  {
    var ready := AdvanceClock(db, now);
    ClockAdvances(cfg, db, now);
    BeatCutRoutine(ready, cfg, report, now, releases);
    hide BeatCut, AdvanceClock;
    RoutineAdvances(cfg, ready, BeatCut(ready, cfg, report, now, releases), {});
    AdvancedTransitive(cfg, db, ready, BeatCut(ready, cfg, report, now, releases), {});
  }

  lemma PreparedAdvances(cfg: Config, db: Database, p: Principal, a: Id, generation: nat, epoch: nat,
                         record: PreparedRecord, now: nat)
    requires Sound(cfg, db.core, db.work)
    ensures var ready := AdvanceClock(db, now);
      Advanced(cfg, db, Or(ready, RecordPreparation(ready, p, a, generation, epoch, record)).0, {})
  {
    var ready := AdvanceClock(db, now);
    ClockAdvances(cfg, db, now);
    PrepareAdvances(cfg, ready, p, a, generation, epoch, record, now);
    hide RecordPreparation, AdvanceClock;
    AdvancedTransitive(cfg, db, ready, Or(ready, RecordPreparation(ready, p, a, generation, epoch, record)).0, {});
  }
}
