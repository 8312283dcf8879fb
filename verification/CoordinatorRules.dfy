/** Each handler of src/coordinator.rs as a function from one committed database to the next. */
module CoordinatorRules {
  import opened Options
  import opened ResourceVectors
  import opened Listings
  import opened CoordinatorCore
  import opened CoordinatorTables

  datatype Principal = Operator | Node(node: Id)

  datatype Lease = Lease(assignment: Id, generation: nat, epoch: nat, sequence: nat, validFor: nat, drain: bool)

  datatype FailureKind = ExecutionFailure | Yielded

  // ---------------------------------------------------------------- authority checks

  predicate MayAct(db: Database, p: Principal, a: Id, generation: nat)
  {
    a in db.core.reservations && AttemptOf(db.core, a).generation == generation
    && (p == Operator || p == Node(db.core.reservations[a].node))
  }

  predicate CurrentAttempt(db: Database, a: Id, generation: nat)
  {
    a in db.core.reservations && TaskOf(db.core, a) in db.core.tasks
    && var task := TaskRow(db.core, TaskOf(db.core, a));
    && task.generation == generation
    && task.assignment == Some(a)
    && (task.status == Assigned || task.status == Completed)
  }

  /** Operator, pool and preemption reasons to drain one reservation. */
  predicate ShouldDrain(db: Database, a: Id)
    requires a in db.core.reservations
  {
    var row := db.core.reservations[a];
    var pool := PoolRow(db, PoolOf(db, a));
    JobOf(db, TaskOf(db.core, a)).cancelled
    || NodeOf(db, row.node).drain
    || a in db.drains
    || row.phase == Draining
    || row.node !in pool.nodes
    || |Rank(db, a)| > pool.maxWorkers
  }

  /** The workers of the same pool that were submitted earlier, and `a` itself. */
  function Rank(db: Database, a: Id): set<Id>
    requires a in db.core.reservations
  {
    var mine := SpecOf(db, TaskOf(db.core, a)).sequence;
    set b | b in PoolWorkers(db, PoolOf(db, a)) && (SpecOf(db, TaskOf(db.core, b)).sequence < mine || b == a)
  }

  predicate ReplayNodeCanAdmit(db: Database, node: Id) {
    node !in db.sessions
    || (db.sessions[node].ready
        && (forall a :: a in db.core.reservations && db.core.reservations[a].node == node
              ==> db.core.reservations[a].phase != Uncertain)
        && forall k :: k in db.unrecognized ==> k.0 != node)
  }

  predicate ReplayRequestAllowed(db: Database, node: Id, request: LaunchRequest) {
    node !in db.sessions
    || (request.replaySafe && request.grade == Opportunistic && DURABLE_LOCAL !in request.controls)
  }

  predicate GpuRequestAllowed(request: LaunchRequest, report: NodeReport) {
    request.resources.gpu == map[]
    || (report.gpuExpansionAllowed
        && (request.grade != Guaranteed || report.gpuGuaranteedAllowed)
        && forall u :: u in request.resources.gpu ==> Get(report.budget.gpu, u) > 0)
  }

  // ---------------------------------------------------------------- node accounting

  /** max(reservation, observation), dimension by dimension. */
  function RowCharge(row: Reservation): Resources {
    if row.observed.Some? then Maximum(row.resources, row.observed.value) else row.resources
  }

  function NodeRows(db: Database, node: Id): map<Id, Resources> {
    map a | a in db.core.reservations && db.core.reservations[a].node == node && db.core.reservations[a].phase != Released
      :: RowCharge(db.core.reservations[a])
  }

  function NodeOrder(db: Database, node: Id): (s: seq<Id>)
    ensures Distinct(s) && forall a :: a in s <==> a in NodeRows(db, node)
  {
    ListBy(map a | a in NodeRows(db, node) :: Row(a, 0, 0))
  }

  function NodeList(db: Database, node: Id): seq<Resources> {
    Select(NodeRows(db, node), NodeOrder(db, node))
  }

  function NodeCharge(db: Database, node: Id): Option<Resources> {
    AddAll(ZERO, NodeList(db, node))
  }

  // ---------------------------------------------------------------- leases

  /** Whether this first authorization is backed by fresh, sufficient capacity evidence. */
  predicate FreshCapacity(db: Database, cfg: Config, a: Id, now: nat)
    requires a in db.core.reservations
  {
    var row := NodeOf(db, db.core.reservations[a].node);
    var request := RequestOf(db, a);
    var charge := NodeCharge(db, row.report.node);
    && row.report.expansionAllowed
    && Monus(now, row.received) <= cfg.telemetryTtl
    && Monus(now, row.report.observedAt) <= cfg.telemetryTtl
    && GpuRequestAllowed(request, row.report)
    && charge.Some?
    && FitsRequested(charge.value, row.report.budget, request.resources)
  }

  /** `previous` is absent for the first (prepared) request and names the held sequence on renewal. */
  function Grant(db: Database, cfg: Config, a: Id, generation: nat, previous: Option<nat>, now: nat)
    : Option<(Database, Lease)>
  {
    if !CurrentAttempt(db, a, generation) then None else
    var row := db.core.reservations[a];
    if row.phase == Released || row.phase == Uncertain then None else
    var drain := ShouldDrain(db, a);
    var request := RequestOf(db, a);
    if !ReplayNodeCanAdmit(db, row.node) || !ReplayRequestAllowed(db, row.node, request) then None
    else if row.leaseSequence == 0 && !drain && !FreshCapacity(db, cfg, a, now) then None
    else if row.leaseSequence > 0 && row.deadline <= now && request.grade == Opportunistic then None
    else if previous.Some? && (row.leaseSequence == 0
                               || (previous.value != row.leaseSequence
                                   && previous.value + 1 != row.leaseSequence)) then None
    else
      var retry := if previous.None? then row.leaseSequence > 0 else previous.value != row.leaseSequence;
      if retry || drain then
        Some((db, Lease(a, generation, db.epoch, row.leaseSequence,
                        Min(Monus(row.deadline, now), cfg.leaseMs), drain)))
      else
        var row' := row.(phase := Authorized, leaseSequence := row.leaseSequence + 1,
                         deadline := SatAdd(now, cfg.leaseMs), epoch := db.epoch);
        Some((db.(core := db.core.(reservations := db.core.reservations[a := row'])),
              Lease(a, generation, db.epoch, row'.leaseSequence,
                    Min(Monus(row'.deadline, now), cfg.leaseMs), drain)))
  }

  /** The checks on a preparation record before the first lease is considered. */
  predicate PreparedAcceptable(db: Database, a: Id, generation: nat, record: PreparedRecord)
    requires a in db.core.reservations
  {
    var request := RequestOf(db, a);
    && record.assignment == a && record.generation == generation && record.isPrepared
    && record.identity.Some?
    && var identity := record.identity.value;
    && identity.assignment == a && identity.generation == generation
    && identity.pid > 0 && identity.startTime > 0
    && identity.boot == NodeOf(db, db.core.reservations[a].node).report.boot
    && record.task == TaskOf(db.core, a) && record.resources == request.resources
    && record.grade == request.grade && record.backend.Some?
    && request.controls <= record.applied
  }

  /** The preparation is recorded once, in its own commit, before any lease is considered. */
  function RecordPreparation(db: Database, p: Principal, a: Id, generation: nat, epoch: nat, record: PreparedRecord)
    : Option<Database>
  {
    if !MayAct(db, p, a, generation) || epoch != db.epoch
       || !PreparedAcceptable(db, a, generation, record)
       || !CurrentAttempt(db, a, generation) then None
    else if a !in db.preparations then Some(db.(preparations := db.preparations[a := record]))
    else if db.preparations[a].identity == record.identity && db.preparations[a].backend == record.backend
    then Some(db) else None
  }

  function Prepare(db: Database, cfg: Config, p: Principal, a: Id, generation: nat, epoch: nat,
                   record: PreparedRecord, now: nat)
    : (Database, Option<Lease>)
  {
    match RecordPreparation(db, p, a, generation, epoch, record)
    case None => (db, None)
    case Some(db1) =>
      match Grant(db1, cfg, a, generation, None, now)
      case None => (db1, None)
      case Some(g) => (g.0, Some(g.1))
  }

  function Renew(db: Database, cfg: Config, p: Principal, a: Id, generation: nat, epoch: nat,
                 previous: nat, now: nat)
    : (Database, Option<Lease>)
  {
    if !MayAct(db, p, a, generation) || epoch != db.epoch then (db, None) else
    match Grant(db, cfg, a, generation, Some(previous), now)
    case None => (db, None)
    case Some(g) => (g.0, Some(g.1))
  }

  // ---------------------------------------------------------------- expiry

  predicate Due(db: Database, a: Id, now: nat)
    requires a in db.core.reservations
  {
    var row := db.core.reservations[a];
    row.phase != Released && row.phase != Uncertain && row.deadline <= now
    && RequestOf(db, a).grade == Opportunistic
  }

  function DueOrder(db: Database, now: nat): seq<Id>
  {
    ListBy(map a | a in db.core.reservations && Due(db, a, now) :: Row(a, 0, 0))
  }

  /** Expiry of one row is three separate commits; a crash can stop it after any `writes` of them. */
  function ExpireRow(c: Core, a: Id, writes: nat): Core
    requires writes <= 3
  {
    if writes == 0 then c else
    var c1 := SetPhase(c, a, Uncertain);
    if writes == 1 then c1 else
    var c2 := Fence(c1, {a});
    if writes == 2 then c2 else
    var marked := MarkUncertain(c2, TaskOf(c2, a), AttemptOf(c2, a).generation);
    if marked.Some? then marked.value else c2
  }

  function ExpireRows(c: Core, due: seq<Id>): Core {
    if due == [] then c else ExpireRow(ExpireRows(c, due[..|due| - 1]), due[|due| - 1], 3)
  }

  /** The watermark moves first, then the due rows follow in order. */
  function AdvanceClock(db: Database, now: nat): Database {
    db.(clock := now, core := ExpireRows(db.core, DueOrder(db, now)))
  }

  /** The committed state when the process dies `writes` commits into row number `rows`. */
  function AdvanceCut(db: Database, now: nat, rows: nat, writes: nat): Database
    requires rows < |DueOrder(db, now)| && writes <= 3
  {
    var due := DueOrder(db, now);
    db.(clock := now, core := ExpireRow(ExpireRows(db.core, due[..rows]), due[rows], writes))
  }

  // ---------------------------------------------------------------- heartbeat merge

  datatype Merge = Merge(db: Database, seen: set<Id>, flagged: set<Id>)

  /** One iteration of the merge loop; `None` rolls the whole transaction back. */
  function MergeOne(m: Merge, node: Id, report: AllocationReport, newer: bool): (r: Option<Merge>)
    ensures r.Some? ==> MergeFrame(m.db, r.value.db)
  {
    var a := report.assignment;
    var db := m.db;
    var seen := m.seen + {a};
    if a in m.seen then None
    else if a !in db.core.reservations || a !in db.core.assignments then
      if (node, a) in db.unrecognized && db.unrecognized[(node, a)] != report.generation then None
      else if report.phase == Released then
        Some(Merge(db.(unrecognized := db.unrecognized - {(node, a)}), seen, m.flagged))
      else Some(Merge(db.(unrecognized := db.unrecognized[(node, a) := report.generation]), seen, m.flagged))
    else
      var row := db.core.reservations[a];
      if row.node != node || db.core.assignments[a].generation != report.generation then None else
      var odd := Contradiction(row.phase, report.phase, newer)
                 || InvalidRunning(report.phase, row.leaseSequence > 0);
      var core := MergeRow(db.core, a, report.phase, report.observed, newer);
      Some(Merge(
        db.(core := core,
            drains := if core.reservations[a].phase == Draining then db.drains + {a} else db.drains),
        seen,
        if odd then m.flagged + {a} else m.flagged))
  }

  /** The merge touches reservations, fences, drains and the unrecognized inventory only. */
  predicate MergeFrame(db: Database, db': Database) {
    && db' == db.(core := db'.core, drains := db'.drains, unrecognized := db'.unrecognized)
    && db'.core.reservations.Keys == db.core.reservations.Keys
  }

  function MergeAll(m: Merge, node: Id, reports: seq<AllocationReport>, newer: bool): (r: Option<Merge>)
    ensures r.Some? ==> MergeFrame(m.db, r.value.db)
  {
    if reports == [] then Some(m) else
    var n := |reports| - 1;
    var before := MergeAll(m, node, reports[..n], newer);
    if before.None? then None else MergeOne(before.value, node, reports[n], newer)
  }

  /** Unreported rows that must have been started, or any unreported row of a replay node. */
  function Missing(db: Database, node: Id, replay: bool, seen: set<Id>): set<Id> {
    set a | a in db.core.reservations && a !in seen
      && var row := db.core.reservations[a];
      row.node == node && row.phase != Released
      && (replay || row.leaseSequence > 0 || row.phase == Prepared)
  }

  /** A recovering replay node must account for every retained allocation. */
  predicate RecoveryComplete(db: Database, report: NodeReport) {
    forall a :: a in db.core.reservations && a in db.core.assignments && db.core.reservations[a].node == report.node
                && db.core.reservations[a].phase != Released ==>
      exists i :: 0 <= i < |report.allocations|
        && report.allocations[i].assignment == a
        && report.allocations[i].generation == db.core.assignments[a].generation
        && (report.allocations[i].phase == Released || report.allocations[i].phase == Uncertain)
  }

  /** A report is refused when it is from the future, older than the last one, or an incomplete recovery. */
  predicate ReportAdmissible(db: Database, cfg: Config, report: NodeReport, now: nat) {
    && report.observedAt <= SatAdd(now, cfg.telemetryTtl)
    && (report.node in db.nodes ==> report.observedAt >= db.nodes[report.node].report.observedAt)
    && (report.node in db.sessions && !db.sessions[report.node].ready ==> RecoveryComplete(db, report))
  }

  /** The upsert of the node row, which keeps the operator's drain mark. */
  function PutNode(db: Database, report: NodeReport, now: nat): Database {
    db.(nodes := db.nodes[report.node :=
          NodeRow(report, now, report.node in db.nodes && db.nodes[report.node].drain)])
  }

  predicate Newer(db: Database, report: NodeReport) {
    report.node !in db.nodes || report.observedAt > db.nodes[report.node].report.observedAt
  }

  function MarkReady(db: Database, node: Id): Database {
    if node in db.sessions then db.(sessions := db.sessions[node := db.sessions[node].(ready := true)]) else db
  }

  datatype Heard = Heard(db: Database, clean: bool)

  /** The heartbeat transaction, and whether it reconciled everything it was told about. */
  function MergeReport(db: Database, cfg: Config, report: NodeReport, now: nat): Option<Heard> {
    if !ReportAdmissible(db, cfg, report, now) then None else
    var merged := MergeAll(Merge(PutNode(db, report, now), {}, {}), report.node, report.allocations,
                           Newer(db, report));
    if merged.None? then None else
    var missing := Missing(merged.value.db, report.node, report.node in db.sessions, merged.value.seen);
    var db' := MarkReady(
      merged.value.db.(core := FenceMissing(merged.value.db.core, missing)), report.node);
    Some(Heard(db', merged.value.flagged == {} && missing == {}
                    && forall k :: k in db'.unrecognized ==> k.0 != report.node))
  }

  // ---------------------------------------------------------------- failures

  function Pow2(n: nat): nat {
    if n == 0 then 1 else 2 * Pow2(n - 1)
  }

  /** Exponential backoff: the shift saturates, the product saturates, the maximum caps both. */
  function Backoff(base: nat, maximum: nat, exponent: nat): nat {
    var shift := Monus(exponent, 1);
    var factor := if shift < 64 then Pow2(shift) else U64_MAX;
    Min(Min(base * factor, U64_MAX), maximum)
  }

  function RetryOf(db: Database, t: Id): Retry {
    if t in db.retries then db.retries[t] else Retry(0, 0, 0)
  }

  /** The retry state a failure leaves behind, and whether the task may run again; `None` is an error. */
  function FailureOutcome(db: Database, cfg: Config, a: Id, generation: nat, kind: FailureKind, now: nat)
    : Option<(Retry, bool)>
  {
    var t := TaskOf(db.core, a);
    var task := TaskRow(db.core, t);
    if a !in db.core.reservations || db.core.reservations[a].phase != Released || t !in db.core.tasks
       || task.generation != generation || task.assignment != Some(a) then None else
    var yielded := kind == Yielded || ShouldDrain(db, a);
    var prior := RetryOf(db, t);
    if (if yielded then prior.yieldCount else prior.failures) == U32_MAX then None else
    var count := if yielded then prior.failures else prior.failures + 1;
    var yieldCount := if yielded then prior.yieldCount + 1 else 0;
    var delay := if yielded then Backoff(cfg.yieldBase, cfg.yieldMax, yieldCount)
                 else Backoff(cfg.retryBase, cfg.retryMax, count);
    var limit := RequestOf(db, a).maxAttempts;
    Some((Retry(count, SatAdd(now, delay), yieldCount),
          task.replaySafe && count < cfg.retryLimit && (limit.None? || generation < limit.value)))
  }

  /** One receipt per attempt; a completed task keeps its status and its retry state. */
  function RecordFailure(db: Database, cfg: Config, a: Id, generation: nat, kind: FailureKind, now: nat)
    : Option<Database>
  {
    if a in db.failures then Some(db) else
    var outcome := FailureOutcome(db, cfg, a, generation, kind, now);
    if outcome.None? then None else
    var t := TaskOf(db.core, a);
    var status := if outcome.value.1 then Queued else NeedsReconciliation;
    var done := TaskRow(db.core, t).status == Completed;
    Some(db.(core := Conclude(db.core, t, status),
             retries := if done then db.retries else db.retries[t := outcome.value.0],
             failures := db.failures + {a}))
  }

  /** The rows whose release is reported after the task already went back to the queue. */
  predicate LateRelease(db: Database, r: AllocationReport)
  {
    r.phase == Released && r.assignment in db.core.reservations
    && var t := TaskOf(db.core, r.assignment);
    && TaskRow(db.core, t).assignment == Some(r.assignment)
    && AttemptOf(db.core, r.assignment).generation == r.generation
    && (TaskRow(db.core, t).status == Queued || TaskRow(db.core, t).status == NeedsReconciliation)
  }

  // ---------------------------------------------------------------- operators and results

  function PutPool(db: Database, id: Id, pool: Pool): Option<Database> {
    if pool.minWorkers > pool.maxWorkers || pool.maxWorkers > 100_000 || pool.nodes == {} then None
    else if id in db.pools && db.pools[id].grade != pool.grade
            && exists j :: j in db.jobs && db.jobs[j].pool == id then None
    else Some(db.(pools := db.pools[id := pool]))
  }

  /** AUTOINCREMENT: every insert gets its own number, above every number in the table. */
  predicate Autoincrements(db: Database, tasks: set<Id>, sequences: map<Id, nat>) {
    && tasks <= sequences.Keys
    && (forall t, u :: t in tasks && u in db.specs ==> db.specs[u].sequence < sequences[t])
    && (forall t, u :: t in tasks && u in tasks && t != u ==> sequences[t] != sequences[u])
  }

  /** `sequences` are the numbers the inserts receive; numbers SQLite would not assign are no submission at all. */
  function Submit(db: Database, id: Id, job: Job, sequences: map<Id, nat>): Option<Database> {
    if job.tasks == map[] || |job.tasks| > 100_000 || job.pool !in db.pools || job.cancelled then None
    else if id in db.jobs then
      if db.jobs[id].(cancelled := false) == job then Some(db) else None
    else if !Autoincrements(db, job.tasks.Keys, sequences) then None
    else if exists t :: t in job.tasks &&
              (t in db.core.tasks || job.tasks[t].grade != db.pools[job.pool].grade
               || job.tasks[t].resources.cpu == 0 || job.tasks[t].resources.ram == 0
               || job.tasks[t].maxAttempts == Some(0)) then None
    else Some(Enroll(db, id, job, sequences))
  }

  /** The rows a new job brings: the job, its tasks queued and never attempted, and their specifications. */
  function Enroll(db: Database, id: Id, job: Job, sequences: map<Id, nat>): Database
    requires job.tasks.Keys <= sequences.Keys
  {
    db.(
      jobs := db.jobs[id := job],
      core := db.core.(tasks := db.core.tasks
        + map t | t in job.tasks :: Task(job.tasks[t].replaySafe, Queued, 0, None, None)),
      specs := db.specs + map t | t in job.tasks :: Spec(sequences[t], id, job.tasks[t]))
  }

  function RetryTask(db: Database, t: Id, confirmed: bool): Option<Database>
  {
    if t !in db.core.tasks then None else
    var task := db.core.tasks[t];
    var limit := SpecOf(db, t).request.maxAttempts;
    if (task.status != Queued && task.status != NeedsReconciliation)
       || !(task.replaySafe || confirmed)
       || (limit.Some? && task.generation >= limit.value)
       || Held(db.core, t) != {} then None
    else Some(db.(core := SetStatus(db.core, t, Queued), holds := db.holds - {t}, retries := db.retries - {t}))
  }

  /** Replacing a replay session fences the node's whole retained inventory in the same transaction. */
  function OpenReplaySession(db: Database, node: Id, boot: Id, session: Id): Option<Database>
  {
    if node in db.sessions && db.sessions[node].session == session then
      if db.sessions[node].boot == boot then Some(db) else None
    else if node in db.sessions && (node, db.sessions[node].session) in db.retired then None
    else
      Some(db.(
        retired := if node in db.sessions then db.retired + {(node, db.sessions[node].session)} else db.retired,
        sessions := db.sessions[node := Session(session, boot, false)],
        core := ReplaceSession(db.core, node)))
  }

  /** `intact` are the artifacts whose stored bytes pass verification. */
  predicate ArtifactsPublished(db: Database, s: Submission, intact: set<Artifact>) {
    forall i :: 0 <= i < |s.artifacts| ==>
      (s.assignment, s.generation, s.artifacts[i]) in db.work.publications && s.artifacts[i] in intact
  }

  function Accept(db: Database, cfg: Config, p: Principal, s: Submission, intact: set<Artifact>, checkpoint: bool)
    : Option<(Database, Id)>
  {
    if !MayAct(db, p, s.assignment, s.generation) || TaskOf(db.core, s.assignment) != s.task
       || !ArtifactsPublished(db, s, intact) then None
    else
      var hash := cfg.digest(s);
      var t := s.task;
      if checkpoint && t in db.work.checkpoints && db.work.checkpoints[t].receipt == hash
         && db.work.checkpoints[t].submission.assignment == s.assignment
         && db.work.checkpoints[t].submission.generation == s.generation then Some((db, hash))
      else if !CurrentAttempt(db, s.assignment, s.generation) then None
      else if db.core.tasks[t].status != Completed && db.core.reservations[s.assignment].leaseSequence == 0 then None
      else if checkpoint then
        if db.core.tasks[t].status != Assigned || s.sequence.None? || s.sequence.value == 0 then None
        else if t in db.work.checkpoints && db.work.checkpoints[t].submission.generation == s.generation
                && (db.work.checkpoints[t].submission.sequence.None?
                    || s.sequence.value < db.work.checkpoints[t].submission.sequence.value
                    || (s.sequence.value == db.work.checkpoints[t].submission.sequence.value
                        && db.work.checkpoints[t].receipt != hash)) then None
        else Some((db.(work := db.work.(checkpoints := db.work.checkpoints[t := Checkpoint(s, hash)])), hash))
      else if db.core.tasks[t].status == Completed then
        if db.core.tasks[t].receipt == Some(hash) then Some((db, hash)) else None
      else if t in db.work.results then None
      else Some((db.(work := db.work.(results := db.work.results[t := s]), core := CompleteCore(db.core, t, hash)), hash))
  }

  /** The publication row written when an upload of the current attempt commits. */
  function CommitUpload(db: Database, p: Principal, a: Id, generation: nat, artifact: Artifact): Option<Database>
  {
    if !MayAct(db, p, a, generation) || !CurrentAttempt(db, a, generation) then None
    else if exists row :: row in db.work.publications && row.0 == a && row.2.sha == artifact.sha then Some(db)
    else Some(db.(work := db.work.(publications := db.work.publications + {(a, generation, artifact)})))
  }

  // ---------------------------------------------------------------- restart and restore

  /** The transaction of `open`: a new epoch, drains kept, everything unreleased uncertain. */
  function Restart(db: Database): Database {
    db.(epoch := db.epoch + 1,
        drains := db.drains + (set a | a in db.core.reservations && db.core.reservations[a].phase == Draining),
        core := RestartCore(db.core))
  }

  /** src/backup.rs `restore`: a saved database with every unreleased reservation fenced. */
  function Restore(saved: Database): Database {
    saved.(epoch := saved.epoch + 1, core := RestoreCore(saved.core))
  }
}
