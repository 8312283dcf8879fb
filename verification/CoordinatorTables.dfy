/**
 The coordinator's durable tables (src/coordinator.rs, src/state.rs). One `Database` value is one
 committed state of the SQLite file; a transaction is a function from such values to such values,
 and a failed transaction (`None`) leaves the value as it was. Identifiers are natural numbers.
 */
module CoordinatorTables {
  import opened Options
  import opened ResourceVectors
  import opened Listings
  import opened CoordinatorCore

  const U32_MAX: nat := 0xFFFF_FFFF

  /** The control name `storage.durable_local`. */
  const DURABLE_LOCAL: Id := 0

  datatype LaunchRequest = LaunchRequest(
    resources: Resources, replaySafe: bool, grade: Class, maxAttempts: Option<nat>, controls: set<Id>)

  datatype Pool = Pool(grade: Class, nodes: set<Id>, minWorkers: nat, maxWorkers: nat)

  datatype Job = Job(pool: Id, priority: int, cancelled: bool, tasks: map<Id, LaunchRequest>)

  datatype Spec = Spec(sequence: nat, job: Id, request: LaunchRequest)

  datatype AllocationReport = AllocationReport(
    assignment: Id, generation: nat, phase: Phase, observed: Option<Resources>)

  datatype NodeReport = NodeReport(
    node: Id, boot: Id, observedAt: nat, budget: Resources, expansionAllowed: bool,
    gpuExpansionAllowed: bool, gpuGuaranteedAllowed: bool, launchSlots: nat, controls: set<Id>,
    allocations: seq<AllocationReport>)

  datatype NodeRow = NodeRow(report: NodeReport, received: nat, drain: bool)

  datatype Session = Session(session: Id, boot: Id, ready: bool)

  datatype Retry = Retry(failures: nat, notBefore: nat, yieldCount: nat)

  datatype ProcessIdentity = ProcessIdentity(pid: nat, boot: Id, startTime: nat, assignment: Id, generation: nat)

  datatype PreparedRecord = PreparedRecord(
    task: Id, assignment: Id, generation: nat, grade: Class, isPrepared: bool, resources: Resources,
    identity: Option<ProcessIdentity>, backend: Option<Id>, applied: set<Id>)

  datatype Artifact = Artifact(sha: Id, size: nat)

  /** `sequence` is the `checkpoint_sequence` member of the result document, if it has one. */
  datatype Submission = Submission(
    task: Id, assignment: Id, generation: nat, sequence: Option<nat>, document: Id, artifacts: seq<Artifact>)

  datatype Checkpoint = Checkpoint(submission: Submission, receipt: Id)

  /** Committed work: artifact publications, accepted results, and the last checkpoint of each task. */
  datatype Work = Work(
    publications: set<(Id, nat, Artifact)>, results: map<Id, Submission>, checkpoints: map<Id, Checkpoint>)

  datatype Database = Database(
    epoch: nat,
    clock: nat,
    core: Core,
    work: Work,
    pools: map<Id, Pool>,
    jobs: map<Id, Job>,
    specs: map<Id, Spec>,
    holds: set<Id>,
    nodes: map<Id, NodeRow>,
    sessions: map<Id, Session>,
    retired: set<(Id, Id)>,
    drains: set<Id>,
    preparations: map<Id, PreparedRecord>,
    unrecognized: map<(Id, Id), nat>,
    retries: map<Id, Retry>,
    failures: set<Id>)

  const EMPTY := Database(
    0, 0, Core(map[], map[], map[], {}), Work({}, map[], map[]), map[], map[], map[], {}, map[], map[], {}, {},
    map[], map[], map[], {})

  /** `digest` stands for SHA-256 of the serialized submission; nothing is assumed about it. */
  datatype Config = Config(
    leaseMs: nat, telemetryTtl: nat, retryLimit: nat, retryBase: nat, retryMax: nat,
    yieldBase: nat, yieldMax: nat, digest: Submission -> Id)

  // Lookups along the foreign keys are total; in every reachable state no default is used (see Catalogued).

  function SpecOf(db: Database, t: Id): Spec {
    if t in db.specs then db.specs[t] else Spec(0, 0, LaunchRequest(ZERO, false, Guaranteed, None, {}))
  }

  function JobOf(db: Database, t: Id): Job {
    var j := SpecOf(db, t).job;
    if j in db.jobs then db.jobs[j] else Job(0, 0, true, map[])
  }

  function NodeOf(db: Database, node: Id): NodeRow {
    if node in db.nodes then db.nodes[node]
    else NodeRow(NodeReport(node, 0, 0, ZERO, false, false, false, 0, {}, []), 0, true)
  }

  function PoolRow(db: Database, pool: Id): Pool {
    if pool in db.pools then db.pools[pool] else Pool(Guaranteed, {}, 0, 0)
  }

  function PoolOf(db: Database, a: Id): Id {
    JobOf(db, TaskOf(db.core, a)).pool
  }

  function RequestOf(db: Database, a: Id): LaunchRequest {
    SpecOf(db, TaskOf(db.core, a)).request
  }

  /** The unreleased reservations of one pool, on every node. */
  function PoolWorkers(db: Database, pool: Id): set<Id> {
    set a | a in db.core.reservations && db.core.reservations[a].phase != Released && PoolOf(db, a) == pool
  }

  function SatAdd(x: nat, y: nat): nat {
    Min(x + y, U64_MAX)
  }
}
