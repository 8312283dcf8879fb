/** Who may do what, and when: the coordinator's guards in terms of the rows they protect (src/coordinator.rs). */
module CoordinatorGuards {
  import opened Options
  import opened ResourceVectors
  import opened CoordinatorCore
  import opened CoordinatorTables
  import opened CoordinatorRules
  import opened CoordinatorSchedule
  import opened CoordinatorRuns
  import opened CoordinatorOrder
  import opened CoordinatorReports

  // ---------------------------------------------------------------- replay nodes

  /** A node that replays under sessions is trusted only once its session has accounted for everything. */
  ghost predicate Settling(db: Database, node: Id) {
    node in db.sessions
    && (!db.sessions[node].ready
        || (exists a :: a in db.core.reservations && db.core.reservations[a].node == node
                        && db.core.reservations[a].phase == Uncertain)
        || exists k :: k in db.unrecognized && k.0 == node)
  }

  /** On such a node only work that may be repeated and may be interrupted, and that keeps no local state. */
  ghost predicate Repeatable(request: LaunchRequest) {
    request.replaySafe && request.grade == Opportunistic && DURABLE_LOCAL !in request.controls
  }

  ghost predicate SuitsNode(db: Database, node: Id, request: LaunchRequest) {
    node in db.sessions ==> Repeatable(request)
  }

  lemma ReplayExact(db: Database, node: Id, request: LaunchRequest)
    ensures ReplayNodeCanAdmit(db, node) <==> !Settling(db, node)
    ensures ReplayRequestAllowed(db, node, request) <==> SuitsNode(db, node, request)
  {
  }

  /** Device memory is handed out only where the node reports some, and to guaranteed work only where it says so. */
  ghost predicate DevicesPermit(request: LaunchRequest, report: NodeReport) {
    forall u :: u in request.resources.gpu ==>
      && report.gpuExpansionAllowed && (request.grade == Guaranteed ==> report.gpuGuaranteedAllowed)
      && u in report.budget.gpu && report.budget.gpu[u] > 0
  }

  lemma DevicesExact(request: LaunchRequest, report: NodeReport)
    ensures GpuRequestAllowed(request, report) <==> DevicesPermit(request, report)
  {
    if request.resources.gpu != map[] {
      var u :| u in request.resources.gpu;
    }
  }

  // ---------------------------------------------------------------- placement

  /** In the queue: not running, not finished, not parked, not cancelled and not held back. */
  lemma QueueExact(db: Database, t: Id)
    ensures t in Queue(db) <==>
      t in db.core.tasks && db.core.tasks[t].status == Queued && !JobOf(db, t).cancelled && t !in db.holds
  {
  }

  /** Everything but capacity that placing a task on a node takes. */
  ghost predicate Suits(db: Database, report: NodeReport, now: nat, t: Id) {
    var request, pool := SpecOf(db, t).request, PoolRow(db, JobOf(db, t).pool);
    && t in db.core.tasks
    && (t in db.retries ==> db.retries[t].notBefore <= now)
    && report.node in pool.nodes && pool.maxWorkers > 0
    && (request.maxAttempts.Some? ==> db.core.tasks[t].generation < request.maxAttempts.value)
    && (forall a :: a in db.core.reservations && TaskOf(db.core, a) == t ==> db.core.reservations[a].phase == Released)
    && SuitsNode(db, report.node, request) && DevicesPermit(request, report)
    && (forall control :: control in request.controls ==> control in report.controls)
  }

  lemma PlaceableExact(db: Database, report: NodeReport, now: nat, t: Id)
    ensures Placeable(db, report, now, t) <==> Suits(db, report, now, t)
  {
    DevicesExact(SpecOf(db, t).request, report);
    ReplayExact(db, report.node, SpecOf(db, t).request);
    hide GpuRequestAllowed, DevicesPermit, ReplayRequestAllowed, SuitsNode, ReplayNodeCanAdmit, Settling;
    if forall a :: a in db.core.reservations && TaskOf(db.core, a) == t ==> db.core.reservations[a].phase == Released {
      assert Held(db.core, t) == {};
    } else {
      var a :| a in db.core.reservations && TaskOf(db.core, a) == t && db.core.reservations[a].phase != Released;
      assert a in Held(db.core, t);
    }
  }

  /** Whoever was offered suited the node, and the node was neither drained nor settling. */
  lemma OfferedSuits(db: Database, cfg: Config, report: NodeReport, now: nat, uuid: Id -> Id, t: Id)
    requires report.node in db.nodes && Schedule(db, cfg, report, now, uuid).Some?
    requires Received(db, Schedule(db, cfg, report, now, uuid).value, t)
    ensures t in Queue(db) && Suits(db, report, now, t)
    ensures !db.nodes[report.node].drain && !Settling(db, report.node)
  {
    hide Suits, Settling, Received, Placeable;
    PlaceableExact(db, report, now, t);
    ReplayExact(db, report.node, SpecOf(db, t).request);
    if db.nodes[report.node].drain || !ReplayNodeCanAdmit(db, report.node) {
      IdlePass(db, cfg, report, now, uuid, t);
    } else {
      var p, last := PassReached(db, cfg, report, now, uuid);
      var queue := Queue(db);
      hide Schedule, Queue, ConsiderAll, Judge;
      var m, r := ReceivedAt(p, cfg, report, now, queue, uuid, |queue|, last, t);
      assert queue[m] in queue;
      AtTurn(p, cfg, report, now, queue, uuid, m, r, last);
    }
  }

  /** Victims: started or offered work on this node, strictly less urgent, safe to repeat and willing to yield. */
  lemma CandidatesExact(db: Database, node: Id, priority: int, a: Id)
    ensures a in Candidates(db, node, priority) <==>
      && a in db.core.reservations && db.core.reservations[a].node == node
      && db.core.reservations[a].phase in {Offered, Phase.Prepared, Authorized, Running, Draining}
      && JobOf(db, TaskOf(db.core, a)).priority < priority
      && TaskRow(db.core, TaskOf(db.core, a)).replaySafe
      && SpecOf(db, TaskOf(db.core, a)).request.grade == Opportunistic
  {
  }

  // ---------------------------------------------------------------- leases

  /** The workers of the same pool whose tasks were submitted earlier. */
  function Seniors(db: Database, a: Id): set<Id> {
    set b | b in PoolWorkers(db, PoolOf(db, a)) && b != a
            && SpecOf(db, TaskOf(db.core, b)).sequence < SpecOf(db, TaskOf(db.core, a)).sequence
  }

  /** The reasons to tell a worker to stop; the last one is that its pool has enough workers without it. */
  lemma DrainExact(db: Database, a: Id)
    requires a in db.core.reservations && db.core.reservations[a].phase != Released
    ensures var row, pool := db.core.reservations[a], PoolRow(db, PoolOf(db, a));
      ShouldDrain(db, a) <==>
        || JobOf(db, TaskOf(db.core, a)).cancelled || NodeOf(db, row.node).drain || a in db.drains || row.phase == Draining
        || row.node !in pool.nodes || |Seniors(db, a)| >= pool.maxWorkers
  {
    assert Rank(db, a) == Seniors(db, a) + {a};
  }

  /** The members of `s` with a smaller key. */
  function Below(s: set<Id>, key: map<Id, nat>, a: Id): set<Id>
    requires s <= key.Keys && a in s
  {
    set b | b in s && key[b] < key[a]
  }

  function FirstFew(s: set<Id>, key: map<Id, nat>, m: nat): set<Id>
    requires s <= key.Keys
  {
    set a | a in s && |Below(s, key, a)| < m
  }

  ghost predicate Injective(s: set<Id>, key: map<Id, nat>)
    requires s <= key.Keys
  {
    forall a, b :: a in s && b in s && a != b ==> key[a] != key[b]
  }

  lemma {:induction false} Youngest(s: set<Id>, key: map<Id, nat>) returns (x: Id)
    requires s <= key.Keys && s != {}
    ensures x in s && forall a :: a in s ==> key[a] <= key[x]
    decreases |s|
  {
    x :| x in s;
    var rest := s - {x};
    assert forall a :: a in s ==> a == x || a in rest;
    if rest != {} {
      var y := Youngest(rest, key);
      x := if key[y] > key[x] then y else x;
    }
  }

  /** Counting by rank: exactly `m` members have fewer than `m` below them, or all of them if there are fewer. */
  lemma {:induction false} FirstFewCount(s: set<Id>, key: map<Id, nat>, m: nat)
    requires s <= key.Keys && Injective(s, key)
    ensures |FirstFew(s, key, m)| == Min(m, |s|)
    decreases |s|
  {
    if s == {} {
      assert FirstFew(s, key, m) == {};
    } else {
      var x := Youngest(s, key);
      var rest := s - {x};
      FirstFewCount(rest, key, m);
      assert Below(s, key, x) == rest;
      forall a | a in rest ensures Below(s, key, a) == Below(rest, key, a) {
      }
      assert FirstFew(s, key, m) == FirstFew(rest, key, m) + if |s| <= m then {x} else {};
    }
  }

  /** The workers of a pool that its size does not ask to stop. */
  function Kept(db: Database, pool: Id): set<Id> {
    set a | a in PoolWorkers(db, pool) && |Seniors(db, a)| < PoolRow(db, pool).maxWorkers
  }

  /** An over-full pool keeps exactly its maximum, the earliest submissions; any other keeps everyone. */
  lemma OldestKept(db: Database, pool: Id)
    requires forall a, b :: a in PoolWorkers(db, pool) && b in PoolWorkers(db, pool) && a != b ==>
      SpecOf(db, TaskOf(db.core, a)).sequence != SpecOf(db, TaskOf(db.core, b)).sequence
    ensures |Kept(db, pool)| == Min(PoolRow(db, pool).maxWorkers, |PoolWorkers(db, pool)|)
    ensures forall a, b :: a in Kept(db, pool) && b in PoolWorkers(db, pool) && b in Seniors(db, a) ==> b in Kept(db, pool)
  {
    var s := PoolWorkers(db, pool);
    var key := map a | a in s :: SpecOf(db, TaskOf(db.core, a)).sequence;
    FirstFewCount(s, key, PoolRow(db, pool).maxWorkers);
    forall a | a in s ensures Seniors(db, a) == Below(s, key, a) {
    }
    assert Kept(db, pool) == FirstFew(s, key, PoolRow(db, pool).maxWorkers);
    forall a, b | a in Kept(db, pool) && b in s && b in Seniors(db, a) ensures b in Kept(db, pool) {
      Fewer(Below(s, key, b), Below(s, key, a));
    }
  }

  /** The node said recently that it has room, and everything it holds fits what it said. */
  ghost predicate Evidence(db: Database, cfg: Config, a: Id, now: nat)
    requires a in db.core.reservations
  {
    var node, request := NodeOf(db, db.core.reservations[a].node), SpecOf(db, TaskOf(db.core, a)).request;
    && node.report.expansionAllowed && DevicesPermit(request, node.report)
    && now <= node.received + cfg.telemetryTtl && now <= node.report.observedAt + cfg.telemetryTtl
    && NodeCharge(db, node.report.node).Some?
    && (forall d :: InScope(request.resources, d) ==>
          TotalIn(NodeRows(db, node.report.node), d) <= Amount(node.report.budget, d))
  }

  lemma EvidenceExact(db: Database, cfg: Config, a: Id, now: nat)
    requires a in db.core.reservations
    ensures FreshCapacity(db, cfg, a, now) <==> Evidence(db, cfg, a, now)
  {
    var node := NodeOf(db, db.core.reservations[a].node).report.node;
    DevicesExact(RequestOf(db, a), NodeOf(db, db.core.reservations[a].node).report);
    if NodeCharge(db, node).Some? {
      NodeChargeExact(db, node);
    }
    hide NodeCharge, GpuRequestAllowed, DevicesPermit, NodeRows, TotalIn, FitsRequested;
  }

  /** All that a lease takes: a current attempt in good standing, a settled node, and a number in step. */
  ghost predicate Entitled(db: Database, cfg: Config, a: Id, generation: nat, previous: Option<nat>, now: nat) {
    && a in db.core.reservations
    && var t, row := TaskOf(db.core, a), db.core.reservations[a];
    && var request := SpecOf(db, t).request;
    && t in db.core.tasks && db.core.tasks[t].assignment == Some(a) && db.core.tasks[t].generation == generation
    && db.core.tasks[t].status in {Assigned, Completed}
    && row.phase in {Offered, Phase.Prepared, Authorized, Running, Draining}
    && !Settling(db, row.node) && SuitsNode(db, row.node, request)
    && (if row.leaseSequence == 0 then previous.None? && (ShouldDrain(db, a) || Evidence(db, cfg, a, now))
        else && (request.grade == Opportunistic ==> now < row.deadline)
             && (previous.Some? ==> previous.value == row.leaseSequence || previous.value + 1 == row.leaseSequence))
  }

  lemma GrantExact(db: Database, cfg: Config, a: Id, generation: nat, previous: Option<nat>, now: nat)
    ensures Grant(db, cfg, a, generation, previous, now).Some? <==> Entitled(db, cfg, a, generation, previous, now)
  {
    if a in db.core.reservations {
      ReplayExact(db, db.core.reservations[a].node, RequestOf(db, a));
      EvidenceExact(db, cfg, a, now);
    }
    hide ReplayNodeCanAdmit, ReplayRequestAllowed, FreshCapacity, Evidence, Settling, SuitsNode, ShouldDrain;
  }

  // ---------------------------------------------------------------- principals and sessions

  /** The attempt a request speaks for. */
  function Subject(r: Request): Option<(Id, nat)> {
    match r
    case Prepared(a, generation, _, _) => Some((a, generation))
    case Renew(a, generation, _, _) => Some((a, generation))
    case Fail(a, generation, _) => Some((a, generation))
    case CommitUpload(a, generation, _) => Some((a, generation))
    case Complete(s) => Some((s.assignment, s.generation))
    case PublishCheckpoint(s) => Some((s.assignment, s.generation))
    case _ => None
  }

  /** A node speaks only for its own attempts, at their own generation, and only for its own inventory. */
  lemma OnlyOwner(db: Database, cfg: Config, node: Id, r: Request, now: nat, o: Oracle)
    requires Execute(db, cfg, Node(node), r, now, o).1 != Refused
    ensures Subject(r).Some? ==>
      var (a, generation) := Subject(r).value;
      a in db.core.reservations && db.core.reservations[a].node == node && AttemptOf(db.core, a).generation == generation
    ensures r.Heartbeat? ==> r.report.node == node
    ensures !OperatorOnly(r)
  {
    hide Beat, Grant, ArtifactsPublished, CurrentAttempt, FailureOutcome, PreparedAcceptable, OpenReplaySession;
  }

  /** A node under a session is heard only through it, and before it has reported only to report. */
  lemma HeardThroughSession(db: Database, node: Id, r: Request)
    requires node in db.sessions && ValidateSession(db, Node(node), r).Some?
    ensures r.OpenSession? || r.NodeSession?
    ensures r.NodeSession? ==>
      && r.session == db.sessions[node].session && (db.sessions[node].ready || r.inner.Heartbeat?)
      && (r.inner.Heartbeat? ==> r.inner.report.node == node && r.inner.report.boot == db.sessions[node].boot)
    ensures r.OpenSession? ==> r.node == node && (node, r.session) !in db.retired
  {
  }

  /** A new session replaces the old one for good, and starts out untrusted with nothing live on the node. */
  lemma SessionReplaced(db: Database, node: Id, boot: Id, session: Id)
    requires Authority(db.core) && OpenReplaySession(db, node, boot, session).Some?
    requires node in db.sessions ==> db.sessions[node].session != session
    ensures var db' := OpenReplaySession(db, node, boot, session).value;
      && node in db'.sessions && db'.sessions[node] == Session(session, boot, false) && Settling(db', node)
      && (node in db.sessions ==> (node, db.sessions[node].session) in db'.retired)
      && db.retired <= db'.retired
      && (forall a :: a in db'.core.reservations && db'.core.reservations[a].node == node ==> !Live(db'.core, a))
  {
    ReplaceSessionRoutine(db.core, node);
    hide Routine;
  }

  // ---------------------------------------------------------------- reports and what they may start

  /** A report is taken only if it is not from the future, not older than the last, and complete on recovery. */
  lemma ReportAdmitted(db: Database, cfg: Config, report: NodeReport, now: nat)
    requires MergeReport(db, cfg, report, now).Some?
    ensures report.observedAt <= now + cfg.telemetryTtl
    ensures report.node in db.nodes ==> db.nodes[report.node].report.observedAt <= report.observedAt
    ensures report.node in db.sessions && !db.sessions[report.node].ready ==>
      forall a :: a in db.core.reservations && a in db.core.assignments && db.core.reservations[a].node == report.node
                  && db.core.reservations[a].phase != Released ==>
        exists i :: 0 <= i < |report.allocations| && report.allocations[i].assignment == a
                    && report.allocations[i].generation == db.core.assignments[a].generation
                    && report.allocations[i].phase in {Released, Uncertain}
  {
    hide MergeAll, Missing, FenceMissing;
  }

  /** New work is started only on a recent report that allows it, observes everything live and explains everything. */
  lemma StartedOnEvidence(db: Database, cfg: Config, report: NodeReport, now: nat, uuid: Id -> Id, a: Id)
    requires Authority(db.core)
    requires a in Beat(db, cfg, report, now, uuid).0.core.reservations && a !in db.core.reservations
    ensures MergeReport(db, cfg, report, now).Some?
    ensures now <= report.observedAt + cfg.telemetryTtl && report.expansionAllowed
    ensures Reconciled(db, MergeReport(db, cfg, report, now).value.db, report)
    ensures forall x :: x in report.allocations && x.phase in {Authorized, Running, Draining, Uncertain} ==> x.observed.Some?
  {
    assert MergeReport(db, cfg, report, now).Some?;
    var n := |report.allocations|;
    assert report.allocations[..n] == report.allocations;
    assert LateReleases(MergeReport(db, cfg, report, now).value.db, cfg, report.allocations, now).0
           == BeatCut(db, cfg, report, now, n);
    BeatCutRoutine(db, cfg, report, now, n);
    ReportExact(db, cfg, report, now);
    hide MergeReport, Schedule, ReportTaken, Reconciled, LateReleases, BeatCut;
  }

  // ---------------------------------------------------------------- preparations and results

  /** A preparation names the very process that the node's current boot vouches for, and the request as it was made. */
  lemma PreparedMeans(db: Database, p: Principal, a: Id, generation: nat, epoch: nat, record: PreparedRecord)
    requires RecordPreparation(db, p, a, generation, epoch, record).Some?
    ensures var db' := RecordPreparation(db, p, a, generation, epoch, record).value;
      && a in db.core.reservations && epoch == db.epoch && record.identity.Some? && record.backend.Some?
      && var t, process := TaskOf(db.core, a), record.identity.value;
      && process.assignment == a && process.generation == generation == db.core.tasks[t].generation
      && process.boot == NodeOf(db, db.core.reservations[a].node).report.boot
      && record.task == t && record.resources == SpecOf(db, t).request.resources
      && record.grade == SpecOf(db, t).request.grade && SpecOf(db, t).request.controls <= record.applied
      && a in db'.preparations
      && db'.preparations[a].identity == record.identity && db'.preparations[a].backend == record.backend
      && db' == db.(preparations := db.preparations[a := db'.preparations[a]])
  {
    if a in db.preparations {
      assert db.preparations[a := db.preparations[a]] == db.preparations;
    }
  }

  /** Submitted by its owner for its own task, with every artifact published by this attempt and still intact. */
  ghost predicate Submitted(db: Database, p: Principal, s: Submission, intact: set<Artifact>) {
    var a := s.assignment;
    && a in db.core.reservations && AttemptOf(db.core, a) == Attempt(s.task, s.generation)
    && (p.Node? ==> p.node == db.core.reservations[a].node)
    && (forall x :: x in s.artifacts ==> (a, s.generation, x) in db.work.publications && x in intact)
  }

  /** The attempt the task is at, by its row. */
  ghost predicate AtTask(db: Database, s: Submission, status: Status) {
    && s.task in db.core.tasks && db.core.tasks[s.task].assignment == Some(s.assignment)
    && db.core.tasks[s.task].generation == s.generation && db.core.tasks[s.task].status == status
  }

  /** A result is taken from the leased current attempt while there is none, and acknowledged again if it is the same. */
  lemma CompletionExact(db: Database, cfg: Config, p: Principal, s: Submission, intact: set<Artifact>)
    ensures Accept(db, cfg, p, s, intact, false).Some? <==>
      && Submitted(db, p, s, intact)
      && (|| (AtTask(db, s, Completed) && db.core.tasks[s.task].receipt == Some(cfg.digest(s)))
          || (AtTask(db, s, Assigned) && db.core.reservations[s.assignment].leaseSequence > 0 && s.task !in db.work.results))
  {
    SubmittedExact(db, p, s, intact);
    hide MayAct, ArtifactsPublished, Submitted;
  }

  lemma SubmittedExact(db: Database, p: Principal, s: Submission, intact: set<Artifact>)
    ensures Submitted(db, p, s, intact) <==>
      MayAct(db, p, s.assignment, s.generation) && TaskOf(db.core, s.assignment) == s.task
      && ArtifactsPublished(db, s, intact)
    ensures Submitted(db, p, s, intact) ==> s.assignment in db.core.reservations && TaskOf(db.core, s.assignment) == s.task
  {
    if ArtifactsPublished(db, s, intact) {
      forall x | x in s.artifacts ensures (s.assignment, s.generation, x) in db.work.publications && x in intact {
        var i :| 0 <= i < |s.artifacts| && s.artifacts[i] == x;
      }
    }
  }

  /** A checkpoint is taken from the leased running attempt if it does not go back, and acknowledged again if it is the same. */
  lemma CheckpointExact(db: Database, cfg: Config, p: Principal, s: Submission, intact: set<Artifact>)
    ensures Accept(db, cfg, p, s, intact, true).Some? <==>
      && Submitted(db, p, s, intact)
      && (|| (s.task in db.work.checkpoints && SameCheckpoint(db.work.checkpoints[s.task], s, cfg.digest(s)))
          || (AtTask(db, s, Assigned) && db.core.reservations[s.assignment].leaseSequence > 0
              && s.sequence.Some? && s.sequence.value > 0
              && (s.task in db.work.checkpoints ==> NotBack(db.work.checkpoints[s.task], s, cfg.digest(s)))))
  {
    SubmittedExact(db, p, s, intact);
    hide MayAct, ArtifactsPublished, Submitted;
  }

  ghost predicate SameCheckpoint(held: Checkpoint, s: Submission, hash: Id) {
    held.receipt == hash && held.submission.assignment == s.assignment && held.submission.generation == s.generation
  }

  /** Within one generation, checkpoints go forward, or repeat the very same one. */
  ghost predicate NotBack(held: Checkpoint, s: Submission, hash: Id)
    requires s.sequence.Some?
  {
    held.submission.generation == s.generation ==>
      held.submission.sequence.Some?
      && (held.submission.sequence.value < s.sequence.value
          || (held.submission.sequence.value == s.sequence.value && held.receipt == hash))
  }
}
