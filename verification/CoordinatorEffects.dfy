/** What the coordinator's operations leave behind, table by table (src/coordinator.rs). */
module CoordinatorEffects {
  import opened Options
  import opened ResourceVectors
  import opened CoordinatorCore
  import opened CoordinatorTables
  import opened CoordinatorRules
  import opened CoordinatorSchedule
  import opened CoordinatorRuns

  // ---------------------------------------------------------------- operators

  /** A well-formed job in an existing pool, whose tasks are new and of the pool's class. */
  ghost predicate WellFormed(db: Database, job: Job) {
    && 0 < |job.tasks| <= 100_000 && job.pool in db.pools && !job.cancelled
    && (forall t :: t in job.tasks ==>
          && t !in db.core.tasks && job.tasks[t].grade == db.pools[job.pool].grade
          && job.tasks[t].resources.cpu > 0 && job.tasks[t].resources.ram > 0 && job.tasks[t].maxAttempts != Some(0))
  }

  /** Its tasks are queued and never attempted, under their own numbers, and every older row stays. */
  ghost predicate Enrolled(db: Database, db': Database, id: Id, job: Job, sequences: map<Id, nat>) {
    && id in db'.jobs && db'.jobs[id] == job && db'.core.tasks.Keys == db.core.tasks.Keys + job.tasks.Keys
    && (forall t :: t in job.tasks ==>
          && t in db'.core.tasks && t in db'.specs && t in sequences
          && db'.core.tasks[t] == Task(job.tasks[t].replaySafe, Queued, 0, None, None)
          && db'.specs[t] == Spec(sequences[t], id, job.tasks[t]))
    && (forall t :: t in db.core.tasks && t !in job.tasks ==> db'.core.tasks[t] == db.core.tasks[t])
  }

  lemma SubmitExact(db: Database, id: Id, job: Job, sequences: map<Id, nat>)
    requires id !in db.jobs
    ensures Submit(db, id, job, sequences).Some? <==>
      WellFormed(db, job) && Autoincrements(db, job.tasks.Keys, sequences)
    ensures Submit(db, id, job, sequences).Some? ==>
      Enrolled(db, Submit(db, id, job, sequences).value, id, job, sequences)
  {
    EmptyCount(job.tasks);
    hide Enroll, Enrolled, Autoincrements;
    if Submit(db, id, job, sequences).Some? {
      AutoKeys(db, job, sequences);
      EnrollExact(db, id, job, sequences);
    }
  }

  lemma AutoKeys(db: Database, job: Job, sequences: map<Id, nat>)
    ensures Autoincrements(db, job.tasks.Keys, sequences) ==> job.tasks.Keys <= sequences.Keys
  {
  }

  lemma EnrollExact(db: Database, id: Id, job: Job, sequences: map<Id, nat>)
    requires job.tasks.Keys <= sequences.Keys
    ensures Enrolled(db, Enroll(db, id, job, sequences), id, job, sequences)
  {
  }

  lemma EmptyCount(m: map<Id, LaunchRequest>)
    ensures m == map[] <==> |m| == 0
  {
    if m != map[] {
      var k :| k in m;
      assert k in m.Keys;
    }
  }

  /** Submitting the same job again changes nothing; another job under its name is refused. */
  lemma ResubmitExact(db: Database, id: Id, job: Job, sequences: map<Id, nat>)
    requires id in db.jobs && Submit(db, id, job, sequences).Some?
    ensures Submit(db, id, job, sequences) == Some(db) && db.jobs[id].(cancelled := false) == job
  {
  }

  /** A retry is for a waiting or parked task that holds nothing, has attempts left, and may be repeated or was confirmed. */
  lemma RetryExact(db: Database, t: Id, confirmed: bool)
    ensures RetryTask(db, t, confirmed).Some? <==>
      && t in db.core.tasks && db.core.tasks[t].status in {Queued, NeedsReconciliation}
      && (db.core.tasks[t].replaySafe || confirmed)
      && (SpecOf(db, t).request.maxAttempts.Some? ==>
            db.core.tasks[t].generation < SpecOf(db, t).request.maxAttempts.value)
      && (forall a :: a in db.core.reservations && TaskOf(db.core, a) == t ==> db.core.reservations[a].phase == Released)
    ensures RetryTask(db, t, confirmed).Some? ==>
      var db' := RetryTask(db, t, confirmed).value;
      && db'.core == db.core.(tasks := db.core.tasks[t := db.core.tasks[t].(status := Queued)])
      && t !in db'.holds && t !in db'.retries
  {
    if forall a :: a in db.core.reservations && TaskOf(db.core, a) == t ==> db.core.reservations[a].phase == Released {
      assert Held(db.core, t) == {};
    } else {
      var a :| a in db.core.reservations && TaskOf(db.core, a) == t && db.core.reservations[a].phase != Released;
      assert a in Held(db.core, t);
    }
  }

  /** The owner speaks for the attempt its task is at. */
  ghost predicate SpeaksForCurrent(db: Database, p: Principal, a: Id, generation: nat) {
    && a in db.core.reservations && AttemptOf(db.core, a).generation == generation
    && (p.Node? ==> p.node == db.core.reservations[a].node)
    && TaskOf(db.core, a) in db.core.tasks
    && var task := db.core.tasks[TaskOf(db.core, a)];
    task.assignment == Some(a) && task.generation == generation && task.status in {Assigned, Completed}
  }

  lemma SpeaksExact(db: Database, p: Principal, a: Id, generation: nat)
    ensures MayAct(db, p, a, generation) && CurrentAttempt(db, a, generation) <==> SpeaksForCurrent(db, p, a, generation)
  {
  }

  ghost predicate Published(work: Work, a: Id, sha: Id) {
    exists row :: row in work.publications && row.0 == a && row.2.sha == sha
  }

  /** An upload is recorded for the current attempt of its owner, once per attempt and digest. */
  lemma UploadExact(db: Database, p: Principal, a: Id, generation: nat, artifact: Artifact)
    ensures var next := CoordinatorRules.CommitUpload(db, p, a, generation, artifact);
      && (next.Some? <==> SpeaksForCurrent(db, p, a, generation))
      && (next.Some? ==>
            next.value == if Published(db.work, a, artifact.sha) then db
                          else db.(work := db.work.(publications := db.work.publications + {(a, generation, artifact)})))
  {
    SpeaksExact(db, p, a, generation);
    hide MayAct, CurrentAttempt, SpeaksForCurrent;
  }

  // ---------------------------------------------------------------- a report

  /** A report replaces the node's row, keeps the operator's drain mark and makes its session ready. */
  lemma ReportNode(db: Database, cfg: Config, report: NodeReport, now: nat)
    requires MergeReport(db, cfg, report, now).Some?
    ensures var db' := MergeReport(db, cfg, report, now).value.db;
      && db'.nodes == db.nodes[report.node := NodeRow(report, now, NodeDrained(db, report.node))]
      && db'.sessions.Keys == db.sessions.Keys
      && (report.node in db.sessions ==> db'.sessions[report.node] == db.sessions[report.node].(ready := true))
      && (forall n :: n in db.sessions && n != report.node ==> db'.sessions[n] == db.sessions[n])
      && db'.work == db.work && db'.clock == db.clock && db'.epoch == db.epoch && db'.preparations == db.preparations
      && db'.retries == db.retries && db'.failures == db.failures && db'.retired == db.retired
      && db'.pools == db.pools && db'.jobs == db.jobs && db'.specs == db.specs && db'.holds == db.holds
  {
    hide MergeAll, Missing, FenceMissing, ReportAdmissible;
  }

  predicate NodeDrained(db: Database, node: Id) {
    node in db.nodes && db.nodes[node].drain
  }

  /** The release is told too late: the task already went back to the queue or to the operator. */
  ghost predicate Late(db: Database, x: AllocationReport) {
    && x.phase == Released && x.assignment in db.core.reservations && TaskOf(db.core, x.assignment) in db.core.tasks
    && AttemptOf(db.core, x.assignment).generation == x.generation
    && var task := db.core.tasks[TaskOf(db.core, x.assignment)];
    task.assignment == Some(x.assignment) && task.status in {Queued, NeedsReconciliation}
  }

  lemma LateStays(db: Database, db': Database, x: AllocationReport)
    requires Late(db, x) && db'.core.assignments == db.core.assignments && db'.core.reservations == db.core.reservations
    requires SameAttempts(db.core, db'.core)
    requires forall t :: t in db.core.tasks && db.core.tasks[t].status in {Queued, NeedsReconciliation} ==>
      db'.core.tasks[t].status in {Queued, NeedsReconciliation}
    ensures Late(db', x)
  {
  }

  ghost predicate Followed(db: Database, db': Database) {
    && db'.core.assignments == db.core.assignments && db'.core.reservations == db.core.reservations
    && SameAttempts(db.core, db'.core) && db.failures <= db'.failures
    && (forall t :: t in db.core.tasks && db.core.tasks[t].status in {Queued, NeedsReconciliation} ==>
          db'.core.tasks[t].status in {Queued, NeedsReconciliation})
  }

  lemma FailureFollows(db: Database, cfg: Config, a: Id, generation: nat, now: nat)
    requires RecordFailure(db, cfg, a, generation, Yielded, now).Some?
    ensures var db' := RecordFailure(db, cfg, a, generation, Yielded, now).value; Followed(db, db') && a in db'.failures
  {
    hide FailureOutcome;
  }

  /** Every late release a report brings is recorded, as a yield, before anything is scheduled. */
  lemma {:induction false} LateRecorded(db: Database, cfg: Config, reports: seq<AllocationReport>, now: nat)
    requires LateReleases(db, cfg, reports, now).1
    ensures var db' := LateReleases(db, cfg, reports, now).0;
      Followed(db, db') && forall x :: x in reports && Late(db, x) ==> x.assignment in db'.failures
  {
    if reports != [] {
      var n := |reports| - 1;
      var before, after := LateReleases(db, cfg, reports[..n], now).0, LateReleases(db, cfg, reports, now).0;
      LateRecorded(db, cfg, reports[..n], now);
      LateNext(before, after, cfg, reports[n], now);
      hide LateReleases, RecordFailure;
      if Late(db, reports[n]) {
        LateStays(db, before, reports[n]);
      }
      hide Late;
      assert reports == reports[..n] + [reports[n]];
    }
  }

  lemma LateNext(before: Database, after: Database, cfg: Config, x: AllocationReport, now: nat)
    requires if LateRelease(before, x)
             then RecordFailure(before, cfg, x.assignment, x.generation, Yielded, now) == Some(after) else after == before
    ensures Followed(before, after) && (Late(before, x) ==> x.assignment in after.failures)
  {
    if LateRelease(before, x) {
      FailureFollows(before, cfg, x.assignment, x.generation, now);
    }
    hide RecordFailure;
  }

  // ---------------------------------------------------------------- a pass

  /** One step of a pass, in the rows it leaves. */
  ghost predicate StepLeaves(db: Database, db': Database, cfg: Config, report: NodeReport, now: nat, t: Id, a: Id, v: Verdict)
    requires t in db.core.tasks && t in db'.core.tasks
  {
    match v
    case Place(_) =>
      && a !in db.core.reservations && db'.drains == db.drains
      && db'.core.reservations == db.core.reservations[a := Reservation(
           report.node, Offered, SpecOf(db, t).request.resources, None, 0, Min(now + cfg.leaseMs, U64_MAX), db.epoch)]
      && db'.core.assignments == db.core.assignments[a := Attempt(t, db.core.tasks[t].generation + 1)]
      && db'.core.tasks[t] == Task(db.core.tasks[t].replaySafe, Assigned, db.core.tasks[t].generation + 1, Some(a),
                                   db.core.tasks[t].receipt)
    case Exhaust =>
      && db'.core.tasks[t] == db.core.tasks[t].(status := NeedsReconciliation) && db'.drains == db.drains
      && db'.core.reservations == db.core.reservations && db'.core.assignments == db.core.assignments
    case Ask(victims) =>
      db'.core == db.core && forall x :: x in db'.drains <==> x in db.drains || x in victims
    case _ => db' == db
  }

  /** A placed task gets a fresh offer and its next generation, an exhausted one is parked, victims are asked to drain. */
  lemma StepExact(p: Pass, cfg: Config, report: NodeReport, now: nat, t: Id, a: Id)
    requires t in p.db.core.tasks && report.node in p.db.nodes && Consider(p, cfg, report, now, t, a).Some?
    ensures var db' := Consider(p, cfg, report, now, t, a).value.db;
      && t in db'.core.tasks && StepLeaves(p.db, db', cfg, report, now, t, a, Judge(p, report, now, t))
      && (forall u :: u in p.db.core.tasks && u != t ==> u in db'.core.tasks && db'.core.tasks[u] == p.db.core.tasks[u])
  {
    ConsiderFrame(p, cfg, report, now, t, a);
    var v := Judge(p, report, now, t);
    if v.Place? {
      JudgedPlace(p, report, now, t);
      hide Judge;
      EnactShape(p, cfg, report, now, t, a, v);
      hide Enact;
      OfferLeaves(p.db, cfg, report, now, t, a, v);
    } else {
      hide Judge;
      OtherLeaves(p, cfg, report, now, t, a, v);
      hide Enact;
    }
  }

  lemma OfferLeaves(db: Database, cfg: Config, report: NodeReport, now: nat, t: Id, a: Id, v: Verdict)
    requires t in db.core.tasks && !Taken(db, a) && v.Place?
    ensures t in Offer(db, cfg, report, now, t, a).core.tasks
    ensures StepLeaves(db, Offer(db, cfg, report, now, t, a), cfg, report, now, t, a, v)
  {
  }

  lemma OtherLeaves(p: Pass, cfg: Config, report: NodeReport, now: nat, t: Id, a: Id, v: Verdict)
    requires t in p.db.core.tasks && !v.Place? && Enact(p, cfg, report, now, t, a, v).Some?
    ensures t in Enact(p, cfg, report, now, t, a, v).value.db.core.tasks
    ensures StepLeaves(p.db, Enact(p, cfg, report, now, t, a, v).value.db, cfg, report, now, t, a, v)
  {
  }

  /** When a task is judged exhausted. */
  lemma ExhaustedExact(p: Pass, report: NodeReport, now: nat, t: Id)
    requires t in p.db.core.tasks
    ensures Judge(p, report, now, t) == Exhaust <==>
      && Eligible(p.db, report, now, t) && SpecOf(p.db, t).request.maxAttempts.Some?
      && p.db.core.tasks[t].generation >= SpecOf(p.db, t).request.maxAttempts.value
  {
    hide Eligible, Preempt, Add, FitsRequested, PoolWorkers, Held, GpuRequestAllowed;
  }
}
