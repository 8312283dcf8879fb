/** What every handler of the coordinator keeps: authority, forward motion, and the soundness of accepted work. */
module CoordinatorSafety {
  import opened Options
  import opened ResourceVectors
  import opened Listings
  import opened CoordinatorCore
  import opened CoordinatorTables
  import opened CoordinatorRules
  import opened CoordinatorSchedule

  // ---------------------------------------------------------------- accepted work

  /** The submission came from that attempt of the task, under a lease, with artifacts of that very attempt. */
  ghost predicate Backed(c: Core, w: Work, t: Id, s: Submission) {
    && s.assignment in c.reservations && s.assignment in c.assignments
    && c.assignments[s.assignment] == Attempt(t, s.generation)
    && c.reservations[s.assignment].leaseSequence > 0
    && (forall i :: 0 <= i < |s.artifacts| ==> (s.assignment, s.generation, s.artifacts[i]) in w.publications)
  }

  ghost predicate ResultSound(cfg: Config, c: Core, w: Work, t: Id)
    requires t in w.results
  {
    && t in c.tasks && c.tasks[t].status == Completed
    && c.tasks[t].receipt == Some(cfg.digest(w.results[t]))
    && c.tasks[t].assignment == Some(w.results[t].assignment)
    && Backed(c, w, t, w.results[t])
  }

  ghost predicate CheckpointSound(cfg: Config, c: Core, w: Work, t: Id)
    requires t in w.checkpoints
  {
    var s := w.checkpoints[t].submission;
    && t in c.tasks && s.generation <= c.tasks[t].generation
    && s.sequence.Some? && s.sequence.value > 0
    && w.checkpoints[t].receipt == cfg.digest(s)
    && Backed(c, w, t, s)
  }

  ghost predicate Sound(cfg: Config, c: Core, w: Work) {
    && Authority(c)
    && (forall t :: t in c.tasks && c.tasks[t].status == Completed ==> t in w.results)
    && (forall t :: t in w.results ==> ResultSound(cfg, c, w, t))
    && (forall t :: t in w.checkpoints ==> CheckpointSound(cfg, c, w, t))
  }

  /** Checkpoints are ordered by generation, then by their own sequence. */
  predicate NotBefore(x: Submission, y: Submission) {
    x.generation < y.generation
    || (x.generation == y.generation && x.sequence.Some? && y.sequence.Some? && x.sequence.value <= y.sequence.value)
  }

  ghost predicate WorkForward(w: Work, w': Work) {
    && w.publications <= w'.publications
    && (forall t :: t in w.results ==> t in w'.results && w'.results[t] == w.results[t])
    && (forall t :: t in w.checkpoints ==> t in w'.checkpoints && CheckpointForward(w, w', t))
  }

  ghost predicate CheckpointForward(w: Work, w': Work, t: Id)
    requires t in w.checkpoints && t in w'.checkpoints
  {
    w'.checkpoints[t] == w.checkpoints[t] || NotBefore(w.checkpoints[t].submission, w'.checkpoints[t].submission)
  }

  lemma WorkForwardTransitive(a: Work, b: Work, c: Work)
    requires WorkForward(a, b) && WorkForward(b, c)
    ensures WorkForward(a, c)
  {
    forall t | t in a.checkpoints ensures t in c.checkpoints && CheckpointForward(a, c, t) {
      assert CheckpointForward(a, b, t) && CheckpointForward(b, c, t);
    }
  }

  /** Soundness afterwards, and nothing durable went back. */
  ghost predicate Progress(cfg: Config, db: Database, db': Database) {
    Sound(cfg, db'.core, db'.work) && Forward(db.core, db'.core) && WorkForward(db.work, db'.work)
  }

  lemma ProgressTransitive(cfg: Config, a: Database, b: Database, c: Database)
    requires Progress(cfg, a, b) && Progress(cfg, b, c)
    ensures Progress(cfg, a, c)
  {
    ForwardTransitive(a.core, b.core, c.core);
    WorkForwardTransitive(a.work, b.work, c.work);
  }

  lemma BackedForward(c: Core, w: Work, c': Core, w': Work, t: Id, s: Submission)
    requires Backed(c, w, t, s) && Keyed(c') && Forward(c, c') && w.publications <= w'.publications
    ensures Backed(c', w', t, s)
  {
    assert RowForward(c, c', s.assignment);
  }

  lemma ResultsForward(cfg: Config, c: Core, c': Core, w: Work)
    requires Sound(cfg, c, w) && Keyed(c') && Forward(c, c')
    ensures forall t :: t in w.results ==> ResultSound(cfg, c', w, t)
  {
    forall t | t in w.results ensures ResultSound(cfg, c', w, t) {
      assert ResultSound(cfg, c, w, t) && TaskForward(c, c', t);
      BackedForward(c, w, c', w, t, w.results[t]);
    }
  }

  lemma CheckpointsStay(cfg: Config, c: Core, c': Core, w: Work)
    requires Sound(cfg, c, w) && Keyed(c') && Forward(c, c')
    ensures forall t :: t in w.checkpoints ==> CheckpointSound(cfg, c', w, t)
  {
    forall t | t in w.checkpoints ensures CheckpointSound(cfg, c', w, t) {
      assert CheckpointSound(cfg, c, w, t) && TaskForward(c, c', t);
      BackedForward(c, w, c', w, t, w.checkpoints[t].submission);
    }
  }

  /** Authority steps that complete nothing keep accepted work sound. */
  lemma CoreProgress(cfg: Config, db: Database, db': Database)
    requires Sound(cfg, db.core, db.work) && db'.work == db.work
    requires Authority(db'.core) && Forward(db.core, db'.core)
    requires forall t :: t in db'.core.tasks && db'.core.tasks[t].status == Completed ==>
               t in db.core.tasks && db.core.tasks[t].status == Completed
    ensures Progress(cfg, db, db')
  {
    hide ResultSound, CheckpointSound;
    ResultsForward(cfg, db.core, db'.core, db.work);
    CheckpointsStay(cfg, db.core, db'.core, db.work);
  }

  lemma RoutineProgress(cfg: Config, db: Database, db': Database)
    requires Sound(cfg, db.core, db.work) && db'.work == db.work && Routine(db.core, db'.core)
    ensures Progress(cfg, db, db')
  {
    CoreProgress(cfg, db, db');
  }

  // ---------------------------------------------------------------- leases

  /** A grant rewrites nothing but the row it leases. */
  lemma GrantShape(db: Database, cfg: Config, a: Id, generation: nat, previous: Option<nat>, now: nat)
    requires Grant(db, cfg, a, generation, previous, now).Some?
    ensures var (db', lease) := Grant(db, cfg, a, generation, previous, now).value;
      && CurrentAttempt(db, a, generation) && a in db'.core.reservations
      && var row, row' := db.core.reservations[a], db'.core.reservations[a];
      && !Settled(row) && !Settled(row') && row'.node == row.node && row.leaseSequence <= row'.leaseSequence
      && db' == db.(core := db.core.(reservations := db.core.reservations[a := row']))
      && lease.assignment == a && lease.generation == generation && lease.epoch == db.epoch
      && lease.sequence == row'.leaseSequence
  {
    assert db.core.reservations[a := db.core.reservations[a]] == db.core.reservations;
  }

  /** A lease goes only to a live reservation that is its task's current attempt, and leaves it so. */
  lemma GrantToLive(db: Database, cfg: Config, a: Id, generation: nat, previous: Option<nat>, now: nat)
    requires Authority(db.core) && Grant(db, cfg, a, generation, previous, now).Some?
    ensures var (db', lease) := Grant(db, cfg, a, generation, previous, now).value;
      && lease.assignment == a && lease.generation == generation && lease.epoch == db.epoch
      && Live(db.core, a) && IsCurrent(db.core, a) && AttemptOf(db.core, a).generation == generation
      && Live(db'.core, a) && lease.sequence == db'.core.reservations[a].leaseSequence
      && GoodFor(cfg, db', lease, now)
      && Authority(db'.core) && Forward(db.core, db'.core) && SameCompletions(db.core, db'.core)
  {
    hide Forward, SameCompletions, GoodFor;
    GrantTimed(db, cfg, a, generation, previous, now);
    GrantShape(db, cfg, a, generation, previous, now);
    assert NamesOwnAttempt(db.core, TaskOf(db.core, a));
    RewriteKeeps(db.core, a, Grant(db, cfg, a, generation, previous, now).value.0.core.reservations[a]);
  }

  /** A time to run that ends neither after the row's deadline nor after one lease period. */
  predicate WithinLease(cfg: Config, deadline: nat, now: nat, time: nat) {
    time <= cfg.leaseMs && if now < deadline then now + time <= deadline else time == 0
  }

  /** A lease is good for as long as that, and no longer: the holder stops before the coordinator may fence the row. */
  ghost predicate GoodFor(cfg: Config, db: Database, lease: Lease, now: nat) {
    && lease.assignment in db.core.reservations
    && var deadline := db.core.reservations[lease.assignment].deadline;
    && WithinLease(cfg, deadline, now, lease.validFor)
    && (forall time: nat :: WithinLease(cfg, deadline, now, time) ==> time <= lease.validFor)
  }

  /** Every lease, new or repeated, is timed by the row it leaves behind, and no opportunistic lease is renewed late. */
  lemma GrantTimed(db: Database, cfg: Config, a: Id, generation: nat, previous: Option<nat>, now: nat)
    requires Grant(db, cfg, a, generation, previous, now).Some?
    ensures var (db', lease) := Grant(db, cfg, a, generation, previous, now).value;
      && lease.assignment == a && GoodFor(cfg, db', lease, now)
      && a in db.core.reservations
      && (RequestOf(db, a).grade == Opportunistic && db.core.reservations[a].leaseSequence > 0 ==>
            now < db.core.reservations[a].deadline)
  {
    GrantTerm(db, cfg, a, generation, previous, now);
    var (db', lease) := Grant(db, cfg, a, generation, previous, now).value;
    hide Grant, RequestOf;
    LongestTime(cfg, db'.core.reservations[a].deadline, now, lease.validFor);
  }

  lemma GrantTerm(db: Database, cfg: Config, a: Id, generation: nat, previous: Option<nat>, now: nat)
    requires Grant(db, cfg, a, generation, previous, now).Some?
    ensures var (db', lease) := Grant(db, cfg, a, generation, previous, now).value;
      && lease.assignment == a && a in db.core.reservations && a in db'.core.reservations
      && lease.validFor == Min(Monus(db'.core.reservations[a].deadline, now), cfg.leaseMs)
      && (RequestOf(db, a).grade == Opportunistic && db.core.reservations[a].leaseSequence > 0 ==>
            now < db.core.reservations[a].deadline)
  {
    hide ShouldDrain, FreshCapacity, ReplayNodeCanAdmit, ReplayRequestAllowed, RequestOf;
  }

  lemma LongestTime(cfg: Config, deadline: nat, now: nat, time: nat)
    requires time == Min(Monus(deadline, now), cfg.leaseMs)
    ensures WithinLease(cfg, deadline, now, time)
    ensures forall longer: nat :: WithinLease(cfg, deadline, now, longer) ==> longer <= time
  {
  }

  /**
   A first lease is backed by fresh evidence, and everything the node holds, uncertain work included, fits the
   reported budget in every scope the request names.
   */
  lemma FirstLeaseFits(db: Database, cfg: Config, a: Id, generation: nat, previous: Option<nat>, now: nat)
    requires Grant(db, cfg, a, generation, previous, now).Some?
    requires a in db.core.reservations && db.core.reservations[a].leaseSequence == 0
    requires Grant(db, cfg, a, generation, previous, now).value.1.sequence > 0
    ensures var node := NodeOf(db, db.core.reservations[a].node);
      && node.report.expansionAllowed
      && Monus(now, node.received) <= cfg.telemetryTtl && Monus(now, node.report.observedAt) <= cfg.telemetryTtl
      && forall d :: InScope(RequestOf(db, a).resources, d) ==>
           TotalIn(NodeRows(db, node.report.node), d) <= Amount(node.report.budget, d)
  {
    assert FreshCapacity(db, cfg, a, now);
    hide Grant, ShouldDrain, ReplayNodeCanAdmit;
    NodeChargeExact(db, NodeOf(db, db.core.reservations[a].node).report.node);
  }

  // ---------------------------------------------------------------- expiry

  /** Expiry never finds a stale generation: `mark_uncertain` cannot fail on a due row. */
  lemma DueIsCurrent(c: Core, c1: Core, a: Id)
    requires Authority(c) && a in c.reservations && !Settled(c.reservations[a]) && Routine(c, c1)
    ensures MarkUncertain(c1, TaskOf(c1, a), AttemptOf(c1, a).generation).Some?
  {
    assert Live(c, a) && IsCurrent(c, a);
    assert NamesOwnAttempt(c, TaskOf(c, a));
  }

  lemma ExpireRowFrame(c: Core, a: Id, writes: nat)
    requires writes <= 3
    ensures forall b :: b in c.reservations && b != a ==>
              b in ExpireRow(c, a, writes).reservations && ExpireRow(c, a, writes).reservations[b] == c.reservations[b]
  {
  }

  /** A crash between any two of the three commits of one row leaves a routine step. */
  lemma ExpireRowRoutine(c: Core, a: Id, writes: nat)
    requires Authority(c) && a in c.reservations && !Settled(c.reservations[a]) && writes <= 3
    ensures Routine(c, ExpireRow(c, a, writes))
    ensures writes == 3 ==> a in ExpireRow(c, a, writes).fences
  {
    var c1 := SetPhase(c, a, Uncertain);
    var c2 := Fence(c1, {a});
    if writes == 0 {
      RoutineReflexive(c);
    } else if writes == 1 {
      SuspectRoutine(c, a);
    } else if writes == 2 {
      FencedTwice(c, a);
    } else {
      FencedTwice(c, a);
      DueIsCurrent(c, c2, a);
      MarkUncertainRoutine(c2, TaskOf(c2, a), AttemptOf(c2, a).generation);
      RoutineTransitive(c, c2, MarkUncertain(c2, TaskOf(c2, a), AttemptOf(c2, a).generation).value);
    }
  }

  lemma FencedTwice(c: Core, a: Id)
    requires Authority(c) && a in c.reservations && !Settled(c.reservations[a])
    ensures Routine(c, Fence(SetPhase(c, a, Uncertain), {a}))
  {
    RowsRoutine(c, SetPhase(c, a, Uncertain).reservations, c.fences + {a});
  }

  ghost predicate AllDue(c: Core, due: seq<Id>) {
    Distinct(due) && forall i :: 0 <= i < |due| ==> due[i] in c.reservations && !Settled(c.reservations[due[i]])
  }

  lemma {:induction false} ExpireRowsFrame(c: Core, due: seq<Id>, b: Id)
    requires b in c.reservations && b !in due
    ensures b in ExpireRows(c, due).reservations && ExpireRows(c, due).reservations[b] == c.reservations[b]
  {
    if due != [] {
      var n := |due| - 1;
      ExpireRowsFrame(c, due[..n], b);
      ExpireRowFrame(ExpireRows(c, due[..n]), due[n], 3);
    }
  }

  lemma {:induction false} ExpireRowsRoutine(c: Core, due: seq<Id>)
    requires Authority(c) && AllDue(c, due)
    ensures Routine(c, ExpireRows(c, due))
  {
    if due == [] {
      RoutineReflexive(c);
    } else {
      var n := |due| - 1;
      ExpireRowsRoutine(c, due[..n]);
      NextDue(c, due, n, ExpireRows(c, due[..n]), 3);
    }
  }

  lemma NextDue(c: Core, due: seq<Id>, n: nat, c1: Core, writes: nat)
    requires Authority(c) && AllDue(c, due) && n < |due| && c1 == ExpireRows(c, due[..n]) && Routine(c, c1)
    requires writes <= 3
    ensures Routine(c, ExpireRow(c1, due[n], writes))
  {
    ExpireRowsFrame(c, due[..n], due[n]);
    ExpireRowRoutine(c1, due[n], writes);
    RoutineTransitive(c, c1, ExpireRow(c1, due[n], writes));
  }

  lemma DueRows(db: Database, now: nat)
    ensures AllDue(db.core, DueOrder(db, now))
  {
    var due := DueOrder(db, now);
    assert forall i :: 0 <= i < |due| ==> due[i] in due;
  }

  lemma AdvanceRoutine(db: Database, now: nat)
    requires Authority(db.core)
    ensures Routine(db.core, AdvanceClock(db, now).core)
  {
    DueRows(db, now);
    hide DueOrder;
    ExpireRowsRoutine(db.core, DueOrder(db, now));
  }

  lemma AdvanceCutRoutine(db: Database, now: nat, rows: nat, writes: nat)
    requires Authority(db.core) && rows < |DueOrder(db, now)| && writes <= 3
    ensures Routine(db.core, AdvanceCut(db, now, rows, writes).core)
  {
    DueRows(db, now);
    hide DueOrder;
    var due := DueOrder(db, now);
    ExpireRowsRoutine(db.core, due[..rows]);
    NextDue(db.core, due, rows, ExpireRows(db.core, due[..rows]), writes);
  }

  // ---------------------------------------------------------------- heartbeat

  lemma MergeOneRoutine(m: Merge, node: Id, report: AllocationReport, newer: bool)
    requires Authority(m.db.core) && MergeOne(m, node, report, newer).Some?
    ensures Routine(m.db.core, MergeOne(m, node, report, newer).value.db.core)
  {
    hide Routine;
    var a := report.assignment;
    RoutineReflexive(m.db.core);
    if a in m.db.core.reservations {
      MergeRowRoutine(m.db.core, a, report.phase, report.observed, newer);
    }
  }

  lemma {:induction false} MergeAllRoutine(m: Merge, node: Id, reports: seq<AllocationReport>, newer: bool)
    requires Authority(m.db.core) && MergeAll(m, node, reports, newer).Some?
    ensures Routine(m.db.core, MergeAll(m, node, reports, newer).value.db.core)
  {
    if reports == [] {
      RoutineReflexive(m.db.core);
    } else {
      var n := |reports| - 1;
      MergeAllRoutine(m, node, reports[..n], newer);
      var before := MergeAll(m, node, reports[..n], newer).value;
      MergeOneRoutine(before, node, reports[n], newer);
      RoutineTransitive(m.db.core, before.db.core, MergeAll(m, node, reports, newer).value.db.core);
    }
  }

  /** Whatever a node reports, its heartbeat is a routine step: it opens and completes nothing and makes nothing live again. */
  lemma MergeReportRoutine(db: Database, cfg: Config, report: NodeReport, now: nat)
    requires Authority(db.core) && MergeReport(db, cfg, report, now).Some?
    ensures var db' := MergeReport(db, cfg, report, now).value.db;
      Routine(db.core, db'.core) && db'.work == db.work && report.node in db'.nodes
  {
    var start := Merge(PutNode(db, report, now), {}, {});
    MergeAllRoutine(start, report.node, report.allocations, Newer(db, report));
    var merged := MergeAll(start, report.node, report.allocations, Newer(db, report)).value;
    var missing := Missing(merged.db, report.node, report.node in db.sessions, merged.seen);
    FenceMissingRoutine(merged.db.core, missing);
    RoutineTransitive(db.core, merged.db.core, FenceMissing(merged.db.core, missing));
  }

  lemma RecordFailureRoutine(db: Database, cfg: Config, a: Id, generation: nat, kind: FailureKind, now: nat)
    requires Authority(db.core) && RecordFailure(db, cfg, a, generation, kind, now).Some?
    ensures var db' := RecordFailure(db, cfg, a, generation, kind, now).value;
      Routine(db.core, db'.core) && db'.work == db.work && db'.nodes == db.nodes
  {
    hide FailureOutcome, Routine, Conclude;
    if a in db.failures {
      RoutineReflexive(db.core);
    } else if FailureOutcome(db, cfg, a, generation, kind, now).value.1 {
      ConcludeRoutine(db.core, TaskOf(db.core, a), Queued);
    } else {
      ConcludeRoutine(db.core, TaskOf(db.core, a), NeedsReconciliation);
    }
  }

  // ---------------------------------------------------------------- operators, sessions, results

  lemma RetryTaskRoutine(db: Database, t: Id, confirmed: bool)
    requires Authority(db.core) && RetryTask(db, t, confirmed).Some?
    ensures Routine(db.core, RetryTask(db, t, confirmed).value.core)
    ensures RetryTask(db, t, confirmed).value.work == db.work
  {
    SetStatusRoutine(db.core, t, Queued);
  }

  lemma SessionRoutine(db: Database, node: Id, boot: Id, session: Id)
    requires Authority(db.core) && OpenReplaySession(db, node, boot, session).Some?
    ensures Routine(db.core, OpenReplaySession(db, node, boot, session).value.core)
    ensures OpenReplaySession(db, node, boot, session).value.work == db.work
  {
    hide Routine;
    RoutineReflexive(db.core);
    ReplaceSessionRoutine(db.core, node);
  }

  lemma SubmitProgress(cfg: Config, db: Database, id: Id, job: Job, sequences: map<Id, nat>)
    requires Sound(cfg, db.core, db.work) && Submit(db, id, job, sequences).Some?
    ensures Progress(cfg, db, Submit(db, id, job, sequences).value)
  {
    RoutineReflexive(db.core);
    var db' := Submit(db, id, job, sequences).value;
    if id !in db.jobs {
      var more := map t | t in job.tasks :: Task(job.tasks[t].replaySafe, Queued, 0, None, None);
      assert db'.core.tasks == db.core.tasks + more;
      NewTasksKeep(db.core, more);
    }
    CoreProgress(cfg, db, db');
  }

  lemma MorePublished(cfg: Config, c: Core, w: Work, row: (Id, nat, Artifact))
    requires Sound(cfg, c, w)
    ensures Sound(cfg, c, w.(publications := w.publications + {row}))
  {
    var w' := w.(publications := w.publications + {row});
    forall t | t in w'.results ensures ResultSound(cfg, c, w', t) {
      assert ResultSound(cfg, c, w, t);
    }
    forall t | t in w'.checkpoints ensures CheckpointSound(cfg, c, w', t) {
      assert CheckpointSound(cfg, c, w, t);
    }
  }

  lemma PublicationProgress(cfg: Config, db: Database, row: (Id, nat, Artifact))
    requires Sound(cfg, db.core, db.work)
    ensures Progress(cfg, db, db) && Progress(cfg, db, db.(work := db.work.(publications := db.work.publications + {row})))
  {
    RoutineReflexive(db.core);
    MorePublished(cfg, db.core, db.work, row);
  }

  lemma UploadProgress(cfg: Config, db: Database, p: Principal, a: Id, generation: nat, artifact: Artifact)
    requires Sound(cfg, db.core, db.work) && CommitUpload(db, p, a, generation, artifact).Some?
    ensures Progress(cfg, db, CommitUpload(db, p, a, generation, artifact).value)
  {
    hide Progress, Sound;
    PublicationProgress(cfg, db, (a, generation, artifact));
  }

  /** What a newly stored checkpoint or result must bring. */
  ghost predicate Creditable(db: Database, s: Submission) {
    && s.assignment in db.core.reservations && s.task in db.core.tasks
    && AttemptOf(db.core, s.assignment) == Attempt(s.task, s.generation)
    && db.core.tasks[s.task].assignment == Some(s.assignment)
    && db.core.tasks[s.task].generation == s.generation && db.core.tasks[s.task].status == Assigned
    && db.core.reservations[s.assignment].leaseSequence > 0
    && (forall i :: 0 <= i < |s.artifacts| ==> (s.assignment, s.generation, s.artifacts[i]) in db.work.publications)
  }

  /** `Accept` acknowledges what is already committed, or stores work of the leased, current attempt. */
  lemma AcceptCases(db: Database, cfg: Config, p: Principal, s: Submission, intact: set<Artifact>, checkpoint: bool)
    requires Accept(db, cfg, p, s, intact, checkpoint).Some?
    ensures var (db', receipt) := Accept(db, cfg, p, s, intact, checkpoint).value;
      && receipt == cfg.digest(s)
      && (db' != db ==> Creditable(db, s))
      && (db' != db && checkpoint ==>
            && s.sequence.Some? && s.sequence.value > 0
            && db' == db.(work := db.work.(checkpoints := db.work.checkpoints[s.task := Checkpoint(s, receipt)]))
            && (s.task in db.work.checkpoints ==>
                  var prior := db.work.checkpoints[s.task].submission;
                  prior.generation == s.generation ==>
                    prior.sequence.Some? && prior.sequence.value <= s.sequence.value))
      && (db' != db && !checkpoint ==>
            && db' == db.(work := db.work.(results := db.work.results[s.task := s]),
                          core := CompleteCore(db.core, s.task, receipt)))
  {
  }

  lemma CheckpointStored(cfg: Config, c: Core, w: Work, s: Submission)
    requires Sound(cfg, c, w) && Backed(c, w, s.task, s)
    requires s.task in c.tasks && c.tasks[s.task].generation == s.generation
    requires s.sequence.Some? && s.sequence.value > 0
    ensures Sound(cfg, c, w.(checkpoints := w.checkpoints[s.task := Checkpoint(s, cfg.digest(s))]))
  {
    var w' := w.(checkpoints := w.checkpoints[s.task := Checkpoint(s, cfg.digest(s))]);
    forall t | t in w'.results ensures ResultSound(cfg, c, w', t) {
      assert ResultSound(cfg, c, w, t);
    }
    forall t | t in w'.checkpoints ensures CheckpointSound(cfg, c, w', t) {
      assert t != s.task ==> CheckpointSound(cfg, c, w, t);
    }
  }

  lemma CheckpointProgress(cfg: Config, db: Database, s: Submission)
    requires Sound(cfg, db.core, db.work) && Creditable(db, s)
    requires s.sequence.Some? && s.sequence.value > 0
    requires s.task in db.work.checkpoints ==>
               var prior := db.work.checkpoints[s.task].submission;
               prior.generation == s.generation ==> prior.sequence.Some? && prior.sequence.value <= s.sequence.value
    ensures Progress(cfg, db, db.(work := db.work.(checkpoints :=
                       db.work.checkpoints[s.task := Checkpoint(s, cfg.digest(s))])))
  {
    CheckpointStored(cfg, db.core, db.work, s);
    RoutineReflexive(db.core);
    assert s.task in db.work.checkpoints ==> CheckpointSound(cfg, db.core, db.work, s.task);
  }

  lemma ResultStored(cfg: Config, c: Core, w: Work, s: Submission)
    requires Authority(c) && s.task !in w.results
    requires forall t :: t in c.tasks && c.tasks[t].status == Completed ==> t in w.results || t == s.task
    requires forall t :: t in w.results ==> ResultSound(cfg, c, w, t)
    requires forall t :: t in w.checkpoints ==> CheckpointSound(cfg, c, w, t)
    requires Backed(c, w, s.task, s) && s.task in c.tasks && c.tasks[s.task].status == Completed
    requires c.tasks[s.task].receipt == Some(cfg.digest(s)) && c.tasks[s.task].assignment == Some(s.assignment)
    ensures Sound(cfg, c, w.(results := w.results[s.task := s]))
  {
    var w' := w.(results := w.results[s.task := s]);
    forall t | t in w'.results ensures ResultSound(cfg, c, w', t) {
      assert t != s.task ==> ResultSound(cfg, c, w, t);
    }
    forall t | t in w'.checkpoints ensures CheckpointSound(cfg, c, w', t) {
      assert CheckpointSound(cfg, c, w, t);
    }
  }

  lemma ResultsCompleted(cfg: Config, c: Core, w: Work)
    requires Sound(cfg, c, w)
    ensures forall t :: t in w.results ==> t in c.tasks && c.tasks[t].status == Completed
  {
    forall t | t in w.results ensures t in c.tasks && c.tasks[t].status == Completed {
      assert ResultSound(cfg, c, w, t);
    }
  }

  lemma ResultAccepted(cfg: Config, c: Core, w: Work, s: Submission)
    requires Sound(cfg, c, w) && Backed(c, w, s.task, s) && s.task in c.tasks
    requires c.tasks[s.task].status != Completed && c.tasks[s.task].assignment == Some(s.assignment)
    ensures Sound(cfg, CompleteCore(c, s.task, cfg.digest(s)), w.(results := w.results[s.task := s]))
  {
    var c' := CompleteCore(c, s.task, cfg.digest(s));
    ResultsCompleted(cfg, c, w);
    CompleteKeeps(c, s.task, cfg.digest(s));
    ResultsForward(cfg, c, c', w);
    CheckpointsStay(cfg, c, c', w);
    BackedForward(c, w, c', w, s.task, s);
    hide ResultSound, CheckpointSound;
    ResultStored(cfg, c', w, s);
  }

  lemma ResultProgress(cfg: Config, db: Database, s: Submission)
    requires Sound(cfg, db.core, db.work) && Creditable(db, s)
    ensures Progress(cfg, db, db.(work := db.work.(results := db.work.results[s.task := s]),
                                  core := CompleteCore(db.core, s.task, cfg.digest(s))))
  {
    ResultAccepted(cfg, db.core, db.work, s);
    ResultsCompleted(cfg, db.core, db.work);
    NewResultForward(db.work, s);
    CompleteKeeps(db.core, s.task, cfg.digest(s));
    hide CompleteCore, WorkForward;
  }

  lemma NewResultForward(w: Work, s: Submission)
    requires s.task !in w.results
    ensures WorkForward(w, w.(results := w.results[s.task := s]))
  {
  }

  lemma SameProgress(cfg: Config, db: Database)
    requires Sound(cfg, db.core, db.work)
    ensures Progress(cfg, db, db)
  {
    RoutineReflexive(db.core);
  }

  lemma AcceptProgress(cfg: Config, db: Database, p: Principal, s: Submission, intact: set<Artifact>, checkpoint: bool)
    requires Sound(cfg, db.core, db.work) && Accept(db, cfg, p, s, intact, checkpoint).Some?
    ensures Progress(cfg, db, Accept(db, cfg, p, s, intact, checkpoint).value.0)
  {
    hide Accept;
    AcceptCases(db, cfg, p, s, intact, checkpoint);
    if Accept(db, cfg, p, s, intact, checkpoint).value.0 == db {
      SameProgress(cfg, db);
    } else if checkpoint {
      CheckpointProgress(cfg, db, s);
    } else {
      ResultProgress(cfg, db, s);
    }
  }

  // ---------------------------------------------------------------- scheduling

  /** Opens attempts under identifiers of `drawn` only; completes, leases and revives nothing. */
  ghost predicate Opening(c: Core, c': Core, drawn: set<Id>) {
    && Authority(c') && Forward(c, c') && SameCompletions(c, c') && SameLeases(c, c')
    && c'.reservations.Keys <= c.reservations.Keys + drawn
  }

  lemma OpeningTransitive(a: Core, b: Core, c: Core, drawn: set<Id>, more: set<Id>)
    requires Opening(a, b, drawn) && Opening(b, c, more)
    ensures Opening(a, c, drawn + more)
  {
    ForwardTransitive(a, b, c);
    forall x | x in a.reservations && x in c.reservations
      ensures c.reservations[x].leaseSequence == a.reservations[x].leaseSequence
    {
      assert RowForward(a, b, x);
    }
  }

  lemma RoutineOpens(c: Core, c': Core, drawn: set<Id>)
    requires Routine(c, c')
    ensures Opening(c, c', drawn)
  {
  }

  lemma OfferOpens(c: Core, t: Id, a: Id, row: Reservation)
    requires Authority(c) && t in c.tasks && c.tasks[t].status == Queued
    requires a !in c.assignments && a !in c.reservations && Held(c, t) == {}
    ensures Opening(c, OfferCore(c, t, a, row), {a})
  {
    OfferKeeps(c, t, a, row);
  }

  lemma EnactOpens(p: Pass, cfg: Config, report: NodeReport, now: nat, t: Id, a: Id, v: Verdict)
    requires Authority(p.db.core) && t in p.db.core.tasks && p.db.core.tasks[t].status == Queued
    requires v.Place? ==> p.slots > 0 && Held(p.db.core, t) == {}
    requires Enact(p, cfg, report, now, t, a, v).Some?
    ensures Opening(p.db.core, Enact(p, cfg, report, now, t, a, v).value.db.core, {a})
  {
    hide Opening;
    var c := p.db.core;
    if v.Exhaust? {
      SetStatusRoutine(c, t, NeedsReconciliation);
      RoutineOpens(c, SetStatus(c, t, NeedsReconciliation), {a});
    } else if v.Place? {
      OfferOpens(c, t, a, Enact(p, cfg, report, now, t, a, v).value.db.core.reservations[a]);
    } else {
      RoutineReflexive(c);
      RoutineOpens(c, c, {a});
    }
  }

  lemma ConsiderOpens(p: Pass, cfg: Config, report: NodeReport, now: nat, t: Id, a: Id)
    requires Authority(p.db.core) && t in p.db.core.tasks && p.db.core.tasks[t].status == Queued
    requires Consider(p, cfg, report, now, t, a).Some?
    ensures Opening(p.db.core, Consider(p, cfg, report, now, t, a).value.db.core, {a})
  {
    var v := Judge(p, report, now, t);
    if v.Place? {
      JudgedPlace(p, report, now, t);
    }
    EnactOpens(p, cfg, report, now, t, a, v);
  }

  /** Tasks the loop has not reached are untouched, so the ones it was going to visit are still queued. */
  lemma {:induction false} PassLeavesRest(p: Pass, cfg: Config, report: NodeReport, now: nat, queue: seq<Id>,
                                          uuid: Id -> Id, u: Id)
    requires report.node in p.db.nodes && (forall t :: t in queue ==> t in p.db.core.tasks)
    requires u in p.db.core.tasks && u !in queue && ConsiderAll(p, cfg, report, now, queue, uuid).Some?
    ensures var q := ConsiderAll(p, cfg, report, now, queue, uuid).value;
            u in q.db.core.tasks && q.db.core.tasks[u] == p.db.core.tasks[u]
  {
    if queue != [] {
      var n := |queue| - 1;
      assert queue[n] in queue;
      PassLeavesRest(p, cfg, report, now, queue[..n], uuid, u);
      ConsiderFrame(ConsiderAll(p, cfg, report, now, queue[..n], uuid).value, cfg, report, now, queue[n], uuid(queue[n]));
    }
  }

  function Drawn(queue: seq<Id>, uuid: Id -> Id): set<Id> {
    set t | t in queue :: uuid(t)
  }

  lemma {:induction false} PassOpens(p: Pass, cfg: Config, report: NodeReport, now: nat, queue: seq<Id>, uuid: Id -> Id)
    requires Authority(p.db.core) && report.node in p.db.nodes && Distinct(queue)
    requires forall t :: t in queue ==> t in p.db.core.tasks && p.db.core.tasks[t].status == Queued
    requires ConsiderAll(p, cfg, report, now, queue, uuid).Some?
    ensures Opening(p.db.core, ConsiderAll(p, cfg, report, now, queue, uuid).value.db.core, Drawn(queue, uuid))
  {
    if queue == [] {
      RoutineReflexive(p.db.core);
    } else {
      var n := |queue| - 1;
      var t := queue[n];
      assert t in queue && t !in queue[..n];
      PassOpens(p, cfg, report, now, queue[..n], uuid);
      PassLeavesRest(p, cfg, report, now, queue[..n], uuid, t);
      var q := ConsiderAll(p, cfg, report, now, queue[..n], uuid).value;
      DrawnOneMore(queue, uuid);
      PassExtends(p.db.core, q, cfg, report, now, t, uuid(t), Drawn(queue[..n], uuid));
    }
  }

  lemma DrawnOneMore(queue: seq<Id>, uuid: Id -> Id)
    requires queue != []
    ensures var n := |queue| - 1; Drawn(queue, uuid) == Drawn(queue[..n], uuid) + {uuid(queue[n])}
  {
    var n := |queue| - 1;
    assert queue == queue[..n] + [queue[n]];
  }

  lemma PassExtends(c: Core, q: Pass, cfg: Config, report: NodeReport, now: nat, t: Id, a: Id, drawn: set<Id>)
    requires Opening(c, q.db.core, drawn) && t in q.db.core.tasks && q.db.core.tasks[t].status == Queued
    requires Consider(q, cfg, report, now, t, a).Some?
    ensures Opening(c, Consider(q, cfg, report, now, t, a).value.db.core, drawn + {a})
  {
    ConsiderOpens(q, cfg, report, now, t, a);
    OpeningTransitive(c, q.db.core, Consider(q, cfg, report, now, t, a).value.db.core, drawn, {a});
  }

  /** A scheduling pass opens attempts only for tasks that hold nothing, under freshly drawn identifiers. */
  lemma ScheduleOpens(db: Database, cfg: Config, report: NodeReport, now: nat, uuid: Id -> Id)
    requires Authority(db.core) && report.node in db.nodes && Schedule(db, cfg, report, now, uuid).Some?
    ensures Opening(db.core, Schedule(db, cfg, report, now, uuid).value.core, Drawn(Queue(db), uuid))
  {
    if db.nodes[report.node].drain || !ReplayNodeCanAdmit(db, report.node) {
      RoutineReflexive(db.core);
      RoutineOpens(db.core, db.core, Drawn(Queue(db), uuid));
    } else {
      PassOpens(Pass(db, NodeCharge(db, report.node).value, FreeSlots(db, report)), cfg, report, now, Queue(db), uuid);
    }
  }

  /** Attempts opened since `start` are held, and every other attempt of their task is released. */
  ghost predicate NewAlone(start: Core, c: Core) {
    forall b :: b in c.reservations && b !in start.reservations ==> c.reservations[b].phase != Released && Alone(c, b)
  }

  lemma SameAlone(start: Core, c: Core, c': Core)
    requires NewAlone(start, c) && c'.reservations == c.reservations && c'.assignments == c.assignments
    ensures NewAlone(start, c')
  {
    forall b | b in c'.reservations && b !in start.reservations ensures Alone(c', b) {
      assert Alone(c, b);
    }
  }

  lemma PlacedAlone(start: Core, c: Core, t: Id, a: Id, row: Reservation)
    requires NewAlone(start, c) && t in c.tasks && a !in c.assignments && a !in c.reservations && Held(c, t) == {}
    requires row.phase != Released
    ensures NewAlone(start, OfferCore(c, t, a, row))
  {
    var c' := OfferCore(c, t, a, row);
    forall b | b in c'.reservations && b !in start.reservations
      ensures c'.reservations[b].phase != Released && Alone(c', b)
    {
      OfferAlone(c, t, a, row, b);
    }
  }

  lemma EnactAlone(start: Core, p: Pass, cfg: Config, report: NodeReport, now: nat, t: Id, a: Id, v: Verdict)
    requires NewAlone(start, p.db.core) && t in p.db.core.tasks
    requires v.Place? ==> p.slots > 0 && Held(p.db.core, t) == {}
    requires Enact(p, cfg, report, now, t, a, v).Some?
    ensures NewAlone(start, Enact(p, cfg, report, now, t, a, v).value.db.core)
  {
    var q := Enact(p, cfg, report, now, t, a, v).value;
    if v.Place? {
      PlacedAlone(start, p.db.core, t, a, q.db.core.reservations[a]);
    } else {
      SameAlone(start, p.db.core, q.db.core);
    }
    hide NewAlone, Held;
  }

  lemma ConsiderAlone(start: Core, p: Pass, cfg: Config, report: NodeReport, now: nat, t: Id, a: Id)
    requires NewAlone(start, p.db.core) && t in p.db.core.tasks && Consider(p, cfg, report, now, t, a).Some?
    ensures NewAlone(start, Consider(p, cfg, report, now, t, a).value.db.core)
  {
    var v := Judge(p, report, now, t);
    if v.Place? {
      JudgedPlace(p, report, now, t);
    }
    EnactAlone(start, p, cfg, report, now, t, a, v);
  }

  lemma {:induction false} PassAlone(start: Core, p: Pass, cfg: Config, report: NodeReport, now: nat, queue: seq<Id>,
                                     uuid: Id -> Id)
    requires report.node in p.db.nodes && (forall t :: t in queue ==> t in p.db.core.tasks)
    requires NewAlone(start, p.db.core) && ConsiderAll(p, cfg, report, now, queue, uuid).Some?
    ensures NewAlone(start, ConsiderAll(p, cfg, report, now, queue, uuid).value.db.core)
  {
    hide NewAlone;
    if queue != [] {
      var n := |queue| - 1;
      assert queue[n] in queue;
      PassAlone(start, p, cfg, report, now, queue[..n], uuid);
      ConsiderAlone(start, ConsiderAll(p, cfg, report, now, queue[..n], uuid).value, cfg, report, now,
                    queue[n], uuid(queue[n]));
    }
  }

  /** A task gets a new attempt only when every earlier one has been reported released. */
  lemma ScheduleAlone(db: Database, cfg: Config, report: NodeReport, now: nat, uuid: Id -> Id)
    requires report.node in db.nodes && Schedule(db, cfg, report, now, uuid).Some?
    ensures NewAlone(db.core, Schedule(db, cfg, report, now, uuid).value.core)
  {
    if !(db.nodes[report.node].drain || !ReplayNodeCanAdmit(db, report.node)) {
      PassAlone(db.core, Pass(db, NodeCharge(db, report.node).value, FreeSlots(db, report)), cfg, report, now, Queue(db),
                uuid);
    }
  }
}
