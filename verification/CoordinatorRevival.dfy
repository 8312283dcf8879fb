/**
 One unreleased reservation per task: not an invariant, and exactly when it is one. Only a node's own report
 releases a row or brings a released one back, so the claim fails at a report that revives a row whose task
 holds another one, and nowhere else.
 */
module CoordinatorRevival {
  import opened Options
  import opened CoordinatorCore
  import opened CoordinatorTables
  import opened CoordinatorRules
  import opened CoordinatorSchedule
  import opened CoordinatorSafety
  import opened CoordinatorRuns
  import opened CoordinatorHistory

  predicate Unresolved(c: Core, a: Id) {
    a in c.reservations && c.reservations[a].phase != Released
  }

  ghost predicate HeldOnce(c: Core) {
    forall a, b :: Unresolved(c, a) && Unresolved(c, b) && TaskOf(c, a) == TaskOf(c, b) ==> a == b
  }

  lemma HeldOnceCounts(c: Core)
    ensures HeldOnce(c) <==> forall t :: |Held(c, t)| <= 1
  {
    if HeldOnce(c) {
      forall t ensures |Held(c, t)| <= 1 {
        if a :| a in Held(c, t) {
          assert forall b :: b in Held(c, t) ==> Unresolved(c, a) && Unresolved(c, b);
          assert Held(c, t) == {a};
        }
      }
    }
    if forall t :: |Held(c, t)| <= 1 {
      forall a, b | Unresolved(c, a) && Unresolved(c, b) && TaskOf(c, a) == TaskOf(c, b) ensures a == b {
        var held := Held(c, TaskOf(c, a));
        assert a in held && b in held;
        assert |held - {a}| == 0;
        assert b !in held - {a};
      }
    }
  }

  // ---------------------------------------------------------------- one report

  /** The phase a report gives for one allocation, if it lists it. */
  function Reported(reports: seq<AllocationReport>, a: Id): Option<Phase> {
    if reports == [] then None
    else if reports[|reports| - 1].assignment == a then Some(reports[|reports| - 1].phase)
    else Reported(reports[..|reports| - 1], a)
  }

  /** Whether a row is unreleased after a report, read off the row and the report. */
  predicate HeldAfter(row: Reservation, reported: Option<Phase>, newer: bool) {
    match reported
    case None => row.phase != Released
    case Some(phase) => if row.phase == Released then Revives(row, phase, newer) else phase != Released
  }

  lemma {:induction false} MergedHeld(m: Merge, node: Id, reports: seq<AllocationReport>, newer: bool, a: Id)
    requires m.db.core.reservations.Keys == m.db.core.assignments.Keys && a in m.db.core.reservations
    requires MergeAll(m, node, reports, newer).Some?
    ensures var m' := MergeAll(m, node, reports, newer).value;
      && (Unresolved(m'.db.core, a) <==> HeldAfter(m.db.core.reservations[a], Reported(reports, a), newer))
      && (Reported(reports, a).None? ==> m'.db.core.reservations[a] == m.db.core.reservations[a])
      && (Reported(reports, a).Some? ==> a in m'.seen) && m.seen <= m'.seen
      && m'.db.core.assignments == m.db.core.assignments
  {
    if reports != [] {
      var n := |reports| - 1;
      MergedHeld(m, node, reports[..n], newer, a);
      MergedNext(MergeAll(m, node, reports[..n], newer).value, node, reports[n], newer, a);
    }
  }

  lemma MergedNext(m: Merge, node: Id, report: AllocationReport, newer: bool, a: Id)
    requires m.db.core.reservations.Keys == m.db.core.assignments.Keys && a in m.db.core.reservations
    requires MergeOne(m, node, report, newer).Some?
    ensures var m' := MergeOne(m, node, report, newer).value;
      && m'.seen == m.seen + {report.assignment} && m'.db.core.assignments == m.db.core.assignments
      && if report.assignment != a then m'.db.core.reservations[a] == m.db.core.reservations[a]
         else a !in m.seen
              && (Unresolved(m'.db.core, a) <==> HeldAfter(m.db.core.reservations[a], Some(report.phase), newer))
  {
    MergedShape(m, node, report, newer);
    if report.assignment == a {
      hide MergeOne;
      RevivedIsFenced(m.db.core, a, report.phase, report.observed, newer);
      hide MergeRow;
    } else {
      hide MergeOne, MergedPhase, HeldAfter;
    }
  }

  lemma MergedShape(m: Merge, node: Id, report: AllocationReport, newer: bool)
    requires m.db.core.reservations.Keys == m.db.core.assignments.Keys
    requires MergeOne(m, node, report, newer).Some?
    ensures var m' := MergeOne(m, node, report, newer).value;
      && m'.seen == m.seen + {report.assignment} && report.assignment !in m.seen
      && m'.db.core == if report.assignment in m.db.core.reservations
                       then MergeRow(m.db.core, report.assignment, report.phase, report.observed, newer) else m.db.core
  {
    hide MergeRow, MergedPhase;
  }

  /** A report decides the release of every row, listed or not: listed rows as reported, unless it revives nothing. */
  lemma ReportHeld(db: Database, cfg: Config, report: NodeReport, now: nat, a: Id)
    requires Keyed(db.core) && MergeReport(db, cfg, report, now).Some? && a in db.core.reservations
    ensures Unresolved(MergeReport(db, cfg, report, now).value.db.core, a) <==> StaysHeld(db, report, a)
  {
    var start := Merge(PutNode(db, report, now), {}, {});
    MergedHeld(start, report.node, report.allocations, Newer(db, report), a);
    var merged := MergeAll(start, report.node, report.allocations, Newer(db, report)).value;
    var missing := Missing(merged.db, report.node, report.node in db.sessions, merged.seen);
    assert Unresolved(FenceMissing(merged.db.core, missing), a) <==> Unresolved(merged.db.core, a);
    hide MergeAll, HeldAfter, ReportAdmissible, Newer, FenceMissing, Missing, PutNode;
  }

  predicate StaysHeld(db: Database, report: NodeReport, a: Id) {
    a in db.core.reservations
    && HeldAfter(db.core.reservations[a], Reported(report.allocations, a), Newer(db, report))
  }

  /** The report brings back a released row whose task has another row that stays held. */
  ghost predicate Collides(db: Database, report: NodeReport) {
    exists a, b :: StaysHeld(db, report, a) && StaysHeld(db, report, b) && a != b
      && TaskOf(db.core, a) == TaskOf(db.core, b) && !Unresolved(db.core, a)
  }

  /** From one held row per task, a report keeps it so exactly when it revives none beside another. */
  lemma ReportKeepsHeldOnce(db: Database, cfg: Config, report: NodeReport, now: nat)
    requires Authority(db.core) && HeldOnce(db.core) && MergeReport(db, cfg, report, now).Some?
    ensures HeldOnce(MergeReport(db, cfg, report, now).value.db.core) <==> !Collides(db, report)
  {
    var c, c' := db.core, MergeReport(db, cfg, report, now).value.db.core;
    MergeReportRoutine(db, cfg, report, now);
    assert c'.assignments == c.assignments && c'.reservations.Keys == c.reservations.Keys;
    forall a | a in c.reservations ensures Unresolved(c', a) <==> StaysHeld(db, report, a) {
      ReportHeld(db, cfg, report, now, a);
    }
    HeldOnceMoves(c, c', db, report);
  }

  lemma HeldOnceMoves(c: Core, c': Core, db: Database, report: NodeReport)
    requires c == db.core && HeldOnce(c) && c'.assignments == c.assignments && c'.reservations.Keys == c.reservations.Keys
    requires forall a :: a in c.reservations ==> (Unresolved(c', a) <==> StaysHeld(db, report, a))
    ensures HeldOnce(c') <==> !Collides(db, report)
  {
    hide HeldAfter;
    assert forall a :: TaskOf(c', a) == TaskOf(c, a);
    if !HeldOnce(c') {
      var a, b :| Unresolved(c', a) && Unresolved(c', b) && TaskOf(c', a) == TaskOf(c', b) && a != b;
      assert StaysHeld(db, report, a) && StaysHeld(db, report, b);
      assert !(Unresolved(c, a) && Unresolved(c, b));
      assert Collides(db, report);
    }
    if Collides(db, report) {
      var a, b :| StaysHeld(db, report, a) && StaysHeld(db, report, b) && a != b
        && TaskOf(db.core, a) == TaskOf(db.core, b) && !Unresolved(db.core, a);
      assert Unresolved(c', a) && Unresolved(c', b);
    }
  }

  // ---------------------------------------------------------------- everything else

  /** Every row that was there keeps its task and whether it is released. */
  ghost predicate SameHeld(c: Core, c': Core) {
    forall a :: a in c.reservations ==>
      a in c'.reservations && TaskOf(c', a) == TaskOf(c, a) && (Unresolved(c', a) <==> Unresolved(c, a))
  }

  lemma SameHeldTransitive(a: Core, b: Core, c: Core)
    requires SameHeld(a, b) && SameHeld(b, c)
    ensures SameHeld(a, c)
  {
  }

  /** New attempts that start alone, and no release or revival of an old one, change nothing. */
  lemma SameHeldOnce(c: Core, c': Core)
    requires SameHeld(c, c') && NewAlone(c, c')
    ensures HeldOnce(c') <==> HeldOnce(c)
  {
    if HeldOnce(c) {
      forall a, b | Unresolved(c', a) && Unresolved(c', b) && TaskOf(c', a) == TaskOf(c', b) ensures a == b {
        if a !in c.reservations {
          assert Alone(c', a);
        } else if b !in c.reservations {
          assert Alone(c', b);
        }
      }
    }
    if HeldOnce(c') {
      forall a, b | Unresolved(c, a) && Unresolved(c, b) && TaskOf(c, a) == TaskOf(c, b) ensures a == b {
        assert Unresolved(c', a) && Unresolved(c', b);
      }
    }
  }

  lemma ExpireRowHeld(c: Core, a: Id, writes: nat)
    requires Unresolved(c, a) && writes <= 3
    ensures SameHeld(c, ExpireRow(c, a, writes))
  {
  }

  lemma {:induction false} ExpireRowsHeld(c: Core, due: seq<Id>)
    requires AllDue(c, due)
    ensures SameHeld(c, ExpireRows(c, due))
  {
    if due != [] {
      var n := |due| - 1;
      ExpireRowsHeld(c, due[..n]);
      ExpireNextHeld(c, due, n, 3);
    }
  }

  lemma ExpireNextHeld(c: Core, due: seq<Id>, n: nat, writes: nat)
    requires AllDue(c, due) && n < |due| && writes <= 3 && SameHeld(c, ExpireRows(c, due[..n]))
    ensures SameHeld(c, ExpireRow(ExpireRows(c, due[..n]), due[n], writes))
  {
    var c1 := ExpireRows(c, due[..n]);
    ExpireRowsFrame(c, due[..n], due[n]);
    ExpireRowHeld(c1, due[n], writes);
    SameHeldTransitive(c, c1, ExpireRow(c1, due[n], writes));
  }

  lemma ClockHeld(db: Database, now: nat)
    ensures SameHeld(db.core, AdvanceClock(db, now).core)
    ensures forall rows: nat, writes: nat :: rows < |DueOrder(db, now)| && writes <= 3 ==>
              SameHeld(db.core, AdvanceCut(db, now, rows, writes).core)
  {
    var due := DueOrder(db, now);
    DueRows(db, now);
    hide DueOrder, SameHeld;
    ExpireRowsHeld(db.core, due);
    forall rows: nat, writes: nat | rows < |due| && writes <= 3
      ensures SameHeld(db.core, AdvanceCut(db, now, rows, writes).core)
    {
      ExpireRowsHeld(db.core, due[..rows]);
      ExpireNextHeld(db.core, due, rows, writes);
    }
  }

  lemma GrantHeld(cfg: Config, db: Database, a: Id, generation: nat, previous: Option<nat>, now: nat)
    requires Authority(db.core) && Grant(db, cfg, a, generation, previous, now).Some?
    ensures SameHeld(db.core, Grant(db, cfg, a, generation, previous, now).value.0.core)
  {
    GrantShape(db, cfg, a, generation, previous, now);
  }

  lemma ReplaceHeld(c: Core, node: Id)
    ensures SameHeld(c, ReplaceSession(c, node))
  {
  }

  lemma SessionHeld(db: Database, node: Id, boot: Id, session: Id)
    requires OpenReplaySession(db, node, boot, session).Some?
    ensures SameHeld(db.core, OpenReplaySession(db, node, boot, session).value.core)
  {
    SameRowsHeld(db.core, db.core);
    ReplaceHeld(db.core, node);
    hide SameHeld, ReplaceSession;
  }

  lemma SameRowsHeld(c: Core, c': Core)
    requires SameRows(c, c')
    ensures SameHeld(c, c')
  {
  }

  lemma PrepareHeld(cfg: Config, db: Database, p: Principal, r: Request, now: nat)
    requires Authority(db.core) && r.Prepared?
    ensures SameHeld(db.core, Prepare(db, cfg, p, r.assignment, r.generation, r.epoch, r.record, now).0.core)
  {
    SameRowsHeld(db.core, db.core);
    var recorded := RecordPreparation(db, p, r.assignment, r.generation, r.epoch, r.record);
    if recorded.Some? {
      assert recorded.value.core == db.core;
      hide RecordPreparation;
      if Grant(recorded.value, cfg, r.assignment, r.generation, None, now).Some? {
        GrantHeld(cfg, recorded.value, r.assignment, r.generation, None, now);
        hide Grant, SameHeld;
      }
    }
  }

  lemma RenewHeld(cfg: Config, db: Database, p: Principal, r: Request, now: nat)
    requires Authority(db.core) && r.Renew?
    ensures SameHeld(
      db.core, CoordinatorRules.Renew(db, cfg, p, r.assignment, r.generation, r.epoch, r.previous, now).0.core)
  {
    SameRowsHeld(db.core, db.core);
    if Grant(db, cfg, r.assignment, r.generation, Some(r.previous), now).Some? {
      GrantHeld(cfg, db, r.assignment, r.generation, Some(r.previous), now);
    }
    hide Grant, SameHeld;
  }

  /** No request but a heartbeat releases a row or brings one back. */
  lemma ExecuteHeld(cfg: Config, db: Database, p: Principal, r: Request, now: nat, o: Oracle)
    requires Authority(db.core) && !r.Heartbeat?
    ensures SameHeld(db.core, Execute(db, cfg, p, r, now, o).0.core)
  {
    hide SameHeld, Prepare, CoordinatorRules.Renew;
    if r.Prepared? {
      PrepareHeld(cfg, db, p, r, now);
    } else if r.Renew? {
      RenewHeld(cfg, db, p, r, now);
    } else if r.OpenSession? {
      SameRowsHeld(db.core, db.core);
      if OpenReplaySession(db, r.node, r.boot, r.session).Some? {
        SessionHeld(db, r.node, r.boot, r.session);
      }
      hide OpenReplaySession;
    } else {
      PlainRows(cfg, db, p, r, now, o);
      hide Execute;
      SameRowsHeld(db.core, Execute(db, cfg, p, r, now, o).0.core);
    }
  }

  ghost predicate SameRows(c: Core, c': Core) {
    c'.reservations == c.reservations && c'.assignments == c.assignments
  }

  lemma OrRows(db: Database, next: Option<Database>)
    requires next.Some? ==> SameRows(db.core, next.value.core)
    ensures SameRows(db.core, Or(db, next).0.core)
  {
  }

  lemma PlainRows(cfg: Config, db: Database, p: Principal, r: Request, now: nat, o: Oracle)
    requires !r.Heartbeat? && !r.Prepared? && !r.Renew? && !r.OpenSession?
    ensures SameRows(db.core, Execute(db, cfg, p, r, now, o).0.core)
  {
    hide Or;
    if r.Complete? || r.PublishCheckpoint? {
      AcceptRows(db, cfg, p, r.submission, o.intact, r.PublishCheckpoint?);
      hide Accept;
    } else if OperatorOnly(r) || r.NodeSession? {
      hide Execute;
      OperatorRows(cfg, db, p, r, now, o);
    } else if r.CommitUpload? {
      WorkRows(db, cfg, p, r, now);
      OrRows(db, CoordinatorRules.CommitUpload(db, p, r.assignment, r.generation, r.artifact));
      hide CoordinatorRules.CommitUpload, SameRows;
    } else {
      WorkRows(db, cfg, p, r, now);
      OrRows(db, RecordFailure(db, cfg, r.assignment, r.generation, r.kind, now));
      hide RecordFailure, MayAct;
    }
  }

  lemma OperatorRows(cfg: Config, db: Database, p: Principal, r: Request, now: nat, o: Oracle)
    requires OperatorOnly(r) || r.NodeSession?
    ensures SameRows(db.core, Execute(db, cfg, p, r, now, o).0.core)
  {
    TaskRows(db, r, o);
    hide Submit, RetryTask, Or;
    if r.SubmitJob? {
      OrRows(db, Submit(db, r.job, r.jobSpec, o.sequences));
    } else if r.Retry? {
      OrRows(db, RetryTask(db, r.task, r.confirmed));
    } else {
      CatalogueCore(cfg, db, p, r, now, o);
      hide Execute;
    }
  }

  lemma CatalogueCore(cfg: Config, db: Database, p: Principal, r: Request, now: nat, o: Oracle)
    requires r.NodeSession? || r.PutPool? || r.Cancel? || r.DrainNode?
    ensures Execute(db, cfg, p, r, now, o).0.core == db.core
  {
    hide Or;
    if r.PutPool? {
      OrCore(db, CoordinatorRules.PutPool(db, r.pool, r.poolSpec));
    } else if r.Cancel? {
      OrCore(db, CancelJob(db, r.job));
    } else if r.DrainNode? {
      OrCore(db, SetDrain(db, r.node, r.drain));
    }
  }

  lemma OrCore(db: Database, next: Option<Database>)
    requires next.Some? ==> next.value.core == db.core
    ensures Or(db, next).0.core == db.core
  {
  }

  lemma AcceptRows(db: Database, cfg: Config, p: Principal, s: Submission, intact: set<Artifact>, checkpoint: bool)
    ensures var r := Accept(db, cfg, p, s, intact, checkpoint); r.Some? ==> SameRows(db.core, r.value.0.core)
  {
    if Accept(db, cfg, p, s, intact, checkpoint).Some? {
      AcceptCases(db, cfg, p, s, intact, checkpoint);
      hide Accept;
    }
  }

  lemma TaskRows(db: Database, r: Request, o: Oracle)
    ensures r.SubmitJob? ==>
      var next := Submit(db, r.job, r.jobSpec, o.sequences); next.Some? ==> SameRows(db.core, next.value.core)
    ensures r.Retry? ==>
      var next := RetryTask(db, r.task, r.confirmed); next.Some? ==> SameRows(db.core, next.value.core)
  {
    if r.Retry? {
      hide Held;
    }
  }

  lemma WorkRows(db: Database, cfg: Config, p: Principal, r: Request, now: nat)
    ensures r.CommitUpload? ==>
      var next := CoordinatorRules.CommitUpload(db, p, r.assignment, r.generation, r.artifact);
      next.Some? ==> next.value.core == db.core
    ensures r.Fail? ==>
      var next := RecordFailure(db, cfg, r.assignment, r.generation, r.kind, now);
      next.Some? ==> SameRows(db.core, next.value.core)
  {
    hide FailureOutcome, MayAct, CurrentAttempt;
  }

  lemma {:induction false} LateReleasesRows(db: Database, cfg: Config, reports: seq<AllocationReport>, now: nat)
    ensures SameRows(db.core, LateReleases(db, cfg, reports, now).0.core)
  {
    hide FailureOutcome;
    if reports != [] {
      LateReleasesRows(db, cfg, reports[..|reports| - 1], now);
    }
  }

  /** After the merge, the rest of a heartbeat neither releases nor revives. */
  lemma BeatHeld(db: Database, cfg: Config, report: NodeReport, now: nat, uuid: Id -> Id)
    requires MergeReport(db, cfg, report, now).Some?
    ensures SameHeld(MergeReport(db, cfg, report, now).value.db.core, Beat(db, cfg, report, now, uuid).0.core)
  {
    var heard := MergeReport(db, cfg, report, now).value;
    var released := LateReleases(heard.db, cfg, report.allocations, now).0;
    LateReleasesRows(heard.db, cfg, report.allocations, now);
    SameRowsHeld(heard.db.core, released.core);
    if report.node in released.nodes && Schedule(released, cfg, report, now, uuid).Some? {
      ScheduleHeld(released, cfg, report, now, uuid);
      SameHeldTransitive(heard.db.core, released.core, Schedule(released, cfg, report, now, uuid).value.core);
    }
    hide MergeReport, LateReleases, Schedule, SameHeld, MaySchedule;
  }

  lemma ScheduleHeld(db: Database, cfg: Config, report: NodeReport, now: nat, uuid: Id -> Id)
    requires report.node in db.nodes && Schedule(db, cfg, report, now, uuid).Some?
    ensures SameHeld(db.core, Schedule(db, cfg, report, now, uuid).value.core)
  {
    ScheduleFits(db, cfg, report, now, uuid);
    hide Schedule;
  }

  // ---------------------------------------------------------------- one call

  /** The report a call merges and commits, if it does. */
  function Merged(cfg: Config, db: Database, p: Principal, r: Request, now: nat): Option<NodeReport> {
    var inner := ValidateSession(db, p, r);
    if inner.Some? && now >= db.clock && inner.value.Heartbeat? && p == Node(inner.value.report.node)
       && MergeReport(AdvanceClock(db, now), cfg, inner.value.report, now).Some?
    then Some(inner.value.report) else None
  }

  /** Expiry does not decide a collision: it can be read off the tables as the call finds them. */
  lemma ClockCollides(db: Database, now: nat, report: NodeReport)
    requires Authority(db.core)
    ensures Collides(AdvanceClock(db, now), report) <==> Collides(db, report)
  {
    var ready := AdvanceClock(db, now);
    AdvanceRoutine(db, now);
    ClockHeld(db, now);
    assert ready.nodes == db.nodes && ready.core.reservations.Keys == db.core.reservations.Keys;
    hide AdvanceClock;
    SameCollides(db, ready, report);
  }

  lemma SameCollides(db: Database, ready: Database, report: NodeReport)
    requires ready.nodes == db.nodes && ready.core.reservations.Keys == db.core.reservations.Keys
    requires SameHeld(db.core, ready.core) && SameLeases(db.core, ready.core)
    ensures Collides(ready, report) <==> Collides(db, report)
  {
    forall a ensures StaysHeld(ready, report, a) <==> StaysHeld(db, report, a) {
      if a in db.core.reservations {
        assert Unresolved(ready.core, a) <==> Unresolved(db.core, a);
      }
    }
    assert forall a :: a in db.core.reservations ==>
      TaskOf(ready.core, a) == TaskOf(db.core, a) && (Unresolved(ready.core, a) <==> Unresolved(db.core, a));
    CollidesAlike(db, ready, report);
    CollidesAlike(ready, db, report);
  }

  lemma CollidesAlike(db: Database, ready: Database, report: NodeReport)
    requires ready.core.reservations.Keys == db.core.reservations.Keys
    requires forall a :: StaysHeld(ready, report, a) <==> StaysHeld(db, report, a)
    requires forall a :: a in db.core.reservations ==>
               TaskOf(ready.core, a) == TaskOf(db.core, a) && (Unresolved(ready.core, a) <==> Unresolved(db.core, a))
    ensures Collides(db, report) ==> Collides(ready, report)
  {
    if Collides(db, report) {
      var a, b :| StaysHeld(db, report, a) && StaysHeld(db, report, b) && a != b
        && TaskOf(db.core, a) == TaskOf(db.core, b) && !Unresolved(db.core, a);
      assert a in db.core.reservations && b in db.core.reservations;
      hide StaysHeld;
      assert StaysHeld(ready, report, a) && StaysHeld(ready, report, b);
    }
  }

  /** From the merge on, a heartbeat's outcome for the claim is settled. */
  lemma MergeSettles(cfg: Config, db: Database, report: NodeReport, now: nat, c: Core)
    requires Authority(db.core) && HeldOnce(db.core) && MergeReport(db, cfg, report, now).Some?
    requires SameHeld(MergeReport(db, cfg, report, now).value.db.core, c) && NewAlone(db.core, c)
    ensures HeldOnce(c) <==> !Collides(db, report)
  {
    var heard := MergeReport(db, cfg, report, now).value.db.core;
    ReportKeepsHeldOnce(db, cfg, report, now);
    MergeReportRoutine(db, cfg, report, now);
    assert heard.reservations.Keys == db.core.reservations.Keys;
    hide MergeReport, Collides, HeldOnce, Routine;
    SameKeysAlone(heard, db.core, c);
    SameHeldOnce(heard, c);
  }

  lemma BeatHeldOnce(cfg: Config, db: Database, report: NodeReport, now: nat, uuid: Id -> Id)
    requires Authority(db.core) && HeldOnce(db.core)
    ensures HeldOnce(Beat(db, cfg, report, now, uuid).0.core)
      <==> !(MergeReport(db, cfg, report, now).Some? && Collides(db, report))
  {
    if MergeReport(db, cfg, report, now).Some? {
      BeatAlone(db, cfg, report, now, uuid);
      BeatHeld(db, cfg, report, now, uuid);
      hide Beat, MergeReport, HeldOnce, Collides, SameHeld, NewAlone;
      MergeSettles(cfg, db, report, now, Beat(db, cfg, report, now, uuid).0.core);
    }
  }

  lemma BeatCutHeldOnce(cfg: Config, db: Database, report: NodeReport, now: nat, releases: nat)
    requires Authority(db.core) && HeldOnce(db.core) && releases <= |report.allocations|
    ensures HeldOnce(BeatCut(db, cfg, report, now, releases).core)
      <==> !(MergeReport(db, cfg, report, now).Some? && Collides(db, report))
  {
    if MergeReport(db, cfg, report, now).Some? {
      var heard := MergeReport(db, cfg, report, now).value;
      BeatCutRoutine(db, cfg, report, now, releases);
      LateReleasesRows(heard.db, cfg, report.allocations[..releases], now);
      SameRowsHeld(heard.db.core, BeatCut(db, cfg, report, now, releases).core);
      NothingOpened(db.core, BeatCut(db, cfg, report, now, releases).core);
      hide MergeReport, HeldOnce, Collides, SameHeld, BeatCut;
      MergeSettles(cfg, db, report, now, BeatCut(db, cfg, report, now, releases).core);
    }
  }

  lemma ReadyHeldOnce(cfg: Config, db: Database, p: Principal, r: Request, now: nat, o: Oracle)
    requires Sound(cfg, db.core, db.work) && HeldOnce(db.core)
    ensures HeldOnce(Execute(db, cfg, p, r, now, o).0.core)
      <==> !(r.Heartbeat? && p == Node(r.report.node) && MergeReport(db, cfg, r.report, now).Some? && Collides(db, r.report))
  {
    hide Collides, HeldOnce, MergeReport;
    if r.Heartbeat? {
      hide Beat;
      if p == Node(r.report.node) {
        BeatHeldOnce(cfg, db, r.report, now, o.uuid);
      }
    } else {
      hide Execute, SameHeld, NewAlone;
      ExecuteAlone(cfg, db, p, r, now, o);
      ExecuteHeld(cfg, db, p, r, now, o);
      SameHeldOnce(db.core, Execute(db, cfg, p, r, now, o).0.core);
    }
  }

  /** One call keeps one held row per task exactly when it commits no colliding report. */
  lemma CallHeldOnce(cfg: Config, db: Database, p: Principal, r: Request, now: nat, o: Oracle)
    requires Sound(cfg, db.core, db.work) && HeldOnce(db.core)
    ensures var m := Merged(cfg, db, p, r, now);
      HeldOnce(Handle(db, cfg, p, r, now, o).0.core) <==> !(m.Some? && Collides(db, m.value))
  {
    hide HeldOnce, Collides, Execute, AdvanceClock, MergeReport;
    var inner := ValidateSession(db, p, r);
    if inner.Some? && now >= db.clock {
      ReadyToCall(cfg, db, now);
      ReadyHeldOnce(cfg, AdvanceClock(db, now), p, inner.value, now, o);
      if inner.value.Heartbeat? {
        ClockCollides(db, now, inner.value.report);
      }
    }
  }

  lemma ReadyToCall(cfg: Config, db: Database, now: nat)
    requires Sound(cfg, db.core, db.work) && HeldOnce(db.core)
    ensures Sound(cfg, AdvanceClock(db, now).core, AdvanceClock(db, now).work) && HeldOnce(AdvanceClock(db, now).core)
  {
    ClockAdvances(cfg, db, now);
    ClockHeld(db, now);
    NothingOpened(db.core, AdvanceClock(db, now).core);
    hide AdvanceClock, HeldOnce, SameHeld;
    SameHeldOnce(db.core, AdvanceClock(db, now).core);
  }

  /** And so does a call that dies half way. */
  lemma CutHeldOnce(cfg: Config, db: Database, p: Principal, r: Request, now: nat, cut: Cut)
    requires Sound(cfg, db.core, db.work) && HeldOnce(db.core)
    ensures HeldOnce(HandleCut(db, cfg, p, r, now, cut).core) <==> !CutCollides(cfg, db, p, r, now, cut)
  {
    var inner := ValidateSession(db, p, r);
    hide HeldOnce, Collides, AdvanceClock, AdvanceCut, DueOrder, MergeReport, BeatCut, RecordPreparation, ValidateSession;
    if inner.Some? && now >= db.clock {
      if cut.InExpiry? {
        ExpiryCutHeldOnce(cfg, db, now, cut.rows, cut.writes);
      } else {
        ReadyToCall(cfg, db, now);
        if cut.InBeat? && inner.value.Heartbeat? && cut.releases <= |inner.value.report.allocations| {
          BeatCutHeldOnce(cfg, AdvanceClock(db, now), inner.value.report, now, cut.releases);
          ClockCollides(db, now, inner.value.report);
        } else if cut.AfterPreparation? && inner.value.Prepared? {
          PreparationCore(AdvanceClock(db, now), p, inner.value);
        }
      }
    }
  }

  ghost predicate CutCollides(cfg: Config, db: Database, p: Principal, r: Request, now: nat, cut: Cut) {
    var m := Merged(cfg, db, p, r, now);
    cut.InBeat? && m.Some? && cut.releases <= |m.value.allocations| && Collides(db, m.value)
  }

  lemma ExpiryCutHeldOnce(cfg: Config, db: Database, now: nat, rows: nat, writes: nat)
    requires Sound(cfg, db.core, db.work) && HeldOnce(db.core)
    ensures rows < |DueOrder(db, now)| && writes <= 3 ==> HeldOnce(AdvanceCut(db, now, rows, writes).core)
  {
    if rows < |DueOrder(db, now)| && writes <= 3 {
      ClockHeld(db, now);
      AdvanceCutRoutine(db, now, rows, writes);
      hide AdvanceCut, DueOrder, HeldOnce;
      NothingOpened(db.core, AdvanceCut(db, now, rows, writes).core);
      SameHeldOnce(db.core, AdvanceCut(db, now, rows, writes).core);
    }
  }

  lemma PreparationCore(db: Database, p: Principal, r: Request)
    requires r.Prepared?
    ensures Or(db, RecordPreparation(db, p, r.assignment, r.generation, r.epoch, r.record)).0.core == db.core
  {
  }

  // ---------------------------------------------------------------- whole runs

  /** The event commits a report that revives a row beside another held row of its task. */
  ghost predicate Collision(cfg: Config, db: Database, e: Event) {
    match e
    case Call(p, r, now, o) => var m := Merged(cfg, db, p, r, now); m.Some? && Collides(db, m.value)
    case Crash(p, r, now, cut) => CutCollides(cfg, db, p, r, now, cut)
    case _ => false
  }

  ghost predicate AllHeldOnce(w: World) {
    HeldOnce(w.db.core) && forall k :: 0 <= k < |w.saved| ==> HeldOnce(w.saved[k].core)
  }

  lemma SuspendedHeldOnce(c: Core, c': Core, forget: bool)
    requires c'.assignments == c.assignments && c'.reservations == Suspend(c.reservations, forget)
    ensures HeldOnce(c') <==> HeldOnce(c)
  {
    NothingOpened(c, c');
    SameHeldOnce(c, c');
  }

  lemma EventHeldOnce(cfg: Config, w: World, e: Event)
    requires Healthy(cfg, w) && FreshIds(w, e) && AllHeldOnce(w)
    ensures HeldOnce(Apply(cfg, w, e).0.db.core) <==> !Collision(cfg, w.db, e)
  {
    hide HeldOnce, Collides, Handle, HandleCut, Merged, CutCollides;
    match e {
      case Call(p, r, now, o) => CallHeldOnce(cfg, w.db, p, r, now, o);
      case Crash(p, r, now, cut) => CutHeldOnce(cfg, w.db, p, r, now, cut);
      case Reopen => SuspendedHeldOnce(w.db.core, Restart(w.db).core, false);
      case Backup =>
      case RestoreBackup(k) =>
        if k < |w.saved| {
          SuspendedHeldOnce(w.saved[k].core, Restore(w.saved[k]).core, true);
        }
    }
  }

  /** Snapshots are databases of earlier worlds. */
  lemma {:induction false} SavedHeldOnce(cfg: Config, h: Trace, i: nat)
    requires Run(cfg, h) && i < |h.worlds| && forall j :: 0 <= j <= i ==> HeldOnce(h.worlds[j].db.core)
    ensures AllHeldOnce(h.worlds[i])
  {
    hide HeldOnce, FreshIds, Handle, HandleCut;
    if i > 0 {
      SavedHeldOnce(cfg, h, i - 1);
      var w, e := h.worlds[i - 1], h.events[i - 1];
      assert Follows(cfg, w, e, h.worlds[i], h.replies[i - 1]);
    }
  }

  lemma {:induction false} NoCollisionHeldOnce(cfg: Config, h: Trace, i: nat)
    requires Run(cfg, h) && i < |h.worlds|
    requires forall j :: 0 <= j < i ==> !Collision(cfg, h.worlds[j].db, h.events[j])
    ensures forall j :: 0 <= j <= i ==> HeldOnce(h.worlds[j].db.core)
  {
    hide Collision, HeldOnce, Follows;
    if i == 0 {
      InitialHeldOnce();
    } else {
      NoCollisionHeldOnce(cfg, h, i - 1);
      NextHeldOnce(cfg, h, i - 1);
    }
  }

  lemma InitialHeldOnce()
    ensures HeldOnce(INITIAL.db.core)
  {
  }

  lemma NextHeldOnce(cfg: Config, h: Trace, i: nat)
    requires Run(cfg, h) && i < |h.events| && forall j :: 0 <= j <= i ==> HeldOnce(h.worlds[j].db.core)
    ensures HeldOnce(h.worlds[i + 1].db.core) <==> !Collision(cfg, h.worlds[i].db, h.events[i])
  {
    hide Collision, HeldOnce, Apply;
    RunHealthy(cfg, h, i);
    SavedHeldOnce(cfg, h, i);
    assert Follows(cfg, h.worlds[i], h.events[i], h.worlds[i + 1], h.replies[i]);
    EventHeldOnce(cfg, h.worlds[i], h.events[i]);
  }

  /**
   Over every history, restores included: each task has at most one unreleased reservation in every state if
   and only if no committed report revived a row beside another held row of its task.
   */
  lemma HeldOnceThroughout(cfg: Config, h: Trace)
    requires Run(cfg, h)
    ensures (forall i, t :: 0 <= i < |h.worlds| ==> |Held(h.worlds[i].db.core, t)| <= 1)
      <==> (forall i :: 0 <= i < |h.events| ==> !Collision(cfg, h.worlds[i].db, h.events[i]))
  {
    hide Collision, HeldOnce, Follows, Held;
    var n := |h.events|;
    forall i | 0 <= i <= n
      ensures HeldOnce(h.worlds[i].db.core) <==> forall t :: |Held(h.worlds[i].db.core, t)| <= 1
    {
      HeldOnceCounts(h.worlds[i].db.core);
    }
    if forall i :: 0 <= i < n ==> !Collision(cfg, h.worlds[i].db, h.events[i]) {
      NoCollisionHeldOnce(cfg, h, n);
    }
    if forall i, t :: 0 <= i < |h.worlds| ==> |Held(h.worlds[i].db.core, t)| <= 1 {
      forall i | 0 <= i < n ensures !Collision(cfg, h.worlds[i].db, h.events[i]) {
        NextHeldOnce(cfg, h, i);
      }
    }
  }
}
