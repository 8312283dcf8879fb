/**
 One attempt's lease conversation: the agent's prepare/renew loop (src/agent.rs) against the coordinator,
 over a network that loses, delays and repeats requests and loses replies.
 */
module LeaseChannel {
  import opened Options
  import opened ResourceVectors
  import opened CoordinatorCore
  import opened CoordinatorTables
  import opened CoordinatorRules
  import opened CoordinatorSchedule
  import opened CoordinatorSafety
  import opened CoordinatorRuns
  import opened CoordinatorHistory

  /** `Seek(None)` is a `Prepared` request, `Seek(Some(n))` a renewal that names the held sequence `n`. */
  datatype Message = Seek(previous: Option<nat>)

  /** The lease request for attempt `a` that `r` carries, inside or outside a session wrapper. */
  function LeaseRequest(r: Request, a: Id): Option<Message> {
    match r
    case NodeSession(_, inner) => if inner.NodeSession? then None else Carried(inner, a)
    case _ => Carried(r, a)
  }

  function Carried(r: Request, a: Id): Option<Message> {
    match r
    case Prepared(b, _, _, _) => if b == a then Some(Seek(None)) else None
    case Renew(b, _, _, previous) => if b == a then Some(Seek(Some(previous))) else None
    case _ => None
  }

  function Number(c: Core, a: Id): nat {
    if a in c.reservations then c.reservations[a].leaseSequence else 0
  }

  // ---------------------------------------------------------------- what moves a lease number

  /** A request advances the number exactly when it names the number the coordinator already holds. */
  predicate Advances(m: Message, number: nat) {
    if m.previous.None? then number == 0 else m.previous.value == number && number > 0
  }

  /**
   A replayed or delayed request changes nothing: neither the sequence nor the deadline. Only a request
   that names the current number, outside a drain, moves both, by one step.
   */
  lemma ReplayChangesNothing(db: Database, cfg: Config, a: Id, generation: nat, previous: Option<nat>, now: nat)
    requires Grant(db, cfg, a, generation, previous, now).Some?
    ensures var (db', lease) := Grant(db, cfg, a, generation, previous, now).value;
      && (db' == db <==> !Advances(Seek(previous), Number(db.core, a)) || ShouldDrain(db, a))
      && lease.sequence == Number(db'.core, a)
      && (db' != db ==>
            && Number(db'.core, a) == Number(db.core, a) + 1
            && db'.core.reservations[a].deadline == SatAdd(now, cfg.leaseMs))
  {
  }

  lemma GrantNumbers(db: Database, cfg: Config, a: Id, generation: nat, previous: Option<nat>, now: nat, b: Id)
    requires Grant(db, cfg, a, generation, previous, now).Some?
    ensures var (db', lease) := Grant(db, cfg, a, generation, previous, now).value;
      && (b != a ==> Number(db'.core, b) == Number(db.core, b))
      && (Number(db'.core, a) == Number(db.core, a)
          || (Advances(Seek(previous), Number(db.core, a)) && Number(db'.core, a) == Number(db.core, a) + 1))
      && lease.assignment == a && lease.sequence == Number(db'.core, a)
  {
    GrantShape(db, cfg, a, generation, previous, now);
    ReplayChangesNothing(db, cfg, a, generation, previous, now);
  }

  /** How one call may move the number of attempt `a`. */
  ghost predicate Moves(carried: Option<Message>, a: Id, before: Core, after: Core, reply: Reply) {
    match carried
    case None => Number(after, a) == Number(before, a)
    case Some(m) =>
      && (Number(after, a) == Number(before, a)
          || (Advances(m, Number(before, a)) && Number(after, a) == Number(before, a) + 1))
      && (reply.Leased? ==> reply.lease.assignment == a && reply.lease.sequence == Number(after, a))
  }

  lemma RoutineNumbers(c: Core, c': Core, a: Id)
    requires Routine(c, c')
    ensures Number(c', a) == Number(c, a)
  {
  }

  lemma OpeningNumbers(c: Core, c': Core, drawn: set<Id>, a: Id)
    requires Opening(c, c', drawn) && a in c.reservations
    ensures Number(c', a) == Number(c, a)
  {
    assert RowForward(c, c', a);
  }

  /** What a lease handler may do to the number of attempt `a`, when asked `m` for attempt `b`. */
  ghost predicate Shifts(m: Message, a: Id, b: Id, before: Core, result: (Database, Option<Lease>)) {
    var after := result.0.core;
    && (Number(after, a) == Number(before, a)
        || (a == b && Advances(m, Number(before, a)) && Number(after, a) == Number(before, a) + 1))
    && (result.1.Some? && a == b ==> result.1.value.assignment == a && result.1.value.sequence == Number(after, a))
  }

  lemma GrantShifts(db: Database, cfg: Config, b: Id, generation: nat, previous: Option<nat>, now: nat, a: Id)
    requires Grant(db, cfg, b, generation, previous, now).Some?
    ensures var g := Grant(db, cfg, b, generation, previous, now).value;
      Shifts(Seek(previous), a, b, db.core, (g.0, Some(g.1)))
  {
    GrantNumbers(db, cfg, b, generation, previous, now, a);
    hide Grant, Advances;
  }

  lemma PrepareShifts(db: Database, cfg: Config, p: Principal, b: Id, generation: nat, epoch: nat,
                      record: PreparedRecord, now: nat, a: Id)
    ensures Shifts(Seek(None), a, b, db.core, Prepare(db, cfg, p, b, generation, epoch, record, now))
  {
    hide Grant, Advances, MayAct, PreparedAcceptable, CurrentAttempt;
    var recorded := RecordPreparation(db, p, b, generation, epoch, record);
    if recorded.Some? {
      assert recorded.value.core == db.core;
      hide RecordPreparation;
      if Grant(recorded.value, cfg, b, generation, None, now).Some? {
        GrantShifts(recorded.value, cfg, b, generation, None, now, a);
      }
    }
  }

  lemma RenewShifts(db: Database, cfg: Config, p: Principal, b: Id, generation: nat, epoch: nat, previous: nat, now: nat,
                    a: Id)
    ensures Shifts(Seek(Some(previous)), a, b, db.core,
                   CoordinatorRules.Renew(db, cfg, p, b, generation, epoch, previous, now))
  {
    hide Grant, Advances, MayAct;
    if Grant(db, cfg, b, generation, Some(previous), now).Some? {
      GrantShifts(db, cfg, b, generation, Some(previous), now, a);
    }
  }

  lemma LentMoves(db: Database, cfg: Config, p: Principal, r: Request, now: nat, o: Oracle, a: Id)
    requires r.Prepared? || r.Renew?
    ensures Moves(Carried(r, a), a, db.core, Execute(db, cfg, p, r, now, o).0.core, Execute(db, cfg, p, r, now, o).1)
  {
    hide Prepare, CoordinatorRules.Renew, Advances, Number;
    if r.Prepared? {
      PrepareShifts(db, cfg, p, r.assignment, r.generation, r.epoch, r.record, now, a);
    } else {
      RenewShifts(db, cfg, p, r.assignment, r.generation, r.epoch, r.previous, now, a);
    }
  }

  lemma BeatMoves(db: Database, cfg: Config, report: NodeReport, now: nat, uuid: Id -> Id, a: Id)
    requires Authority(db.core) && a in db.core.reservations
    ensures Number(Beat(db, cfg, report, now, uuid).0.core, a) == Number(db.core, a)
  {
    var heard := MergeReport(db, cfg, report, now);
    if heard.Some? {
      var n := |report.allocations|;
      assert report.allocations[..n] == report.allocations;
      var released := LateReleases(heard.value.db, cfg, report.allocations, now).0;
      assert released == BeatCut(db, cfg, report, now, n);
      BeatCutRoutine(db, cfg, report, now, n);
      ReleasedMoves(db, released, cfg, report, now, uuid, a);
    }
  }

  lemma ReleasedMoves(db: Database, released: Database, cfg: Config, report: NodeReport, now: nat, uuid: Id -> Id, a: Id)
    requires Routine(db.core, released.core) && a in db.core.reservations
    ensures Number(released.core, a) == Number(db.core, a)
    ensures report.node in released.nodes && Schedule(released, cfg, report, now, uuid).Some? ==>
              Number(Schedule(released, cfg, report, now, uuid).value.core, a) == Number(db.core, a)
  {
    RoutineNumbers(db.core, released.core, a);
    if report.node in released.nodes && Schedule(released, cfg, report, now, uuid).Some? {
      ScheduleOpens(released, cfg, report, now, uuid);
      hide Schedule;
      OpeningNumbers(released.core, Schedule(released, cfg, report, now, uuid).value.core,
                     Drawn(Queue(released), uuid), a);
    }
  }

  lemma OrNumbers(db: Database, next: Option<Database>, a: Id)
    requires next.Some? ==> Routine(db.core, next.value.core)
    ensures Number(Or(db, next).0.core, a) == Number(db.core, a)
  {
    if next.Some? {
      RoutineNumbers(db.core, next.value.core, a);
    }
  }

  lemma SessionMoves(db: Database, node: Id, boot: Id, session: Id, a: Id)
    requires Authority(db.core)
    ensures Number(Or(db, OpenReplaySession(db, node, boot, session)).0.core, a) == Number(db.core, a)
  {
    if OpenReplaySession(db, node, boot, session).Some? {
      SessionRoutine(db, node, boot, session);
    }
    hide OpenReplaySession;
    OrNumbers(db, OpenReplaySession(db, node, boot, session), a);
  }

  lemma RetryMoves(db: Database, task: Id, confirmed: bool, a: Id)
    requires Authority(db.core)
    ensures Number(Or(db, RetryTask(db, task, confirmed)).0.core, a) == Number(db.core, a)
  {
    if RetryTask(db, task, confirmed).Some? {
      RetryTaskRoutine(db, task, confirmed);
    }
    hide RetryTask;
    OrNumbers(db, RetryTask(db, task, confirmed), a);
  }

  lemma FailMoves(db: Database, cfg: Config, b: Id, generation: nat, kind: FailureKind, now: nat, a: Id)
    requires Authority(db.core)
    ensures Number(Or(db, RecordFailure(db, cfg, b, generation, kind, now)).0.core, a) == Number(db.core, a)
  {
    if RecordFailure(db, cfg, b, generation, kind, now).Some? {
      RecordFailureRoutine(db, cfg, b, generation, kind, now);
    }
    hide RecordFailure;
    OrNumbers(db, RecordFailure(db, cfg, b, generation, kind, now), a);
  }

  lemma RoutineMoves(db: Database, cfg: Config, p: Principal, r: Request, now: nat, o: Oracle, a: Id)
    requires Authority(db.core) && a in db.core.reservations && (r.OpenSession? || r.Retry? || r.Fail?)
    ensures Number(Execute(db, cfg, p, r, now, o).0.core, a) == Number(db.core, a)
  {
    hide Or, OpenReplaySession, RetryTask, RecordFailure;
    if r.OpenSession? {
      SessionMoves(db, r.node, r.boot, r.session, a);
    } else if r.Retry? {
      RetryMoves(db, r.task, r.confirmed, a);
    } else {
      FailMoves(db, cfg, r.assignment, r.generation, r.kind, now, a);
    }
  }

  lemma AcceptMoves(db: Database, cfg: Config, p: Principal, s: Submission, intact: set<Artifact>, checkpoint: bool)
    ensures Credited(db, s.task, Accept(db, cfg, p, s, intact, checkpoint)).0.core.reservations == db.core.reservations
  {
    if Accept(db, cfg, p, s, intact, checkpoint).Some? {
      AcceptCases(db, cfg, p, s, intact, checkpoint);
      hide Accept;
    }
  }

  lemma UploadStill(db: Database, p: Principal, b: Id, generation: nat, artifact: Artifact)
    ensures Or(db, CoordinatorRules.CommitUpload(db, p, b, generation, artifact)).0.core == db.core
  {
    hide MayAct, CurrentAttempt;
  }

  lemma SubmitStill(db: Database, job: Id, spec: Job, sequences: map<Id, nat>)
    ensures Or(db, Submit(db, job, spec, sequences)).0.core.reservations == db.core.reservations
  {
    if Submit(db, job, spec, sequences).Some? && job !in db.jobs {
      assert Enroll(db, job, spec, sequences).core.reservations == db.core.reservations;
      hide Enroll;
    }
  }

  lemma PoolStill(db: Database, id: Id, pool: Pool)
    ensures Or(db, CoordinatorRules.PutPool(db, id, pool)).0.core == db.core
  {
  }

  lemma FlagStill(db: Database, job: Id, node: Id, drain: bool)
    ensures Or(db, CancelJob(db, job)).0.core == db.core && Or(db, SetDrain(db, node, drain)).0.core == db.core
  {
  }

  lemma StillMoves(db: Database, cfg: Config, p: Principal, r: Request, now: nat, o: Oracle)
    requires !r.OpenSession? && !r.Retry? && !r.Fail? && !r.Heartbeat? && !r.Prepared? && !r.Renew?
    ensures Execute(db, cfg, p, r, now, o).0.core.reservations == db.core.reservations
  {
    hide Accept, Credited, Or, Submit, CancelJob, SetDrain, CoordinatorRules.CommitUpload, CoordinatorRules.PutPool;
    if r.Complete? {
      AcceptMoves(db, cfg, p, r.submission, o.intact, false);
    } else if r.PublishCheckpoint? {
      AcceptMoves(db, cfg, p, r.submission, o.intact, true);
    } else if r.CommitUpload? {
      UploadStill(db, p, r.assignment, r.generation, r.artifact);
    } else if r.SubmitJob? {
      SubmitStill(db, r.job, r.jobSpec, o.sequences);
    } else if r.PutPool? {
      PoolStill(db, r.pool, r.poolSpec);
    } else if r.Cancel? {
      FlagStill(db, r.job, 0, false);
    } else if r.DrainNode? {
      FlagStill(db, 0, r.node, r.drain);
    }
  }

  lemma ExecuteMoves(db: Database, cfg: Config, p: Principal, r: Request, now: nat, o: Oracle, a: Id)
    requires Authority(db.core) && a in db.core.reservations
    ensures Moves(Carried(r, a), a, db.core, Execute(db, cfg, p, r, now, o).0.core, Execute(db, cfg, p, r, now, o).1)
  {
    if r.Prepared? || r.Renew? {
      hide Execute;
      LentMoves(db, cfg, p, r, now, o, a);
    } else if r.Heartbeat? {
      hide Beat;
      BeatMoves(db, cfg, r.report, now, o.uuid, a);
    } else if r.OpenSession? || r.Retry? || r.Fail? {
      hide Execute;
      RoutineMoves(db, cfg, p, r, now, o, a);
    } else {
      hide Execute;
      StillMoves(db, cfg, p, r, now, o);
    }
  }

  lemma ExecuteMovesSound(db: Database, cfg: Config, p: Principal, r: Request, now: nat, o: Oracle, a: Id)
    ensures var (db', reply) := Execute(db, cfg, p, r, now, o);
      Authority(db.core) && a in db.core.reservations ==> Moves(Carried(r, a), a, db.core, db'.core, reply)
  {
    hide Execute;
    if Authority(db.core) && a in db.core.reservations {
      ExecuteMoves(db, cfg, p, r, now, o, a);
    }
  }

  lemma HandleMoves(db: Database, cfg: Config, p: Principal, r: Request, now: nat, o: Oracle, a: Id)
    requires Authority(db.core) && a in db.core.reservations
    ensures Moves(LeaseRequest(r, a), a, db.core, Handle(db, cfg, p, r, now, o).0.core, Handle(db, cfg, p, r, now, o).1)
  {
    var inner := ValidateSession(db, p, r);
    hide Execute, AdvanceClock;
    if inner.Some? && now >= db.clock {
      assert Carried(inner.value, a) == LeaseRequest(r, a);
      ReadyMoves(db, cfg, p, inner.value, now, o, a);
    }
  }

  lemma ReadyMoves(db: Database, cfg: Config, p: Principal, r: Request, now: nat, o: Oracle, a: Id)
    requires Authority(db.core) && a in db.core.reservations
    ensures var (db', reply) := Execute(AdvanceClock(db, now), cfg, p, r, now, o);
      Moves(Carried(r, a), a, db.core, db'.core, reply)
  {
    hide Execute, AdvanceClock;
    var ready := AdvanceClock(db, now);
    ClockMoves(db, now, a);
    hide Authority, Number;
    ExecuteMovesSound(ready, cfg, p, r, now, o, a);
  }

  lemma ClockMoves(db: Database, now: nat, a: Id)
    requires Authority(db.core)
    ensures Number(AdvanceClock(db, now).core, a) == Number(db.core, a)
    ensures Authority(AdvanceClock(db, now).core)
    ensures a in db.core.reservations ==> a in AdvanceClock(db, now).core.reservations
  {
    AdvanceRoutine(db, now);
    RoutineNumbers(db.core, AdvanceClock(db, now).core, a);
  }

  lemma BeatCutMoves(db: Database, cfg: Config, report: NodeReport, now: nat, releases: nat, a: Id)
    requires Authority(db.core) && releases <= |report.allocations|
    ensures Number(BeatCut(AdvanceClock(db, now), cfg, report, now, releases).core, a) == Number(db.core, a)
  {
    var ready := AdvanceClock(db, now);
    AdvanceRoutine(db, now);
    hide AdvanceClock;
    RoutineNumbers(db.core, ready.core, a);
    BeatCutRoutine(ready, cfg, report, now, releases);
    hide BeatCut;
    RoutineNumbers(ready.core, BeatCut(ready, cfg, report, now, releases).core, a);
  }

  lemma ExpiryCutMoves(db: Database, now: nat, rows: nat, writes: nat, a: Id)
    requires Authority(db.core) && rows < |DueOrder(db, now)| && writes <= 3
    ensures Number(AdvanceCut(db, now, rows, writes).core, a) == Number(db.core, a)
  {
    AdvanceCutRoutine(db, now, rows, writes);
    hide AdvanceCut;
    RoutineNumbers(db.core, AdvanceCut(db, now, rows, writes).core, a);
  }

  lemma PreparationCutMoves(ready: Database, p: Principal, b: Id, generation: nat, epoch: nat, record: PreparedRecord)
    ensures Or(ready, RecordPreparation(ready, p, b, generation, epoch, record)).0.core == ready.core
  {
  }

  /** A call that dies half way moves no lease number: the grant itself is a single commit. */
  lemma CutKeepsNumber(cfg: Config, db: Database, p: Principal, r: Request, now: nat, cut: Cut, a: Id)
    requires Authority(db.core)
    ensures Number(HandleCut(db, cfg, p, r, now, cut).core, a) == Number(db.core, a)
  {
    var inner := ValidateSession(db, p, r);
    hide ValidateSession, AdvanceClock, AdvanceCut, BeatCut, DueOrder, RecordPreparation, Or, Number;
    if inner.None? || now < db.clock {
    } else if cut.InExpiry? {
      if cut.rows < |DueOrder(db, now)| && cut.writes <= 3 {
        ExpiryCutMoves(db, now, cut.rows, cut.writes, a);
      }
    } else {
      hide HandleCut;
      LateCutKeepsNumber(cfg, db, p, r, now, cut, a);
    }
  }

  /** After expiry a cut call has either committed some of a heartbeat, or nothing that holds a lease number. */
  lemma LateCutShape(cfg: Config, db: Database, p: Principal, r: Request, now: nat, cut: Cut)
    requires ValidateSession(db, p, r).Some? && now >= db.clock && !cut.InExpiry?
    ensures var q := ValidateSession(db, p, r).value;
      if cut.InBeat? && q.Heartbeat? && p == Node(q.report.node) && cut.releases <= |q.report.allocations|
      then HandleCut(db, cfg, p, r, now, cut) == BeatCut(AdvanceClock(db, now), cfg, q.report, now, cut.releases)
      else HandleCut(db, cfg, p, r, now, cut).core == AdvanceClock(db, now).core
  {
    var q := ValidateSession(db, p, r).value;
    hide ValidateSession, AdvanceClock, BeatCut, RecordPreparation, Or;
    if cut.AfterPreparation? && q.Prepared? {
      PreparationCutMoves(AdvanceClock(db, now), p, q.assignment, q.generation, q.epoch, q.record);
    }
  }

  lemma LateCutKeepsNumber(cfg: Config, db: Database, p: Principal, r: Request, now: nat, cut: Cut, a: Id)
    requires Authority(db.core) && ValidateSession(db, p, r).Some? && now >= db.clock && !cut.InExpiry?
    ensures Number(HandleCut(db, cfg, p, r, now, cut).core, a) == Number(db.core, a)
  {
    hide HandleCut, ValidateSession, AdvanceClock, BeatCut, Number;
    LateCutShape(cfg, db, p, r, now, cut);
    var q := ValidateSession(db, p, r).value;
    if cut.InBeat? && q.Heartbeat? && p == Node(q.report.node) && cut.releases <= |q.report.allocations| {
      BeatCutMoves(db, cfg, q.report, now, cut.releases, a);
    } else {
      ClockMoves(db, now, a);
    }
  }

  // ---------------------------------------------------------------- the conversation

  /**
   The agent's side: `held` is its slot sequence, `waiting` its one outstanding request, `sent` every request
   it ever sent (any of which may still arrive, any number of times), and `replies` the answers on their
   way back to the outstanding request.
   */
  datatype Slot = Slot(held: nat, waiting: Option<Message>, sent: set<Message>, replies: set<nat>)

  datatype Channel = Channel(world: World, slot: Slot)

  datatype Move =
    | Send                        // the agent asks: prepare while it holds nothing, renew afterwards
    | Deliver(arrival: Event)     // the coordinator handles one copy of a sent request
    | Receive(sequence: nat)      // a reply reaches the agent while it still waits
    | GiveUp                      // timeout, error, or a lease that arrived already spent
    | Elsewhere(other: Event)     // anything else the coordinator does, short of a restore

  ghost predicate Allowed(ch: Channel, a: Id, m: Move) {
    match m
    case Send => ch.slot.waiting.None?
    case Deliver(e) => e.Call? && FreshIds(ch.world, e) && LeaseRequest(e.request, a).Some?
                       && LeaseRequest(e.request, a).value in ch.slot.sent
    case Receive(s) => ch.slot.waiting.Some? && s in ch.slot.replies
    case GiveUp => true
    case Elsewhere(e) => !e.RestoreBackup? && FreshIds(ch.world, e) && (e.Call? ==> LeaseRequest(e.request, a).None?)
  }

  /** What the agent asks next. */
  function Question(held: nat): Message {
    Seek(if held == 0 then None else Some(held))
  }

  function Answered(slot: Slot, asked: Option<Message>, reply: Reply): Slot {
    if reply.Leased? && asked == slot.waiting then slot.(replies := slot.replies + {reply.lease.sequence}) else slot
  }

  function AgentMove(slot: Slot, m: Move): Slot {
    match m
    case Send => slot.(waiting := Some(Question(slot.held)), sent := slot.sent + {Question(slot.held)}, replies := {})
    case Receive(s) => slot.(held := s, waiting := None, replies := {})
    case GiveUp => slot.(waiting := None, replies := {})
    case _ => slot
  }

  function Next(cfg: Config, ch: Channel, a: Id, m: Move): Channel {
    match m
    case Deliver(e) =>
      var (world, reply) := Apply(cfg, ch.world, e);
      Channel(world, if e.Call? then Answered(ch.slot, LeaseRequest(e.request, a), reply) else ch.slot)
    case Elsewhere(e) => Channel(Apply(cfg, ch.world, e).0, ch.slot)
    case _ => Channel(ch.world, AgentMove(ch.slot, m))
  }

  /** The coordinator's number is the agent's or exactly one more, and nothing in flight can change that. */
  ghost predicate InStep(slot: Slot, number: nat) {
    && slot.held <= number <= slot.held + 1
    && (forall m :: m in slot.sent && m.previous.Some? ==> 0 < m.previous.value <= slot.held)
    && (slot.waiting.Some? ==> slot.waiting.value == Question(slot.held))
    && (forall s :: s in slot.replies ==> slot.held <= s <= number)
  }

  ghost predicate Consistent(cfg: Config, ch: Channel, a: Id) {
    && Healthy(cfg, ch.world) && a in ch.world.db.core.reservations
    && InStep(ch.slot, Number(ch.world.db.core, a))
  }

  lemma AgentInStep(slot: Slot, number: nat, m: Move)
    requires InStep(slot, number) && (m.Send? || m.GiveUp? || (m.Receive? && m.sequence in slot.replies))
    ensures InStep(AgentMove(slot, m), number)
  {
  }

  lemma DeliveryInStep(slot: Slot, a: Id, m: Message, before: Core, after: Core, reply: Reply)
    requires InStep(slot, Number(before, a)) && m in slot.sent
    requires Moves(Some(m), a, before, after, reply)
    ensures InStep(Answered(slot, Some(m), reply), Number(after, a))
  {
  }

  lemma RowStays(cfg: Config, w: World, e: Event, a: Id)
    requires Healthy(cfg, w) && FreshIds(w, e) && !e.RestoreBackup? && a in w.db.core.reservations
    ensures Healthy(cfg, Apply(cfg, w, e).0) && a in Apply(cfg, w, e).0.db.core.reservations
  {
    EventHealthy(cfg, w, e);
    EventProgress(cfg, w, e);
    hide Apply;
    assert RowForward(w.db.core, Apply(cfg, w, e).0.db.core, a);
  }

  lemma CallMoves(cfg: Config, w: World, e: Event, a: Id)
    requires Healthy(cfg, w) && e.Call? && a in w.db.core.reservations
    ensures Moves(LeaseRequest(e.request, a), a, w.db.core, Apply(cfg, w, e).0.db.core, Apply(cfg, w, e).1)
  {
    hide Handle;
    HandleMoves(w.db, cfg, e.principal, e.request, e.now, e.oracle, a);
  }

  lemma OtherKeepsNumber(cfg: Config, w: World, e: Event, a: Id)
    requires Healthy(cfg, w) && !e.RestoreBackup? && (e.Call? ==> LeaseRequest(e.request, a).None?)
    requires a in w.db.core.reservations
    ensures Number(Apply(cfg, w, e).0.db.core, a) == Number(w.db.core, a)
  {
    hide Handle, HandleCut;
    match e {
      case Call(_, _, _, _) => CallMoves(cfg, w, e, a);
      case Crash(p, r, now, cut) => CutKeepsNumber(cfg, w.db, p, r, now, cut, a);
      case Reopen =>
        RestartRoutine(w.db.core);
        RoutineNumbers(w.db.core, Restart(w.db).core, a);
      case Backup =>
    }
  }

  lemma WorldKeeps(cfg: Config, ch: Channel, a: Id, m: Move)
    requires Consistent(cfg, ch, a) && Allowed(ch, a, m)
    ensures Healthy(cfg, Next(cfg, ch, a, m).world) && a in Next(cfg, ch, a, m).world.db.core.reservations
  {
    hide Apply;
    if m.Deliver? {
      RowStays(cfg, ch.world, m.arrival, a);
    } else if m.Elsewhere? {
      RowStays(cfg, ch.world, m.other, a);
    }
  }

  lemma SlotKeeps(cfg: Config, ch: Channel, a: Id, m: Move)
    requires Consistent(cfg, ch, a) && Allowed(ch, a, m)
    ensures InStep(Next(cfg, ch, a, m).slot, Number(Next(cfg, ch, a, m).world.db.core, a))
  {
    hide Apply, InStep;
    if m.Deliver? {
      var e := m.arrival;
      CallMoves(cfg, ch.world, e, a);
      DeliveryInStep(ch.slot, a, LeaseRequest(e.request, a).value, ch.world.db.core,
                     Apply(cfg, ch.world, e).0.db.core, Apply(cfg, ch.world, e).1);
    } else if m.Elsewhere? {
      OtherKeepsNumber(cfg, ch.world, m.other, a);
    } else {
      AgentInStep(ch.slot, Number(ch.world.db.core, a), m);
    }
  }

  lemma MoveKeeps(cfg: Config, ch: Channel, a: Id, m: Move)
    requires Consistent(cfg, ch, a) && Allowed(ch, a, m)
    ensures Consistent(cfg, Next(cfg, ch, a, m), a)
  {
    WorldKeeps(cfg, ch, a, m);
    SlotKeeps(cfg, ch, a, m);
    hide Healthy, InStep, Next;
  }

  ghost predicate Conversation(cfg: Config, a: Id, chs: seq<Channel>, ms: seq<Move>) {
    && |chs| == |ms| + 1
    && Healthy(cfg, chs[0].world) && a in chs[0].world.db.core.reservations
    && Number(chs[0].world.db.core, a) == 0 && chs[0].slot == Slot(0, None, {}, {})
    && (forall i {:trigger ms[i]} :: 0 <= i < |ms| ==> Leads(cfg, a, chs[i], ms[i], chs[i + 1]))
  }

  ghost predicate Leads(cfg: Config, a: Id, ch: Channel, m: Move, ch': Channel) {
    Allowed(ch, a, m) && ch' == Next(cfg, ch, a, m)
  }

  /** From a fresh offer on, the coordinator's lease number is always the agent's or exactly one more. */
  lemma {:induction false} LeaseNumbersInStep(cfg: Config, a: Id, chs: seq<Channel>, ms: seq<Move>, i: nat)
    requires Conversation(cfg, a, chs, ms) && i < |chs|
    ensures Consistent(cfg, chs[i], a)
  {
    hide Leads, Healthy, InStep;
    if i == 0 {
      StartsInStep(cfg, a, chs, ms);
    } else {
      LeaseNumbersInStep(cfg, a, chs, ms, i - 1);
      ConversationStep(cfg, a, chs, ms, i - 1);
    }
  }

  lemma ConversationStep(cfg: Config, a: Id, chs: seq<Channel>, ms: seq<Move>, i: nat)
    requires Conversation(cfg, a, chs, ms) && i < |ms|
    ensures Consistent(cfg, chs[i], a) ==> Consistent(cfg, chs[i + 1], a)
  {
    if Consistent(cfg, chs[i], a) {
      LeadsInStep(cfg, a, chs[i], ms[i], chs[i + 1]);
    }
  }

  lemma StartsInStep(cfg: Config, a: Id, chs: seq<Channel>, ms: seq<Move>)
    requires Conversation(cfg, a, chs, ms)
    ensures Consistent(cfg, chs[0], a)
  {
    hide Leads;
  }

  lemma LeadsInStep(cfg: Config, a: Id, ch: Channel, m: Move, ch': Channel)
    requires Leads(cfg, a, ch, m, ch') && Consistent(cfg, ch, a)
    ensures Consistent(cfg, ch', a)
  {
    MoveKeeps(cfg, ch, a, m);
    hide Next, Consistent;
  }

  /** When a lost reply left the coordinator one ahead, the next answered retry closes the gap. */
  lemma RetryCatchesUp(slot: Slot, a: Id, before: Core, after: Core, reply: Reply)
    requires InStep(slot, Number(before, a)) && slot.waiting.Some? && Number(before, a) == slot.held + 1
    requires Moves(slot.waiting, a, before, after, reply) && reply.Leased?
    ensures Number(after, a) == Number(before, a)
    ensures AgentMove(Answered(slot, slot.waiting, reply), Receive(reply.lease.sequence)).held == Number(after, a)
  {
  }
}
