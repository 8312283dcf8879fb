/** Safety of the coordinator over whole histories, restores included. */
module CoordinatorHistory {
  import opened Options
  import opened ResourceVectors
  import opened CoordinatorCore
  import opened CoordinatorTables
  import opened CoordinatorRules
  import opened CoordinatorSafety
  import opened CoordinatorRuns

  /** The live database, every backup taken so far, and every attempt identifier ever drawn. */
  datatype World = World(db: Database, saved: seq<Database>, issued: map<Id, Attempt>)

  const INITIAL := World(EMPTY, [], map[])

  datatype Event =
    | Call(principal: Principal, request: Request, now: nat, oracle: Oracle)
    | Crash(principal: Principal, request: Request, now: nat, cut: Cut)
    | Reopen
    | Backup
    | RestoreBackup(backup: nat)

  function Remember(w: World, db: Database): World {
    World(db, w.saved, w.issued + db.core.assignments)
  }

  function Apply(cfg: Config, w: World, e: Event): (World, Reply) {
    match e
    case Call(p, r, now, o) =>
      var (db, reply) := Handle(w.db, cfg, p, r, now, o);
      (Remember(w, db), reply)
    case Crash(p, r, now, cut) => (Remember(w, HandleCut(w.db, cfg, p, r, now, cut)), Refused)
    case Reopen => (Remember(w, Restart(w.db)), Done)
    case Backup => (w.(saved := w.saved + [w.db]), Done)
    case RestoreBackup(k) => if k < |w.saved| then (Remember(w, Restore(w.saved[k])), Done) else (w, Refused)
  }

  /** A drawn UUID has never been used before, not even by a future that a restore discarded. */
  ghost predicate FreshIds(w: World, e: Event) {
    e.Call? ==> DrawnBy(w.db, e.oracle) !! w.issued.Keys
  }

  ghost predicate Recorded(c: Core, issued: map<Id, Attempt>) {
    forall a :: a in c.assignments ==> a in issued && issued[a] == c.assignments[a]
  }

  ghost predicate Healthy(cfg: Config, w: World) {
    && Sound(cfg, w.db.core, w.db.work) && Recorded(w.db.core, w.issued)
    && (forall i :: 0 <= i < |w.saved| ==>
          Sound(cfg, w.saved[i].core, w.saved[i].work) && Recorded(w.saved[i].core, w.issued))
  }

  /** An attempt that was issued and can no longer be authorized. */
  ghost predicate Gone(w: World, a: Id) {
    a in w.issued && !Live(w.db.core, a)
  }

  /** The task an attempt was opened for, whatever the live database remembers of it. */
  function IssuedTask(w: World, a: Id): Option<Id> {
    if a in w.issued then Some(w.issued[a].task) else None
  }

  ghost predicate Extends(issued: map<Id, Attempt>, issued': map<Id, Attempt>) {
    forall a :: a in issued ==> a in issued' && issued'[a] == issued[a]
  }

  // ---------------------------------------------------------------- one event

  lemma InitialHealthy(cfg: Config)
    ensures Healthy(cfg, INITIAL)
  {
  }

  /** Attempts are never renamed: what was issued keeps its task and generation. */
  lemma AdvancedRecords(cfg: Config, w: World, db: Database, drawn: set<Id>)
    requires Healthy(cfg, w) && Advanced(cfg, w.db, db, drawn) && drawn !! w.issued.Keys
    ensures Recorded(db.core, Remember(w, db).issued) && Extends(w.issued, Remember(w, db).issued)
  {
    forall a | a in w.issued ensures Remember(w, db).issued[a] == w.issued[a] {
      if a in db.core.assignments {
        assert a in db.core.reservations;
        assert RowForward(w.db.core, db.core, a);
      }
    }
  }

  lemma AdvancedGone(cfg: Config, w: World, db: Database, drawn: set<Id>, a: Id)
    requires Healthy(cfg, w) && Advanced(cfg, w.db, db, drawn) && drawn !! w.issued.Keys && Gone(w, a)
    ensures Gone(Remember(w, db), a)
  {
    if a in w.db.core.reservations {
      assert RowForward(w.db.core, db.core, a);
    }
  }

  lemma RestoredSound(cfg: Config, saved: Database)
    requires Sound(cfg, saved.core, saved.work)
    ensures Sound(cfg, Restore(saved).core, saved.work) && forall a: Id :: !Live(Restore(saved).core, a)
  {
    RestoreRoutine(saved.core);
    RoutineProgress(cfg, saved, Restore(saved));
  }

  lemma ReopenAdvances(cfg: Config, db: Database)
    requires Sound(cfg, db.core, db.work)
    ensures Advanced(cfg, db, Restart(db), {})
  {
    RestartRoutine(db.core);
    RoutineAdvances(cfg, db, Restart(db), {});
  }

  /** Every event but a restore or a backup is an advance of the live database. */
  lemma EventAdvances(cfg: Config, w: World, e: Event) returns (drawn: set<Id>)
    requires Healthy(cfg, w) && FreshIds(w, e) && (e.Call? || e.Crash? || e.Reopen?)
    ensures Apply(cfg, w, e).0 == Remember(w, Apply(cfg, w, e).0.db)
    ensures drawn !! w.issued.Keys && Advanced(cfg, w.db, Apply(cfg, w, e).0.db, drawn)
  {
    hide Handle, HandleCut, Restart, Advanced;
    match e {
      case Call(p, r, now, o) =>
        drawn := DrawnBy(w.db, o);
        HandleAdvances(cfg, w.db, p, r, now, o);
      case Crash(p, r, now, cut) =>
        drawn := {};
        CutAdvances(cfg, w.db, p, r, now, cut);
      case Reopen =>
        drawn := {};
        ReopenAdvances(cfg, w.db);
    }
  }

  lemma RememberHealthy(cfg: Config, w: World, db: Database)
    requires Healthy(cfg, w) && Sound(cfg, db.core, db.work) && Extends(w.issued, Remember(w, db).issued)
    ensures Healthy(cfg, Remember(w, db))
  {
    hide Sound;
  }

  lemma RestoreHealthy(cfg: Config, w: World, k: nat)
    requires Healthy(cfg, w) && k < |w.saved|
    ensures var w' := Remember(w, Restore(w.saved[k]));
      Healthy(cfg, w') && Extends(w.issued, w'.issued) && forall a :: a in w.issued ==> Gone(w', a)
  {
    RestoredSound(cfg, w.saved[k]);
    assert Extends(w.issued, Remember(w, Restore(w.saved[k])).issued);
    RememberHealthy(cfg, w, Restore(w.saved[k]));
  }

  lemma BackupHealthy(cfg: Config, w: World)
    requires Healthy(cfg, w)
    ensures Healthy(cfg, w.(saved := w.saved + [w.db]))
  {
    hide Sound, Recorded;
  }

  lemma AdvanceHealthy(cfg: Config, w: World, db: Database, drawn: set<Id>)
    requires Healthy(cfg, w) && Advanced(cfg, w.db, db, drawn) && drawn !! w.issued.Keys
    ensures Healthy(cfg, Remember(w, db)) && Extends(w.issued, Remember(w, db).issued)
  {
    AdvancedRecords(cfg, w, db, drawn);
    RememberHealthy(cfg, w, db);
  }

  /** Every event, restores included, keeps the invariant and forgets no attempt. */
  lemma EventHealthy(cfg: Config, w: World, e: Event)
    requires Healthy(cfg, w) && FreshIds(w, e)
    ensures Healthy(cfg, Apply(cfg, w, e).0) && Extends(w.issued, Apply(cfg, w, e).0.issued)
  {
    hide Restart, Restore, Handle, HandleCut;
    match e {
      case Backup => BackupHealthy(cfg, w);
      case RestoreBackup(k) =>
        if k < |w.saved| {
          RestoreHealthy(cfg, w, k);
        }
      case _ =>
        var drawn := EventAdvances(cfg, w, e);
        AdvanceHealthy(cfg, w, Apply(cfg, w, e).0.db, drawn);
    }
  }

  /** Nothing, not even a restore, brings back an attempt that can no longer be authorized. */
  lemma EventGone(cfg: Config, w: World, e: Event, a: Id)
    requires Healthy(cfg, w) && FreshIds(w, e) && Gone(w, a)
    ensures Gone(Apply(cfg, w, e).0, a)
  {
    hide Restart, Restore, Handle, HandleCut;
    match e {
      case Backup =>
      case RestoreBackup(k) =>
        if k < |w.saved| {
          RestoreHealthy(cfg, w, k);
        }
      case _ =>
        var drawn := EventAdvances(cfg, w, e);
        AdvancedGone(cfg, w, Apply(cfg, w, e).0.db, drawn, a);
    }
  }

  // ---------------------------------------------------------------- whole histories

  /** A history: the events, the reply to each, and the worlds around them. */
  datatype Trace = Trace(worlds: seq<World>, events: seq<Event>, replies: seq<Reply>)

  ghost predicate Run(cfg: Config, h: Trace) {
    && |h.worlds| == |h.events| + 1 && |h.replies| == |h.events| && h.worlds[0] == INITIAL
    && (forall i {:trigger h.events[i]} :: 0 <= i < |h.events| ==>
          Follows(cfg, h.worlds[i], h.events[i], h.worlds[i + 1], h.replies[i]))
  }

  ghost predicate Follows(cfg: Config, w: World, e: Event, w': World, reply: Reply) {
    FreshIds(w, e) && Apply(cfg, w, e) == (w', reply)
  }

  /** The reply to event `i` is a lease for attempt `a`. */
  ghost predicate LeaseAt(h: Trace, i: nat, a: Id) {
    i < |h.replies| && h.replies[i].Leased? && h.replies[i].lease.assignment == a
  }

  /** In every reachable state: at most one live reservation per task, its current attempt; accepted work sound. */
  lemma {:induction false} RunHealthy(cfg: Config, h: Trace, i: nat)
    requires Run(cfg, h) && i < |h.worlds|
    ensures Healthy(cfg, h.worlds[i])
  {
    if i == 0 {
      InitialHealthy(cfg);
    } else {
      RunHealthy(cfg, h, i - 1);
      EventHealthy(cfg, h.worlds[i - 1], h.events[i - 1]);
    }
  }

  lemma OneLiveReservation(cfg: Config, h: Trace, i: nat, a: Id, b: Id)
    requires Run(cfg, h) && i < |h.worlds|
    requires Live(h.worlds[i].db.core, a) && Live(h.worlds[i].db.core, b)
    requires TaskOf(h.worlds[i].db.core, a) == TaskOf(h.worlds[i].db.core, b)
    ensures a == b && IsCurrent(h.worlds[i].db.core, a)
  {
    RunHealthy(cfg, h, i);
    OneLivePerTask(h.worlds[i].db.core, a, b);
  }

  /** Every lease ever granted went to a live reservation: unreleased, unfenced, its task's current attempt. */
  lemma LeaseToLive(cfg: Config, h: Trace, i: nat, a: Id)
    requires Run(cfg, h) && LeaseAt(h, i, a)
    ensures LeaseFollows(h.worlds[i + 1].db, h.replies[i].lease) && Live(h.worlds[i + 1].db.core, a)
    ensures h.events[i].Call? && GoodFor(cfg, h.worlds[i + 1].db, h.replies[i].lease, h.events[i].now)
    ensures a in h.worlds[i + 1].issued
  {
    RunHealthy(cfg, h, i);
    RunHealthy(cfg, h, i + 1);
    var e := h.events[i];
    if e.Call? {
      HandleAdvances(cfg, h.worlds[i].db, e.principal, e.request, e.now, e.oracle);
    }
  }

  lemma {:induction false} IssuedForever(cfg: Config, h: Trace, i: nat, j: nat)
    requires Run(cfg, h) && i <= j < |h.worlds|
    ensures Extends(h.worlds[i].issued, h.worlds[j].issued)
    decreases j - i
  {
    if i < j {
      IssuedForever(cfg, h, i, j - 1);
      RunHealthy(cfg, h, j - 1);
      EventHealthy(cfg, h.worlds[j - 1], h.events[j - 1]);
    }
  }

  lemma {:induction false} GoneForever(cfg: Config, h: Trace, i: nat, j: nat, a: Id)
    requires Run(cfg, h) && i <= j < |h.worlds| && Gone(h.worlds[i], a)
    ensures Gone(h.worlds[j], a)
    decreases j - i
  {
    hide Follows, Live;
    if i < j {
      GoneForever(cfg, h, i, j - 1, a);
      GoneNext(cfg, h, j - 1, a);
    }
  }

  lemma GoneNext(cfg: Config, h: Trace, i: nat, a: Id)
    requires Run(cfg, h) && i < |h.events| && Gone(h.worlds[i], a)
    ensures Gone(h.worlds[i + 1], a)
  {
    RunHealthy(cfg, h, i);
    hide Apply;
    EventGone(cfg, h.worlds[i], h.events[i], a);
  }

  /** A released-and-forgotten, fenced or restored-away attempt never gets another lease. */
  lemma NoLeaseAfterGone(cfg: Config, h: Trace, i: nat, j: nat, a: Id)
    requires Run(cfg, h) && i <= j < |h.events| && Gone(h.worlds[i], a)
    ensures !LeaseAt(h, j, a)
  {
    hide Apply, Follows, LeaseFollows, Live;
    if LeaseAt(h, j, a) {
      LeaseToLive(cfg, h, j, a);
      GoneForever(cfg, h, i, j + 1, a);
    }
  }

  /** Once a lease went to attempt `b`, every other attempt of that task is gone. */
  lemma LeaseExcludesOthers(cfg: Config, h: Trace, j: nat, a: Id, b: Id)
    requires Run(cfg, h) && LeaseAt(h, j, b) && a != b
    requires a in h.worlds[j + 1].issued && IssuedTask(h.worlds[j + 1], a) == IssuedTask(h.worlds[j + 1], b)
    ensures Gone(h.worlds[j + 1], a)
  {
    LeaseToLive(cfg, h, j, b);
    RunHealthy(cfg, h, j + 1);
    var c := h.worlds[j + 1].db.core;
    if Live(c, a) {
      OneLivePerTask(c, a, b);
    }
  }

  /**
   Leases of one task never interleave. If attempt `a` is leased, later another attempt `b` of the same
   task is leased, then `a` is never leased again: across crashes, restarts, session replacement,
   arbitrary heartbeats and restores of any backup.
   */
  lemma LeasesNeverInterleave(cfg: Config, h: Trace, i: nat, j: nat, k: nat, a: Id, b: Id)
    requires Run(cfg, h) && i < j < k < |h.events| && a != b
    requires LeaseAt(h, i, a) && LeaseAt(h, j, b)
    requires IssuedTask(h.worlds[j + 1], a) == IssuedTask(h.worlds[j + 1], b)
    ensures !LeaseAt(h, k, a)
  {
    hide Apply, LeaseFollows, Live;
    LeaseToLive(cfg, h, i, a);
    LeaseToLive(cfg, h, j, b);
    IssuedForever(cfg, h, i + 1, j + 1);
    LeaseExcludesOthers(cfg, h, j, a, b);
    NoLeaseAfterGone(cfg, h, j + 1, k, a);
  }

  // ---------------------------------------------------------------- what restores cost

  ghost predicate NoRestore(events: seq<Event>, i: nat, j: nat) {
    forall k :: i <= k < j && k < |events| ==> !events[k].RestoreBackup?
  }

  lemma EventProgress(cfg: Config, w: World, e: Event)
    requires Healthy(cfg, w) && FreshIds(w, e) && !e.RestoreBackup?
    ensures Progress(cfg, w.db, Apply(cfg, w, e).0.db)
  {
    if e.Backup? {
      SameProgress(cfg, w.db);
    } else {
      var drawn := EventAdvances(cfg, w, e);
      hide Apply;
    }
  }

  /**
   Between restores nothing durable goes back: fences stay, generations and lease numbers only grow,
   completed tasks keep status, payload and receipt, and checkpoints never move to an earlier
   (generation, sequence).
   */
  lemma {:induction false} ForwardBetweenRestores(cfg: Config, h: Trace, i: nat, j: nat)
    requires Run(cfg, h) && i <= j < |h.worlds| && NoRestore(h.events, i, j)
    ensures Progress(cfg, h.worlds[i].db, h.worlds[j].db)
    decreases j - i
  {
    RunHealthy(cfg, h, i);
    if i == j {
      SameProgress(cfg, h.worlds[i].db);
    } else {
      ForwardBetweenRestores(cfg, h, i, j - 1);
      RunHealthy(cfg, h, j - 1);
      EventProgress(cfg, h.worlds[j - 1], h.events[j - 1]);
      ProgressTransitive(cfg, h.worlds[i].db, h.worlds[j - 1].db, h.worlds[j].db);
    }
  }

  /** Every event but a restore opens attempts only for tasks whose other attempts are all released. */
  lemma EventAlone(cfg: Config, w: World, e: Event)
    requires Healthy(cfg, w) && FreshIds(w, e) && !e.RestoreBackup?
    ensures NewAlone(w.db.core, Apply(cfg, w, e).0.db.core)
  {
    hide Handle, HandleCut, NewAlone;
    match e {
      case Call(p, r, now, o) => HandleAdvances(cfg, w.db, p, r, now, o);
      case Crash(p, r, now, cut) =>
        CutAdvances(cfg, w.db, p, r, now, cut);
        NothingOpened(w.db.core, HandleCut(w.db, cfg, p, r, now, cut).core);
      case Reopen => NothingOpened(w.db.core, Restart(w.db).core);
      case Backup => NothingOpened(w.db.core, w.db.core);
    }
  }

  lemma NothingOpened(c: Core, c': Core)
    requires c'.reservations.Keys <= c.reservations.Keys
    ensures NewAlone(c, c')
  {
  }

  /** The event at which an attempt was opened. */
  lemma OpenedAt(ws: seq<World>, i: nat, j: nat, b: Id) returns (k: nat)
    requires i < j < |ws| && b !in ws[i].db.core.reservations && b in ws[j].db.core.reservations
    ensures i <= k < j && b !in ws[k].db.core.reservations && b in ws[k + 1].db.core.reservations
  {
    k := i;
    while b !in ws[k + 1].db.core.reservations
      invariant i <= k < j && b !in ws[k].db.core.reservations
      decreases j - k
    {
      k := k + 1;
    }
  }

  /** While attempt `a` of a task is live, no other attempt that will still be leased exists yet. */
  lemma NotYetOpened(cfg: Config, h: Trace, i: nat, j: nat, a: Id, b: Id)
    requires Run(cfg, h) && i < j < |h.events| && a != b
    requires LeaseAt(h, i, a) && LeaseAt(h, j, b)
    requires IssuedTask(h.worlds[j + 1], a) == IssuedTask(h.worlds[j + 1], b)
    ensures b !in h.worlds[i + 1].db.core.reservations
  {
    hide Apply, LeaseFollows, Follows, Live;
    if b in h.worlds[i + 1].db.core.reservations {
      LeaseToLive(cfg, h, i, a);
      SameTaskBefore(cfg, h, i + 1, j + 1, a, b);
      LeaseExcludesOthers(cfg, h, i, b, a);
      NoLeaseAfterGone(cfg, h, i + 1, j, b);
    }
  }

  lemma SameTaskBefore(cfg: Config, h: Trace, i: nat, j: nat, a: Id, b: Id)
    requires Run(cfg, h) && i <= j < |h.worlds| && a in h.worlds[i].issued && b in h.worlds[i].db.core.reservations
    requires IssuedTask(h.worlds[j], a) == IssuedTask(h.worlds[j], b)
    ensures b in h.worlds[i].issued && IssuedTask(h.worlds[i], a) == IssuedTask(h.worlds[i], b)
  {
    hide Follows;
    IssuedForever(cfg, h, i, j);
    HeldIsIssued(cfg, h, i, b);
  }

  lemma HeldIsIssued(cfg: Config, h: Trace, i: nat, b: Id)
    requires Run(cfg, h) && i < |h.worlds| && b in h.worlds[i].db.core.reservations
    ensures b in h.worlds[i].issued
  {
    hide Follows;
    RunHealthy(cfg, h, i);
  }

  /**
   Handover only after confirmed release. If attempt `a` of a task was leased and later another attempt `b` is,
   with no restore between, then `b` was opened at an event after which the owning node's row for `a` reads
   released: a timeout, a fence or a crash alone never lets a second attempt start.
   */
  lemma HandoverAfterRelease(cfg: Config, h: Trace, i: nat, j: nat, a: Id, b: Id) returns (k: nat)
    requires Run(cfg, h) && i < j < |h.events| && a != b && NoRestore(h.events, i + 1, j + 1)
    requires LeaseAt(h, i, a) && LeaseAt(h, j, b)
    requires IssuedTask(h.worlds[j + 1], a) == IssuedTask(h.worlds[j + 1], b)
    ensures i < k <= j && a in h.worlds[k + 1].db.core.reservations && b !in h.worlds[k].db.core.reservations
    ensures h.worlds[k + 1].db.core.reservations[a].phase == Released
  {
    hide Apply, LeaseFollows, Follows;
    NotYetOpened(cfg, h, i, j, a, b);
    LeaseToLive(cfg, h, i, a);
    LeaseToLive(cfg, h, j, b);
    k := OpenedAt(h.worlds, i + 1, j + 1, b);
    RowSurvives(cfg, h, i + 1, k + 1, a);
    OpenedAlone(cfg, h, k, j + 1, a, b);
  }

  lemma RowSurvives(cfg: Config, h: Trace, i: nat, j: nat, a: Id)
    requires Run(cfg, h) && i <= j < |h.worlds| && NoRestore(h.events, i, j) && a in h.worlds[i].db.core.reservations
    ensures a in h.worlds[j].db.core.reservations
  {
    hide Follows;
    ForwardBetweenRestores(cfg, h, i, j);
    assert RowForward(h.worlds[i].db.core, h.worlds[j].db.core, a);
  }

  lemma OpenedAlone(cfg: Config, h: Trace, k: nat, j: nat, a: Id, b: Id)
    requires Run(cfg, h) && k < j < |h.worlds| && a != b && !h.events[k].RestoreBackup?
    requires b !in h.worlds[k].db.core.reservations && b in h.worlds[k + 1].db.core.reservations
    requires a in h.worlds[k + 1].db.core.reservations && IssuedTask(h.worlds[j], a) == IssuedTask(h.worlds[j], b)
    ensures h.worlds[k + 1].db.core.reservations[a].phase == Released
  {
    RunHealthy(cfg, h, k);
    RunHealthy(cfg, h, k + 1);
    IssuedForever(cfg, h, k + 1, j);
    EventAlone(cfg, h.worlds[k], h.events[k]);
    hide Apply;
    assert Alone(h.worlds[k + 1].db.core, b);
  }

  /** Fences outlive a restore exactly when the snapshot already fences the attempt or still holds it unreleased. */
  lemma FencesOutliveRestore(w: World, k: nat)
    requires k < |w.saved|
    ensures w.db.core.fences <= Restore(w.saved[k]).core.fences
      <==> forall a :: a in w.db.core.fences ==>
             a in w.saved[k].core.fences
             || (a in w.saved[k].core.reservations && w.saved[k].core.reservations[a].phase != Released)
  {
    var after := Restore(w.saved[k]).core.fences;
    var c := w.saved[k].core;
    forall a ensures a in after <==> a in c.fences || (a in c.reservations && c.reservations[a].phase != Released) {
    }
    if !(w.db.core.fences <= after) {
      var a :| a in w.db.core.fences && a !in after;
    }
  }

  /** Completed tasks keep their row, and results, publications and checkpoints do not go back. */
  ghost predicate WorkKept(db: Database, db': Database) {
    && (forall t :: t in db.core.tasks && db.core.tasks[t].status == Completed ==> TaskForward(db.core, db'.core, t))
    && WorkForward(db.work, db'.work)
  }

  /** The snapshot holds what was accepted: the same completed rows and results, and checkpoints no earlier. */
  ghost predicate AlreadyHolds(saved: Database, db: Database) {
    && (forall t :: t in db.core.tasks && db.core.tasks[t].status == Completed ==>
          t in saved.core.tasks && saved.core.tasks[t] == db.core.tasks[t])
    && (forall row :: row in db.work.publications ==> row in saved.work.publications)
    && (forall t :: t in db.work.results ==> t in saved.work.results && saved.work.results[t] == db.work.results[t])
    && (forall t :: t in db.work.checkpoints ==>
          && t in saved.work.checkpoints
          && (saved.work.checkpoints[t] == db.work.checkpoints[t]
              || NotBefore(db.work.checkpoints[t].submission, saved.work.checkpoints[t].submission)))
  }

  /** Accepted work outlives a restore exactly when the snapshot already holds it. */
  lemma WorkOutlivesRestore(cfg: Config, w: World, k: nat)
    requires k < |w.saved|
    ensures WorkKept(w.db, Apply(cfg, w, RestoreBackup(k)).0.db) <==> AlreadyHolds(w.saved[k], w.db)
  {
    assert forall t :: t in w.db.core.tasks && w.db.core.tasks[t].status == Completed ==>
      (TaskForward(w.db.core, Restore(w.saved[k]).core, t)
       <==> t in w.saved[k].core.tasks && w.saved[k].core.tasks[t] == w.db.core.tasks[t]);
  }

  /** No snapshot is ever altered or dropped. */
  lemma {:induction false} SavedForever(cfg: Config, h: Trace, i: nat, j: nat)
    requires Run(cfg, h) && i <= j < |h.worlds|
    ensures |h.worlds[i].saved| <= |h.worlds[j].saved|
    ensures forall k :: 0 <= k < |h.worlds[i].saved| ==> h.worlds[j].saved[k] == h.worlds[i].saved[k]
    decreases j - i
  {
    if i < j {
      SavedForever(cfg, h, i, j - 1);
      assert Follows(cfg, h.worlds[j - 1], h.events[j - 1], h.worlds[j], h.replies[j - 1]);
      hide Run, Handle, HandleCut, FreshIds;
    }
  }

  /**
   What a restore costs, over a history: take a backup at event `i` and restore it at any later event `j` with
   no restore between. A task completed before `j` is still completed, with the same row, result and receipt,
   exactly when it was completed when the backup was taken.
   */
  lemma RestoreReturnsToBackup(cfg: Config, h: Trace, i: nat, j: nat, t: Id)
    requires Run(cfg, h) && i < j < |h.events| && NoRestore(h.events, i, j)
    requires h.events[i] == Backup && h.events[j] == RestoreBackup(|h.worlds[i].saved|)
    requires t in h.worlds[j].db.core.tasks && h.worlds[j].db.core.tasks[t].status == Completed
    ensures var before, live, after := h.worlds[i].db, h.worlds[j].db, h.worlds[j + 1].db;
      && (t in before.core.tasks && before.core.tasks[t].status == Completed
          <==> t in after.core.tasks && after.core.tasks[t].status == Completed)
      && (t in after.core.tasks && after.core.tasks[t].status == Completed ==>
            && after.core.tasks[t] == live.core.tasks[t]
            && t in live.work.results && t in after.work.results && after.work.results[t] == live.work.results[t])
  {
    RestoredFrom(cfg, h, i, j);
    hide Follows;
    ForwardBetweenRestores(cfg, h, i, j);
    RunHealthy(cfg, h, i);
    if t in h.worlds[i].db.core.tasks {
      assert TaskForward(h.worlds[i].db.core, h.worlds[j].db.core, t);
    }
  }

  lemma RestoredFrom(cfg: Config, h: Trace, i: nat, j: nat)
    requires Run(cfg, h) && i < j < |h.events|
    requires h.events[i] == Backup && h.events[j] == RestoreBackup(|h.worlds[i].saved|)
    ensures h.worlds[j + 1].db.core.tasks == h.worlds[i].db.core.tasks && h.worlds[j + 1].db.work == h.worlds[i].db.work
  {
    assert Follows(cfg, h.worlds[i], h.events[i], h.worlds[i + 1], h.replies[i]);
    assert Follows(cfg, h.worlds[j], h.events[j], h.worlds[j + 1], h.replies[j]);
    SavedForever(cfg, h, i + 1, j);
    hide Run;
    assert h.worlds[i + 1].saved[|h.worlds[i].saved|] == h.worlds[i].db;
  }
}
