/**
 The four coordinator tables that carry authority (src/coordinator.rs, src/state.rs): tasks, their
 attempts, the reservations of those attempts, and the fences. Every write the handlers make to them is
 one of the operations below, and every operation keeps `Authority`.
 */
module CoordinatorCore {
  import opened Options
  import opened ResourceVectors

  type Id = nat

  datatype Phase = Offered | Prepared | Authorized | Running | Draining | Uncertain | Released

  datatype Status = Queued | Assigned | Completed | NeedsReconciliation

  datatype Task = Task(
    replaySafe: bool, status: Status, generation: nat, assignment: Option<Id>, receipt: Option<Id>)

  datatype Attempt = Attempt(task: Id, generation: nat)

  datatype Reservation = Reservation(
    node: Id, phase: Phase, resources: Resources, observed: Option<Resources>,
    leaseSequence: nat, deadline: nat, epoch: nat)

  datatype Core = Core(
    tasks: map<Id, Task>, assignments: map<Id, Attempt>, reservations: map<Id, Reservation>, fences: set<Id>)

  // Lookups are total so that a query can be read on its own; under `Keyed` no default is ever used.

  function AttemptOf(c: Core, a: Id): Attempt {
    if a in c.assignments then c.assignments[a] else Attempt(0, 0)
  }

  function TaskOf(c: Core, a: Id): Id {
    AttemptOf(c, a).task
  }

  function TaskRow(c: Core, t: Id): Task {
    if t in c.tasks then c.tasks[t] else Task(false, NeedsReconciliation, 0, None, None)
  }

  /** The unreleased reservations of one task. */
  function Held(c: Core, t: Id): set<Id> {
    set a | a in c.reservations && c.reservations[a].phase != Released && TaskOf(c, a) == t
  }

  /** Foreign keys among the four tables. */
  ghost predicate Keyed(c: Core) {
    && c.reservations.Keys == c.assignments.Keys
    && c.fences <= c.assignments.Keys
    && (forall a :: a in c.assignments ==> c.assignments[a].task in c.tasks && c.assignments[a].generation > 0)
  }

  /** A reservation that may still be authorized: not released and not fenced. */
  predicate Live(c: Core, a: Id) {
    a in c.reservations && c.reservations[a].phase != Released && a !in c.fences
  }

  /** The task row names this very attempt. */
  predicate IsCurrent(c: Core, a: Id) {
    TaskRow(c, TaskOf(c, a)).assignment == Some(a)
  }

  predicate Settled(row: Reservation) {
    row.phase == Released || row.phase == Uncertain
  }

  /**
   A live reservation is its task's current attempt, and a fenced one is uncertain or released. The
   simpler claim, one unreleased reservation per task, is false: a heartbeat can revive a released row
   (module CoordinatorRevival says exactly when). It revives it fenced, which is why the invariant speaks of
   fences.
   */
  ghost predicate Authority(c: Core) {
    && Keyed(c)
    && (forall a: Id :: Live(c, a) ==> IsCurrent(c, a))
    && (forall a :: a in c.fences ==> a in c.reservations && Settled(c.reservations[a]))
    && (forall t :: t in c.tasks ==> NamesOwnAttempt(c, t))
    && (forall a :: a in c.assignments ==> c.assignments[a].generation <= TaskRow(c, TaskOf(c, a)).generation)
  }

  ghost predicate NamesOwnAttempt(c: Core, t: Id)
    requires t in c.tasks
  {
    c.tasks[t].assignment.Some? ==>
      c.tasks[t].assignment.value in c.reservations
      && AttemptOf(c, c.tasks[t].assignment.value) == Attempt(t, c.tasks[t].generation)
  }

  /** Every other attempt of the same task is released. */
  ghost predicate Alone(c: Core, b: Id) {
    forall a :: a in c.reservations && a != b && TaskOf(c, a) == TaskOf(c, b) ==> c.reservations[a].phase == Released
  }

  /** At most one live reservation per task, and it is the current attempt. */
  lemma OneLivePerTask(c: Core, a: Id, b: Id)
    requires Authority(c) && Live(c, a) && Live(c, b) && TaskOf(c, a) == TaskOf(c, b)
    ensures a == b && IsCurrent(c, a) && AttemptOf(c, a).generation == TaskRow(c, TaskOf(c, a)).generation
  {
    assert IsCurrent(c, a) && IsCurrent(c, b);
    assert TaskOf(c, a) in c.tasks && NamesOwnAttempt(c, TaskOf(c, a));
  }

  // ---------------------------------------------------------------- what never goes back

  ghost predicate TaskForward(c: Core, c': Core, t: Id)
    requires t in c.tasks
  {
    && t in c'.tasks
    && c.tasks[t].generation <= c'.tasks[t].generation
    && (c.tasks[t].status == Completed ==> c'.tasks[t] == c.tasks[t])
  }

  ghost predicate RowForward(c: Core, c': Core, a: Id)
    requires a in c.reservations
  {
    && a in c'.reservations && AttemptOf(c', a) == AttemptOf(c, a)
    && c.reservations[a].leaseSequence <= c'.reservations[a].leaseSequence
    && c.reservations[a].node == c'.reservations[a].node
    && (Live(c', a) ==> Live(c, a))
  }

  /**
   Fences are permanent, generations and lease numbers only grow, completed tasks are frozen, and an
   attempt that is no longer live never becomes live again.
   */
  ghost predicate Forward(c: Core, c': Core) {
    && c.fences <= c'.fences
    && (forall t :: t in c.tasks ==> TaskForward(c, c', t))
    && (forall a :: a in c.reservations ==> RowForward(c, c', a))
  }

  lemma ForwardTransitive(a: Core, b: Core, c: Core)
    requires Forward(a, b) && Forward(b, c)
    ensures Forward(a, c)
  {
    forall t | t in a.tasks ensures TaskForward(a, c, t) {
      assert TaskForward(a, b, t) && TaskForward(b, c, t);
    }
    forall x | x in a.reservations ensures RowForward(a, c, x) {
      assert RowForward(a, b, x) && RowForward(b, c, x);
    }
  }

  /** No task is completed or reopened. */
  ghost predicate SameCompletions(c: Core, c': Core) {
    c'.tasks.Keys == c.tasks.Keys
    && forall t :: t in c.tasks ==> (c'.tasks[t].status == Completed <==> c.tasks[t].status == Completed)
  }

  /** No lease number moves. */
  ghost predicate SameLeases(c: Core, c': Core) {
    forall a :: a in c.reservations && a in c'.reservations ==>
      c'.reservations[a].leaseSequence == c.reservations[a].leaseSequence
  }

  /** No attempt is opened, and every task keeps the one it has. */
  ghost predicate SameAttempts(c: Core, c': Core) {
    && c'.reservations.Keys == c.reservations.Keys && c'.assignments == c.assignments
    && c'.tasks.Keys == c.tasks.Keys
    && (forall t :: t in c.tasks ==>
          c'.tasks[t].generation == c.tasks[t].generation && c'.tasks[t].assignment == c.tasks[t].assignment)
  }

  /** A step that keeps authority and the same attempts, moves forward, accepts nothing and leases nothing. */
  ghost predicate Routine(c: Core, c': Core) {
    && Authority(c') && Forward(c, c') && SameCompletions(c, c')
    && SameLeases(c, c') && SameAttempts(c, c')
  }

  lemma RoutineTransitive(a: Core, b: Core, c: Core)
    requires Routine(a, b) && Routine(b, c)
    ensures Routine(a, c)
  {
    ForwardTransitive(a, b, c);
  }

  lemma RoutineReflexive(c: Core)
    requires Authority(c)
    ensures Routine(c, c)
  {
    assert forall t :: t in c.tasks ==> TaskForward(c, c, t);
    assert forall a :: a in c.reservations ==> RowForward(c, c, a);
  }

  // ---------------------------------------------------------------- writes to reservations and fences

  /** Rows keep their owner and lease number, and nothing becomes live that was not. */
  ghost predicate RowsTamed(c: Core, rows: map<Id, Reservation>, fences: set<Id>) {
    && rows.Keys == c.reservations.Keys
    && (forall a :: a in rows ==>
          rows[a].node == c.reservations[a].node
          && rows[a].leaseSequence == c.reservations[a].leaseSequence)
    && c.fences <= fences <= rows.Keys
    && (forall a :: a in fences ==> Settled(rows[a]))
    && (forall a :: a in rows && a !in fences && rows[a].phase != Released ==>
          c.reservations[a].phase != Released)
  }

  lemma RowsRoutine(c: Core, rows: map<Id, Reservation>, fences: set<Id>)
    requires Authority(c) && RowsTamed(c, rows, fences)
    ensures Routine(c, c.(reservations := rows, fences := fences))
  {
    var c' := c.(reservations := rows, fences := fences);
    forall a: Id | Live(c', a) ensures IsCurrent(c', a) {
      assert Live(c, a) && IsCurrent(c, a);
    }
    forall t | t in c'.tasks ensures NamesOwnAttempt(c', t) {
      assert NamesOwnAttempt(c, t);
    }
    forall a | a in c.reservations ensures RowForward(c, c', a) {
    }
  }

  function SetPhase(c: Core, a: Id, phase: Phase): Core {
    if a in c.reservations then c.(reservations := c.reservations[a := c.reservations[a].(phase := phase)]) else c
  }

  function Fence(c: Core, more: set<Id>): Core {
    c.(fences := c.fences + more)
  }

  /** An unsettled row is live, and may be rewritten with a larger lease number. */
  lemma RewriteKeeps(c: Core, a: Id, row: Reservation)
    requires Authority(c) && a in c.reservations && !Settled(c.reservations[a])
    requires row.node == c.reservations[a].node && c.reservations[a].leaseSequence <= row.leaseSequence
    ensures Live(c, a) && IsCurrent(c, a)
    ensures var c' := c.(reservations := c.reservations[a := row]);
            Authority(c') && Forward(c, c') && SameCompletions(c, c')
  {
    assert a !in c.fences;
    var c' := c.(reservations := c.reservations[a := row]);
    forall b: Id | Live(c', b) ensures Live(c, b) && IsCurrent(c', b) {
      assert Live(c, b) && IsCurrent(c, b);
    }
    forall t | t in c'.tasks ensures NamesOwnAttempt(c', t) && TaskForward(c, c', t) {
      assert NamesOwnAttempt(c, t);
    }
    forall b | b in c.reservations ensures RowForward(c, c', b) {
    }
  }

  lemma SuspectRoutine(c: Core, a: Id)
    requires Authority(c) && (a in c.reservations ==> c.reservations[a].phase != Released)
    ensures Routine(c, SetPhase(c, a, Uncertain))
  {
    RowsRoutine(c, SetPhase(c, a, Uncertain).reservations, c.fences);
  }

  // ---------------------------------------------------------------- heartbeat merge

  predicate Contradiction(prior: Phase, reported: Phase, newer: bool) {
    prior == Released && reported != Released && newer
  }

  predicate InvalidRunning(reported: Phase, leased: bool) {
    !leased && (reported == Running || reported == Authorized)
  }

  /** The phase a reservation takes from one reported allocation. */
  function MergedPhase(prior: Phase, reported: Phase, leased: bool, fenced: bool, newer: bool): Phase {
    if reported == Released then Released
    else if Contradiction(prior, reported, newer) || InvalidRunning(reported, leased) || reported == Uncertain
    then Uncertain
    else if prior == Released then Released
    else if fenced then Uncertain
    else if prior == Draining then Draining
    else if prior == Running && (reported == Offered || reported == Prepared || reported == Authorized) then Running
    else if prior == Authorized && (reported == Offered || reported == Prepared) then Authorized
    else reported
  }

  function MergeRow(c: Core, a: Id, reported: Phase, observed: Option<Resources>, newer: bool): Core
    requires a in c.reservations
  {
    var row := c.reservations[a];
    var phase := MergedPhase(row.phase, reported, row.leaseSequence > 0, a in c.fences, newer);
    c.(reservations := c.reservations[a := row.(phase := phase, observed := observed)],
       fences := if phase == Uncertain then c.fences + {a} else c.fences)
  }

  lemma MergeRowRoutine(c: Core, a: Id, reported: Phase, observed: Option<Resources>, newer: bool)
    requires Authority(c) && a in c.reservations
    ensures Routine(c, MergeRow(c, a, reported, observed, newer))
  {
    var c' := MergeRow(c, a, reported, observed, newer);
    RowsRoutine(c, c'.reservations, c'.fences);
  }

  /** What it takes for a report to bring a released row back, by the row's lease number and the report's age. */
  predicate Revives(row: Reservation, reported: Phase, newer: bool) {
    reported != Released
    && (newer || reported == Uncertain || (row.leaseSequence == 0 && (reported == Running || reported == Authorized)))
  }

  /** A row's release after one reported phase, exactly; a row that comes back is uncertain and fenced. */
  lemma RevivedIsFenced(c: Core, a: Id, reported: Phase, observed: Option<Resources>, newer: bool)
    requires a in c.reservations
    ensures var c' := MergeRow(c, a, reported, observed, newer);
      && (c'.reservations[a].phase != Released <==>
            if c.reservations[a].phase == Released then Revives(c.reservations[a], reported, newer) else reported != Released)
      && (c.reservations[a].phase == Released && c'.reservations[a].phase != Released ==>
            c'.reservations[a].phase == Uncertain && a in c'.fences && !Live(c', a))
  {
  }

  function FenceMissing(c: Core, missing: set<Id>): Core {
    c.(reservations := map a | a in c.reservations ::
         if a in missing then c.reservations[a].(phase := Uncertain, observed := None) else c.reservations[a],
       fences := c.fences + missing)
  }

  lemma FenceMissingRoutine(c: Core, missing: set<Id>)
    requires Authority(c) && missing <= c.reservations.Keys
    ensures Routine(c, FenceMissing(c, missing))
  {
    var c' := FenceMissing(c, missing);
    RowsRoutine(c, c'.reservations, c'.fences);
  }

  // ---------------------------------------------------------------- task statuses

  function SetStatus(c: Core, t: Id, status: Status): Core {
    if t in c.tasks then c.(tasks := c.tasks[t := c.tasks[t].(status := status)]) else c
  }

  /** Only unfinished tasks change, only in status, and not to `Completed`. */
  ghost predicate StatusesTamed(c: Core, tasks: map<Id, Task>) {
    && tasks.Keys == c.tasks.Keys
    && (forall t :: t in tasks ==>
          tasks[t] == c.tasks[t]
          || (c.tasks[t].status != Completed && tasks[t].status != Completed
              && tasks[t] == c.tasks[t].(status := tasks[t].status)))
  }

  lemma StatusesRoutine(c: Core, tasks: map<Id, Task>)
    requires Authority(c) && StatusesTamed(c, tasks)
    ensures Routine(c, c.(tasks := tasks))
  {
    var c' := c.(tasks := tasks);
    forall a | a in c.assignments
      ensures TaskRow(c', TaskOf(c', a)).assignment == TaskRow(c, TaskOf(c, a)).assignment
      ensures TaskRow(c', TaskOf(c', a)).generation == TaskRow(c, TaskOf(c, a)).generation
    {
    }
    forall a: Id | Live(c', a) ensures IsCurrent(c', a) {
      assert Live(c, a) && IsCurrent(c, a);
    }
    forall t | t in c'.tasks ensures NamesOwnAttempt(c', t) && TaskForward(c, c', t) {
      assert NamesOwnAttempt(c, t);
    }
    forall a | a in c.reservations ensures RowForward(c, c', a) {
    }
  }

  lemma SetStatusRoutine(c: Core, t: Id, status: Status)
    requires Authority(c) && status != Completed && TaskRow(c, t).status != Completed
    ensures Routine(c, SetStatus(c, t, status))
  {
    StatusesRoutine(c, SetStatus(c, t, status).tasks);
  }

  /** A completed task keeps its status whatever is reported later. */
  function Conclude(c: Core, t: Id, status: Status): Core {
    if TaskRow(c, t).status == Completed then c else SetStatus(c, t, status)
  }

  lemma ConcludeRoutine(c: Core, t: Id, status: Status)
    requires Authority(c) && status != Completed
    ensures Routine(c, Conclude(c, t, status))
  {
    RoutineReflexive(c);
    if TaskRow(c, t).status != Completed {
      SetStatusRoutine(c, t, status);
    }
  }

  /** src/state.rs `mark_uncertain`: an error when `generation` is not the task's own. */
  function MarkUncertain(c: Core, t: Id, generation: nat): Option<Core> {
    if t !in c.tasks || c.tasks[t].generation != generation || generation == 0 then None
    else if c.tasks[t].status == Assigned then
      Some(SetStatus(c, t, if c.tasks[t].replaySafe then Queued else NeedsReconciliation))
    else Some(c)
  }

  lemma MarkUncertainRoutine(c: Core, t: Id, generation: nat)
    requires Authority(c) && MarkUncertain(c, t, generation).Some?
    ensures Routine(c, MarkUncertain(c, t, generation).value)
  {
    RoutineReflexive(c);
    if c.tasks[t].status == Assigned {
      SetStatusRoutine(c, t, if c.tasks[t].replaySafe then Queued else NeedsReconciliation);
    }
  }

  // ---------------------------------------------------------------- sessions, restart, restore

  function Retained(c: Core, node: Id): set<Id> {
    set a | a in c.reservations && c.reservations[a].node == node && c.reservations[a].phase != Released
  }

  function Requeued(c: Core, held: set<Id>): map<Id, Task> {
    map t | t in c.tasks ::
      var task := c.tasks[t];
      if task.status != Completed && task.assignment.Some? && task.assignment.value in held
      then task.(status := if task.replaySafe then Queued else NeedsReconciliation) else task
  }

  function Suspected(c: Core, held: set<Id>): map<Id, Reservation> {
    map a | a in c.reservations ::
      if a in held then c.reservations[a].(phase := Uncertain) else c.reservations[a]
  }

  /** Everything the node retains becomes uncertain and fenced, and its tasks leave `Assigned`. */
  function ReplaceSession(c: Core, node: Id): Core {
    var held := Retained(c, node);
    c.(tasks := Requeued(c, held), reservations := Suspected(c, held), fences := c.fences + held)
  }

  lemma ReplaceSessionRoutine(c: Core, node: Id)
    requires Authority(c)
    ensures Routine(c, ReplaceSession(c, node))
    ensures forall a :: a in Retained(c, node) ==> a in ReplaceSession(c, node).fences
  {
    var held := Retained(c, node);
    var c1 := c.(tasks := Requeued(c, held));
    StatusesRoutine(c, c1.tasks);
    SuspectedRoutine(c1, held);
    RoutineTransitive(c, c1, ReplaceSession(c, node));
  }

  lemma SuspectedRoutine(c: Core, held: set<Id>)
    requires Authority(c) && forall a :: a in held ==> a in c.reservations && c.reservations[a].phase != Released
    ensures Routine(c, c.(reservations := Suspected(c, held), fences := c.fences + held))
  {
    RowsRoutine(c, Suspected(c, held), c.fences + held);
  }

  function Suspend(rows: map<Id, Reservation>, forget: bool): map<Id, Reservation> {
    map a | a in rows ::
      if rows[a].phase != Released
      then rows[a].(phase := Uncertain, deadline := if forget then 0 else rows[a].deadline)
      else rows[a]
  }

  /** Reopening the database: everything unreleased needs reconciliation, but nothing is fenced. */
  function RestartCore(c: Core): Core {
    c.(reservations := Suspend(c.reservations, false))
  }

  lemma RestartRoutine(c: Core)
    requires Authority(c)
    ensures Routine(c, RestartCore(c))
  {
    RowsRoutine(c, Suspend(c.reservations, false), c.fences);
  }

  function Unreleased(c: Core): set<Id> {
    set a | a in c.reservations && c.reservations[a].phase != Released
  }

  /** src/backup.rs `restore`: everything unreleased in the snapshot is fenced. */
  function RestoreCore(c: Core): Core {
    c.(reservations := Suspend(c.reservations, true), fences := c.fences + Unreleased(c))
  }

  lemma RestoreRoutine(c: Core)
    requires Authority(c)
    ensures Routine(c, RestoreCore(c)) && forall a: Id :: !Live(RestoreCore(c), a)
  {
    RowsRoutine(c, Suspend(c.reservations, true), c.fences + Unreleased(c));
  }

  // ---------------------------------------------------------------- new tasks, attempts, results

  lemma NewTasksKeep(c: Core, more: map<Id, Task>)
    requires Authority(c) && more.Keys !! c.tasks.Keys
    requires forall t :: t in more ==> more[t].assignment == None && more[t].generation == 0
    ensures Authority(c.(tasks := c.tasks + more)) && Forward(c, c.(tasks := c.tasks + more))
  {
    var c' := c.(tasks := c.tasks + more);
    assert forall a :: a in c.assignments ==> TaskRow(c', TaskOf(c', a)) == TaskRow(c, TaskOf(c, a));
    forall a: Id | Live(c', a) ensures IsCurrent(c', a) {
      assert Live(c, a) && IsCurrent(c, a);
    }
    forall t | t in c'.tasks ensures NamesOwnAttempt(c', t) {
      assert t in c.tasks ==> NamesOwnAttempt(c, t);
    }
    forall t | t in c.tasks ensures TaskForward(c, c', t) {
    }
    forall a | a in c.reservations ensures RowForward(c, c', a) {
    }
  }

  function OfferCore(c: Core, t: Id, a: Id, row: Reservation): Core
    requires t in c.tasks
  {
    var generation := c.tasks[t].generation + 1;
    c.(assignments := c.assignments[a := Attempt(t, generation)],
       tasks := c.tasks[t := c.tasks[t].(status := Assigned, generation := generation, assignment := Some(a))],
       reservations := c.reservations[a := row])
  }

  /** A new attempt is opened only while the task holds nothing, so every older one is released. */
  lemma OfferKeeps(c: Core, t: Id, a: Id, row: Reservation)
    requires Authority(c) && t in c.tasks && c.tasks[t].status == Queued
    requires a !in c.assignments && Held(c, t) == {}
    ensures Authority(OfferCore(c, t, a, row)) && Forward(c, OfferCore(c, t, a, row))
    ensures SameCompletions(c, OfferCore(c, t, a, row))
  {
    var c' := OfferCore(c, t, a, row);
    OfferAuthority(c, t, a, row);
    forall u | u in c.tasks ensures TaskForward(c, c', u) {
    }
    forall b | b in c.reservations ensures RowForward(c, c', b) {
    }
  }

  lemma OfferAuthority(c: Core, t: Id, a: Id, row: Reservation)
    requires Authority(c) && t in c.tasks && a !in c.assignments && Held(c, t) == {}
    ensures Authority(OfferCore(c, t, a, row))
  {
    var c' := OfferCore(c, t, a, row);
    forall b: Id | Live(c', b) ensures IsCurrent(c', b) {
      if b != a {
        assert Live(c, b) && IsCurrent(c, b) && TaskOf(c, b) != t by {
          assert b !in Held(c, t);
        }
      }
    }
    forall u | u in c'.tasks ensures NamesOwnAttempt(c', u) {
      assert NamesOwnAttempt(c, u);
    }
    forall b | b in c'.assignments
      ensures c'.assignments[b].generation <= TaskRow(c', TaskOf(c', b)).generation
    {
      assert b != a ==> c.assignments[b].generation <= TaskRow(c, TaskOf(c, b)).generation;
    }
  }

  /** A new attempt starts alone, and does not disturb one that is alone and still held. */
  lemma OfferAlone(c: Core, t: Id, a: Id, row: Reservation, b: Id)
    requires t in c.tasks && a !in c.assignments && a !in c.reservations && Held(c, t) == {}
    requires b == a || (b in c.reservations && c.reservations[b].phase != Released && Alone(c, b))
    ensures Alone(OfferCore(c, t, a, row), b)
  {
    var c' := OfferCore(c, t, a, row);
    forall x | x in c'.reservations && x != b && TaskOf(c', x) == TaskOf(c', b)
      ensures c'.reservations[x].phase == Released
    {
      assert b !in Held(c, t) && x !in Held(c, t);
    }
  }

  function CompleteCore(c: Core, t: Id, receipt: Id): Core
    requires t in c.tasks
  {
    c.(tasks := c.tasks[t := c.tasks[t].(status := Completed, receipt := Some(receipt))])
  }

  lemma CompleteKeeps(c: Core, t: Id, receipt: Id)
    requires Authority(c) && t in c.tasks && c.tasks[t].status != Completed
    ensures Authority(CompleteCore(c, t, receipt)) && Forward(c, CompleteCore(c, t, receipt))
  {
    var c' := CompleteCore(c, t, receipt);
    assert forall a :: a in c.assignments ==>
      TaskRow(c', TaskOf(c', a)).assignment == TaskRow(c, TaskOf(c, a)).assignment
      && TaskRow(c', TaskOf(c', a)).generation == TaskRow(c, TaskOf(c, a)).generation;
    forall a: Id | Live(c', a) ensures IsCurrent(c', a) {
      assert Live(c, a) && IsCurrent(c, a);
    }
    forall u | u in c'.tasks ensures NamesOwnAttempt(c', u) {
      assert NamesOwnAttempt(c, u);
    }
    forall u | u in c.tasks ensures TaskForward(c, c', u) {
    }
    forall a | a in c.reservations ensures RowForward(c, c', a) {
    }
  }
}
