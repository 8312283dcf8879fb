/** What moving the clock does to the tables, row by row (src/coordinator.rs `advance_clock`). */
module CoordinatorExpiry {
  import opened Options
  import opened ResourceVectors
  import opened Listings
  import opened CoordinatorCore
  import opened CoordinatorTables
  import opened CoordinatorRules
  import opened CoordinatorSafety

  /** Opportunistic work that is neither released nor already uncertain, and whose time is up. */
  predicate RunOut(db: Database, a: Id, now: nat) {
    a in db.core.reservations
    && db.core.reservations[a].phase in {Offered, Prepared, Authorized, Running, Draining}
    && db.core.reservations[a].deadline <= now
    && SpecOf(db, TaskOf(db.core, a)).request.grade == Opportunistic
  }

  /** A task in flight whose attempt ran out may be tried again if that is safe, and waits for an operator otherwise. */
  function Suspended(task: Task): Task {
    if task.status == Assigned then task.(status := if task.replaySafe then Queued else NeedsReconciliation) else task
  }

  /** Exactly the attempts that ran out are uncertain and fenced, and their tasks are no longer assigned. */
  ghost predicate ClockMoved(db: Database, db': Database, now: nat) {
    && db' == db.(clock := now, core := db'.core) && db'.core.assignments == db.core.assignments
    && db'.core.reservations.Keys == db.core.reservations.Keys && db'.core.tasks.Keys == db.core.tasks.Keys
    && (forall a :: a in db.core.reservations ==>
          db'.core.reservations[a] == if RunOut(db, a, now) then db.core.reservations[a].(phase := Uncertain)
                                      else db.core.reservations[a])
    && (forall a :: a in db'.core.fences <==> a in db.core.fences || RunOut(db, a, now))
    && (forall t :: t in db.core.tasks ==>
          db'.core.tasks[t] == if exists a :: RunOut(db, a, now) && TaskOf(db.core, a) == t
                               then Suspended(db.core.tasks[t]) else db.core.tasks[t])
  }

  /** Tasks whose current attempt is among `gone`. */
  function Unassigned(c: Core, gone: set<Id>): map<Id, Task> {
    map t | t in c.tasks ::
      if c.tasks[t].assignment.Some? && c.tasks[t].assignment.value in gone then Suspended(c.tasks[t]) else c.tasks[t]
  }

  /** All three writes for all of `gone` at once. */
  function Revoked(c: Core, gone: set<Id>): Core {
    c.(tasks := Unassigned(c, gone), reservations := Suspected(c, gone), fences := c.fences + gone)
  }

  lemma RevokeNone(c: Core)
    ensures Revoked(c, {}) == c
  {
    assert Unassigned(c, {}) == c.tasks && Suspected(c, {}) == c.reservations;
  }

  /** One more row: its three writes are independent of the rows before it. */
  lemma RevokeOne(c: Core, gone: set<Id>, a: Id)
    requires Authority(c) && a in c.reservations && !Settled(c.reservations[a]) && a !in gone
    ensures ExpireRow(Revoked(c, gone), a, 3) == Revoked(c, gone + {a})
  {
    assert Live(c, a) && IsCurrent(c, a);
    assert NamesOwnAttempt(c, TaskOf(c, a));
    forall u | u in c.tasks && u != TaskOf(c, a) ensures c.tasks[u].assignment != Some(a) {
      assert NamesOwnAttempt(c, u);
    }
    hide ExpireRow, Revoked;
    RevokeRow(c, gone, a, TaskOf(c, a));
  }

  lemma RevokeRow(c: Core, gone: set<Id>, a: Id, t: Id)
    requires a in c.reservations && a !in gone && t in c.tasks && c.tasks[t].assignment == Some(a)
    requires AttemptOf(c, a) == Attempt(t, c.tasks[t].generation) && c.tasks[t].generation > 0
    requires forall u :: u in c.tasks && u != t ==> c.tasks[u].assignment != Some(a)
    ensures ExpireRow(Revoked(c, gone), a, 3) == Revoked(c, gone + {a})
  {
    assert SetPhase(Revoked(c, gone), a, Uncertain).reservations == Revoked(c, gone + {a}).reservations;
    assert Unassigned(c, gone)[t] == c.tasks[t];
    assert Unassigned(c, gone + {a}) == Unassigned(c, gone)[t := Suspended(c.tasks[t])];
  }

  lemma {:induction false} RevokeAll(c: Core, due: seq<Id>)
    requires Authority(c) && AllDue(c, due)
    ensures ExpireRows(c, due) == Revoked(c, Members(due))
  {
    hide Revoked, ExpireRow;
    if due == [] {
      RevokeNone(c);
      assert Members(due) == {};
    } else {
      var n := |due| - 1;
      RevokeAll(c, due[..n]);
      MembersLast(due);
      hide Members;
      RevokeOne(c, Members(due[..n]), due[n]);
    }
  }

  lemma MembersLast(due: seq<Id>)
    requires due != [] && Distinct(due)
    ensures var n := |due| - 1; due[n] !in Members(due[..n]) && Members(due) == Members(due[..n]) + {due[n]}
  {
    var n := |due| - 1;
    assert due == due[..n] + [due[n]];
  }

  lemma DueRunOut(db: Database, now: nat)
    ensures forall a :: a in Members(DueOrder(db, now)) <==> RunOut(db, a, now)
  {
  }

  /** A task's current attempt is the one that ran out, or none did. */
  lemma RunOutCurrent(db: Database, now: nat, t: Id)
    requires Authority(db.core) && t in db.core.tasks
    ensures (exists a :: RunOut(db, a, now) && TaskOf(db.core, a) == t)
      <==> db.core.tasks[t].assignment.Some? && RunOut(db, db.core.tasks[t].assignment.value, now)
  {
    assert NamesOwnAttempt(db.core, t);
    if a :| RunOut(db, a, now) && TaskOf(db.core, a) == t {
      assert Live(db.core, a) && IsCurrent(db.core, a);
    }
  }

  /** The clock law: who is revoked is read off the rows, and nothing else changes. */
  lemma ClockExact(db: Database, now: nat)
    requires Authority(db.core)
    ensures ClockMoved(db, AdvanceClock(db, now), now)
  {
    var gone := Members(DueOrder(db, now));
    DueRows(db, now);
    DueRunOut(db, now);
    RevokeAll(db.core, DueOrder(db, now));
    hide DueOrder, RunOut, ExpireRows;
    forall t | t in db.core.tasks
      ensures (exists a :: RunOut(db, a, now) && TaskOf(db.core, a) == t)
        <==> db.core.tasks[t].assignment.Some? && db.core.tasks[t].assignment.value in gone
    {
      RunOutCurrent(db, now, t);
    }
    RevokedMoved(db, gone, now);
  }

  /** The same for a core that expiry has already computed. */
  lemma ExpiryExact(db: Database, now: nat, core: Core)
    requires core == ExpireRows(db.core, DueOrder(db, now))
    ensures Authority(db.core) ==> ClockMoved(db, db.(clock := now, core := core), now)
  {
    if Authority(db.core) {
      ClockExact(db, now);
      hide ClockMoved, ExpireRows, DueOrder;
    }
  }

  lemma RevokedMoved(db: Database, gone: set<Id>, now: nat)
    requires forall a :: a in gone <==> RunOut(db, a, now)
    requires forall t :: t in db.core.tasks ==>
      ((exists a :: RunOut(db, a, now) && TaskOf(db.core, a) == t)
       <==> db.core.tasks[t].assignment.Some? && db.core.tasks[t].assignment.value in gone)
    ensures ClockMoved(db, db.(clock := now, core := Revoked(db.core, gone)), now)
  {
    hide RunOut;
  }

  /** Its holder's time is over before the coordinator gives a leased attempt up. */
  lemma HolderStopsFirst(cfg: Config, db: Database, lease: Lease, granted: nat, now: nat)
    requires GoodFor(cfg, db, lease, granted) && Authority(db.core) && granted <= now
    requires !Settled(db.core.reservations[lease.assignment])
    requires lease.assignment in AdvanceClock(db, now).core.fences
    ensures granted + lease.validFor <= now
  {
    ClockExact(db, now);
    hide AdvanceClock, ClockMoved;
    assert lease.assignment in db.core.fences || RunOut(db, lease.assignment, now) by {
      ClockFences(db, now, lease.assignment);
    }
    assert lease.assignment !in db.core.fences;
  }

  lemma ClockFences(db: Database, now: nat, a: Id)
    requires ClockMoved(db, AdvanceClock(db, now), now)
    ensures a in AdvanceClock(db, now).core.fences <==> a in db.core.fences || RunOut(db, a, now)
  {
    hide AdvanceClock;
  }
}
