/** What a failed or yielded attempt means for the next one (src/coordinator.rs `record_failure`). */
module CoordinatorRetries {
  import opened Options
  import opened ResourceVectors
  import opened CoordinatorCore
  import opened CoordinatorTables
  import opened CoordinatorRules

  // ---------------------------------------------------------------- how long to wait

  lemma {:induction false} Pow2Grows(n: nat)
    ensures Pow2(n) >= 1 && (n >= 64 ==> Pow2(n) > U64_MAX)
  {
    if n == 64 {
      assert Pow2(64) == 0x1_0000_0000_0000_0000 by { Pow2Values(); }
    } else if n > 0 {
      Pow2Grows(n - 1);
    }
  }

  lemma Pow2Values()
    ensures Pow2(64) == 0x1_0000_0000_0000_0000
  {
    assert Pow2(8) == 0x100;
    assert Pow2(16) == 0x1_0000;
    assert Pow2(24) == 0x100_0000;
    assert Pow2(32) == 0x1_0000_0000;
    assert Pow2(40) == 0x100_0000_0000;
    assert Pow2(48) == 0x1_0000_0000_0000;
    assert Pow2(56) == 0x100_0000_0000_0000;
  }

  /** The saturating arithmetic is plain doubling up to the maximum. */
  lemma BackoffPower(base: nat, maximum: nat, n: nat)
    requires n > 0 && maximum <= U64_MAX
    ensures Backoff(base, maximum, n) == Min(base * Pow2(n - 1), maximum)
  {
    var shift: nat := n - 1;
    if shift >= 64 {
      Pow2Grows(shift);
      if base > 0 {
        assert base * Pow2(shift) >= Pow2(shift) && base * U64_MAX >= U64_MAX;
      }
    }
  }

  /** The first wait is the base, every further one twice the last, and none exceeds the maximum. */
  lemma BackoffDoubles(base: nat, maximum: nat, n: nat)
    requires maximum <= U64_MAX && n > 0
    ensures Backoff(base, maximum, 1) == Min(base, maximum)
    ensures Backoff(base, maximum, n + 1) == Min(2 * Backoff(base, maximum, n), maximum)
  {
    BackoffPower(base, maximum, 1);
    BackoffPower(base, maximum, n);
    BackoffPower(base, maximum, n + 1);
    assert Pow2(n) == 2 * Pow2(n - 1) && Pow2(0) == 1;
    hide Backoff, Pow2;
    DoubleUpTo(base, Pow2(n - 1), Pow2(n), maximum);
  }

  lemma DoubleUpTo(base: nat, power: nat, next: nat, maximum: nat)
    requires next == 2 * power
    ensures Min(base * next, maximum) == Min(2 * Min(base * power, maximum), maximum)
  {
    var x := base * power;
    assert base * next == 2 * x;
  }

  // ---------------------------------------------------------------- what is recorded

  /** The attempt stopped because it was told to, or said so itself. */
  ghost predicate GaveWay(db: Database, a: Id, kind: FailureKind) {
    kind == Yielded || (a in db.core.reservations && ShouldDrain(db, a))
  }

  /** Yielding never counts against a task; failing does, and starts the yields afresh. */
  ghost predicate RetryLaw(db: Database, cfg: Config, a: Id, kind: FailureKind, now: nat, before: Retry, after: Retry) {
    if GaveWay(db, a, kind) then
      && after.failures == before.failures && after.yieldCount == before.yieldCount + 1
      && after.notBefore == SatAdd(now, Backoff(cfg.yieldBase, cfg.yieldMax, after.yieldCount))
    else
      && after.failures == before.failures + 1 && after.yieldCount == 0
      && after.notBefore == SatAdd(now, Backoff(cfg.retryBase, cfg.retryMax, after.failures))
  }

  /** A task may be tried again while that is safe and both its limits allow it. */
  ghost predicate MayTryAgain(db: Database, cfg: Config, a: Id, retry: Retry) {
    var t := TaskOf(db.core, a);
    && TaskRow(db.core, t).replaySafe && retry.failures < cfg.retryLimit
    && (SpecOf(db, t).request.maxAttempts.Some? ==>
          TaskRow(db.core, t).generation < SpecOf(db, t).request.maxAttempts.value)
  }

  /** Only the released current attempt of a task can fail, once; a completed task keeps its status and its record. */
  lemma FailureExact(db: Database, cfg: Config, a: Id, generation: nat, kind: FailureKind, now: nat)
    requires a !in db.failures && RecordFailure(db, cfg, a, generation, kind, now).Some?
    ensures var db', t := RecordFailure(db, cfg, a, generation, kind, now).value, TaskOf(db.core, a);
      && a in db.core.reservations && db.core.reservations[a].phase == Released
      && t in db.core.tasks && db.core.tasks[t].assignment == Some(a) && db.core.tasks[t].generation == generation
      && db'.failures == db.failures + {a} && db'.core.tasks.Keys == db.core.tasks.Keys
      && db'.core.reservations == db.core.reservations && db'.core.fences == db.core.fences
      && (forall u :: u in db.core.tasks && u != t ==> db'.core.tasks[u] == db.core.tasks[u])
      && if db.core.tasks[t].status == Completed
         then db'.core.tasks[t] == db.core.tasks[t] && db'.retries == db.retries
         else && t in db'.retries && RetryLaw(db, cfg, a, kind, now, RetryOf(db, t), db'.retries[t])
              && db'.core.tasks[t] == db.core.tasks[t].(
                   status := if MayTryAgain(db, cfg, a, db'.retries[t]) then Queued else NeedsReconciliation)
  {
    hide ShouldDrain, Backoff;
  }

  /** A second report of the same failure changes nothing. */
  lemma FailsOnce(db: Database, cfg: Config, a: Id, generation: nat, kind: FailureKind, now: nat, again: FailureKind,
                  later: nat)
    requires RecordFailure(db, cfg, a, generation, kind, now).Some?
    ensures var db' := RecordFailure(db, cfg, a, generation, kind, now).value;
      RecordFailure(db', cfg, a, generation, again, later) == Some(db')
  {
    hide FailureOutcome;
  }
}
