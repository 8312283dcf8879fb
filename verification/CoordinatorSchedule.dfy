/** Placement and preemption (src/coordinator.rs `schedule`, `request_preemption`). */
module CoordinatorSchedule {
  import opened Options
  import opened Totals
  import opened ResourceVectors
  import opened Listings
  import opened CoordinatorCore
  import opened CoordinatorTables
  import opened CoordinatorRules

  // ---------------------------------------------------------------- preemption

  /** Work that a task of the given priority may displace on this node. */
  predicate Displaceable(db: Database, node: Id, priority: int, a: Id)
  {
    a in db.core.reservations
    && var row := db.core.reservations[a];
    && row.node == node && row.phase != Released && row.phase != Uncertain
    && JobOf(db, TaskOf(db.core, a)).priority < priority
    && TaskRow(db.core, TaskOf(db.core, a)).replaySafe
    && RequestOf(db, a).grade == Opportunistic
  }

  /** Lowest priority first, latest submission first. */
  function Candidates(db: Database, node: Id, priority: int): seq<Id>
  {
    ListBy(map a | a in db.core.reservations && Displaceable(db, node, priority, a)
             :: Row(a, JobOf(db, TaskOf(db.core, a)).priority, -(SpecOf(db, TaskOf(db.core, a)).sequence as int)))
  }

  lemma CandidatesHeld(db: Database, node: Id, priority: int)
    ensures var cands := Candidates(db, node, priority);
      && Distinct(cands)
      && forall a :: a in cands ==> Displaceable(db, node, priority, a) && a in NodeRows(db, node)
  {
  }

  /** How many of the selected victims belong to one pool. */
  function SelectedIn(db: Database, selected: seq<Id>, pool: Id): nat
  {
    |set a | a in selected && PoolOf(db, a) == pool|
  }

  /** The pool of `a` can lose one more worker after `selected`. */
  predicate Spare(db: Database, selected: seq<Id>, a: Id) {
    a in db.core.reservations
    && var pool := PoolOf(db, a);
    Monus(|PoolWorkers(db, pool)|, SelectedIn(db, selected, pool)) > PoolRow(db, pool).minWorkers
  }

  datatype Want = Want(report: NodeReport, request: LaunchRequest, pool: Id)

  /** The selection loop from candidate `i` on; `Some([])` selects nothing, `None` is an overflow. */
  function SelectFrom(db: Database, w: Want, cands: seq<Id>, i: nat, projected: Resources,
                      selected: seq<Id>, frees: bool): Option<seq<Id>>
    requires i <= |cands|
    decreases |cands| - i
  {
    if i == |cands| then Some([]) else
    var a := cands[i];
    if !Spare(db, selected, a) then SelectFrom(db, w, cands, i + 1, projected, selected, frees)
    else
      var projected' := Subtract(projected, RowCharge(db.core.reservations[a]));
      var frees' := frees || PoolOf(db, a) == w.pool;
      var selected' := selected + [a];
      var future := Add(projected', w.request.resources);
      if future.None? then None
      else if frees' && FitsRequested(future.value, w.report.budget, w.request.resources) then Some(selected')
      else SelectFrom(db, w, cands, i + 1, projected', selected', frees')
  }

  /** The victims one blocked task may ask to drain. */
  function Preempt(db: Database, w: Want, t: Id, charge: Resources): Option<seq<Id>>
    requires t in db.core.tasks
  {
    if !GpuRequestAllowed(w.request, w.report)
       || !FitsRequested(w.request.resources, w.report.budget, w.request.resources) then Some([])
    else SelectFrom(db, w, Candidates(db, w.report.node, JobOf(db, t).priority), 0, charge, [],
                    |PoolWorkers(db, w.pool)| < PoolRow(db, w.pool).maxWorkers)
  }

  /** `charge` is exactly what the node's unreleased rows hold, uncertain work included. */
  ghost predicate ChargeExact(db: Database, node: Id, charge: Resources) {
    forall d :: Amount(charge, d) == TotalIn(NodeRows(db, node), d)
  }

  function Without(rows: map<Id, Resources>, gone: seq<Id>): map<Id, Resources> {
    map a | a in rows && a !in gone :: rows[a]
  }

  /** Without `victims` the request fits the reported budget in every scope it uses. */
  ghost predicate FitsWithout(db: Database, w: Want, victims: seq<Id>) {
    forall d :: InScope(w.request.resources, d) ==>
      TotalIn(Without(NodeRows(db, w.report.node), victims), d) + Amount(w.request.resources, d)
      <= Amount(w.report.budget, d)
  }

  /** The loop's flag: the pool had a slot to begin with, or it loses a worker. */
  predicate FreesOne(db: Database, w: Want, victims: seq<Id>) {
    |PoolWorkers(db, w.pool)| < PoolRow(db, w.pool).maxWorkers || SelectedIn(db, victims, w.pool) > 0
  }

  /** Without `victims` the pool really has a slot. */
  predicate LeavesSlot(db: Database, w: Want, victims: seq<Id>) {
    |PoolWorkers(db, w.pool)| - SelectedIn(db, victims, w.pool) < PoolRow(db, w.pool).maxWorkers
  }

  ghost predicate SparesMinimum(db: Database, victims: seq<Id>)
  {
    forall a :: a in victims ==>
      PoolRow(db, PoolOf(db, a)).minWorkers + SelectedIn(db, victims, PoolOf(db, a))
      <= |PoolWorkers(db, PoolOf(db, a))|
  }

  /** Everything the loop would take if it never stopped; no request enters into it. */
  function Accepted(db: Database, cands: seq<Id>): seq<Id> {
    if cands == [] then [] else
    var n := |cands| - 1;
    var before := Accepted(db, cands[..n]);
    if Spare(db, before, cands[n]) then before + [cands[n]] else before
  }

  lemma {:induction false} AcceptedSound(db: Database, cands: seq<Id>)
    requires Distinct(cands)
    ensures var s := Accepted(db, cands); Distinct(s) && SparesMinimum(db, s) && forall a :: a in s ==> a in cands
  {
    hide Spare;
    if cands != [] {
      var n := |cands| - 1;
      AcceptedSound(db, cands[..n]);
      var before := Accepted(db, cands[..n]);
      assert cands[n] !in before;
      if Spare(db, before, cands[n]) {
        SparesOneMore(db, before, cands[n]);
      }
    }
  }

  lemma {:induction false} AcceptedPrefix(db: Database, cands: seq<Id>, i: nat)
    requires i <= |cands|
    ensures var part, all := Accepted(db, cands[..i]), Accepted(db, cands); |part| <= |all| && part == all[..|part|]
  {
    hide Spare;
    if i == |cands| {
      assert cands[..i] == cands;
    } else {
      var n := |cands| - 1;
      AcceptedPrefix(db, cands[..n], i);
      assert cands[..n][..i] == cands[..i];
    }
  }

  /** No shorter selection would have stopped the loop. */
  ghost predicate NotYet(db: Database, w: Want, selected: seq<Id>) {
    forall k :: 0 < k <= |selected| && FreesOne(db, w, selected[..k]) ==> !FitsWithout(db, w, selected[..k])
  }

  /** The shortest nonempty start of `order` that meets the loop's two tests. */
  ghost predicate Shortest(db: Database, w: Want, order: seq<Id>, victims: seq<Id>) {
    && 0 < |victims| <= |order| && victims == order[..|victims|]
    && FreesOne(db, w, victims) && FitsWithout(db, w, victims) && NotYet(db, w, victims[..|victims| - 1])
  }

  /** What the selection loop knows before candidate `i`. */
  ghost predicate Selecting(db: Database, w: Want, cands: seq<Id>, i: nat, projected: Resources,
                            selected: seq<Id>, frees: bool)
  {
    && i <= |cands|
    && selected == Accepted(db, cands[..i])
    && (forall d :: Amount(projected, d) == TotalIn(Without(NodeRows(db, w.report.node), selected), d))
    && (frees <==> FreesOne(db, w, selected))
    && NotYet(db, w, selected)
  }

  lemma AcceptedNext(db: Database, cands: seq<Id>, i: nat)
    requires i < |cands|
    ensures var before := Accepted(db, cands[..i]);
      Accepted(db, cands[..i + 1]) == if Spare(db, before, cands[i]) then before + [cands[i]] else before
  {
    assert cands[..i + 1][..i] == cands[..i];
  }

  lemma SelectStep(db: Database, w: Want, cands: seq<Id>, i: nat, projected: Resources, selected: seq<Id>, frees: bool)
    requires i < |cands| && Distinct(cands)
    requires Selecting(db, w, cands, i, projected, selected, frees)
    requires cands[i] in NodeRows(db, w.report.node) && Spare(db, selected, cands[i])
    ensures var a := cands[i];
      var projected' := Subtract(projected, RowCharge(db.core.reservations[a]));
      && selected + [a] == Accepted(db, cands[..i + 1])
      && (forall d :: Amount(projected', d) == TotalIn(Without(NodeRows(db, w.report.node), selected + [a]), d))
      && (frees || PoolOf(db, a) == w.pool <==> FreesOne(db, w, selected + [a]))
  {
    hide Spare, NotYet;
    var a := cands[i];
    AcceptedNext(db, cands, i);
    AcceptedSound(db, cands[..i]);
    assert a !in selected by { assert a !in cands[..i]; }
    var rows := NodeRows(db, w.report.node);
    forall d ensures TotalIn(Without(rows, selected), d)
                     == TotalIn(Without(rows, selected + [a]), d) + Amount(rows[a], d) {
      WithoutOne(rows, selected, a, d);
    }
    SelectedOneMore(db, selected, a, w.pool);
  }

  lemma WithoutOne(rows: map<Id, Resources>, gone: seq<Id>, a: Id, d: Dim)
    requires a in rows && a !in gone
    ensures TotalIn(Without(rows, gone), d) == TotalIn(Without(rows, gone + [a]), d) + Amount(rows[a], d)
  {
    TotalInRemove(Without(rows, gone), a, d);
    assert Without(rows, gone) - {a} == Without(rows, gone + [a]);
  }

  lemma SelectedOneMore(db: Database, selected: seq<Id>, a: Id, pool: Id)
    requires a !in selected
    ensures SelectedIn(db, selected + [a], pool) == SelectedIn(db, selected, pool) + (if PoolOf(db, a) == pool then 1 else 0)
  {
    hide PoolOf;
    var was := set x | x in selected && PoolOf(db, x) == pool;
    var now := set x | x in selected + [a] && PoolOf(db, x) == pool;
    assert now == if PoolOf(db, a) == pool then was + {a} else was;
  }

  lemma SparesOneMore(db: Database, selected: seq<Id>, a: Id)
    requires a !in selected && SparesMinimum(db, selected) && Spare(db, selected, a)
    ensures SparesMinimum(db, selected + [a])
  {
    forall b | b in selected + [a]
      ensures PoolRow(db, PoolOf(db, b)).minWorkers + SelectedIn(db, selected + [a], PoolOf(db, b))
              <= |PoolWorkers(db, PoolOf(db, b))|
    {
      SelectedOneMore(db, selected, a, PoolOf(db, b));
    }
  }

  /** The loop's budget test is the stated one. */
  lemma ProjectedFits(db: Database, w: Want, projected: Resources, selected: seq<Id>)
    requires forall d :: Amount(projected, d) == TotalIn(Without(NodeRows(db, w.report.node), selected), d)
    requires Add(projected, w.request.resources).Some?
    ensures FitsRequested(Add(projected, w.request.resources).value, w.report.budget, w.request.resources)
            <==> FitsWithout(db, w, selected)
  {
    hide NodeRows, TotalIn;
  }

  lemma NotYetNext(db: Database, w: Want, selected: seq<Id>, a: Id)
    requires NotYet(db, w, selected) && !(FreesOne(db, w, selected + [a]) && FitsWithout(db, w, selected + [a]))
    ensures NotYet(db, w, selected + [a])
  {
    hide FreesOne, FitsWithout;
    var more := selected + [a];
    forall k | 0 < k <= |more| && FreesOne(db, w, more[..k]) ensures !FitsWithout(db, w, more[..k]) {
      assert if k == |more| then more[..k] == more else more[..k] == selected[..k];
    }
  }

  lemma StoppedShortest(db: Database, w: Want, cands: seq<Id>, i: nat, selected: seq<Id>, a: Id)
    requires i < |cands| && NotYet(db, w, selected) && selected + [a] == Accepted(db, cands[..i + 1])
    requires FreesOne(db, w, selected + [a]) && FitsWithout(db, w, selected + [a])
    ensures Shortest(db, w, Accepted(db, cands), selected + [a])
  {
    hide FreesOne, FitsWithout, Accepted;
    AcceptedPrefix(db, cands, i + 1);
    assert (selected + [a])[..|selected|] == selected;
  }

  lemma {:induction false} SelectSound(db: Database, w: Want, cands: seq<Id>, i: nat, projected: Resources,
                                       selected: seq<Id>, frees: bool)
    requires Distinct(cands)
    requires forall a :: a in cands ==> a in NodeRows(db, w.report.node)
    requires Selecting(db, w, cands, i, projected, selected, frees)
    ensures var v := SelectFrom(db, w, cands, i, projected, selected, frees);
            v.Some? && v.value != [] ==> Shortest(db, w, Accepted(db, cands), v.value)
    decreases |cands| - i
  {
    if i < |cands| {
      var a := cands[i];
      assert a in NodeRows(db, w.report.node) && a in db.core.reservations;
      AcceptedNext(db, cands, i);
      hide Accepted, FreesOne, FitsWithout, TotalIn, NodeRows, Spare, Add, Subtract, FitsRequested, Shortest, NotYet, Distinct;
      if !Spare(db, selected, a) {
        SelectSound(db, w, cands, i + 1, projected, selected, frees);
      } else {
        SelectStep(db, w, cands, i, projected, selected, frees);
        var projected' := Subtract(projected, RowCharge(db.core.reservations[a]));
        var frees' := frees || PoolOf(db, a) == w.pool;
        if Add(projected', w.request.resources).Some? {
          ProjectedFits(db, w, projected', selected + [a]);
          if frees' && FitsWithout(db, w, selected + [a]) {
            StoppedShortest(db, w, cands, i, selected, a);
          } else {
            NotYetNext(db, w, selected, a);
            SelectSound(db, w, cands, i + 1, projected', selected + [a], frees');
          }
        }
      }
    }
  }

  lemma PreemptShortest(db: Database, w: Want, t: Id, charge: Resources)
    requires t in db.core.tasks && ChargeExact(db, w.report.node, charge)
    ensures var v := Preempt(db, w, t, charge);
      v.Some? && v.value != [] ==>
        Shortest(db, w, Accepted(db, Candidates(db, w.report.node, JobOf(db, t).priority)), v.value)
  {
    var cands := Candidates(db, w.report.node, JobOf(db, t).priority);
    CandidatesHeld(db, w.report.node, JobOf(db, t).priority);
    hide Candidates;
    assert Without(NodeRows(db, w.report.node), []) == NodeRows(db, w.report.node);
    SelectedNone(db, w.pool);
    SelectSound(db, w, cands, 0, charge, [], |PoolWorkers(db, w.pool)| < PoolRow(db, w.pool).maxWorkers);
  }

  lemma {:induction false} PrefixSpares(db: Database, cands: seq<Id>, k: nat)
    requires Distinct(cands) && k <= |Accepted(db, cands)|
    ensures SparesMinimum(db, Accepted(db, cands)[..k])
  {
    hide SparesMinimum, Spare;
    if k == |Accepted(db, cands)| {
      AcceptedSound(db, cands);
      assert Accepted(db, cands)[..k] == Accepted(db, cands);
    } else {
      var n := |cands| - 1;
      PrefixSpares(db, cands[..n], k);
      assert Accepted(db, cands)[..k] == Accepted(db, cands[..n])[..k];
    }
  }

  /**
   One preemption call is all or nothing: a nonempty answer is a list of strictly lower-priority,
   replay-safe, opportunistic reservations whose removal makes the request fit, no shorter start of the list
   would do, and no victim pool drops below its minimum. A pool that is not over its maximum is left with a
   slot for the request; `SlotExactly` says when an over-full one is.
   */
  lemma PreemptAllOrNothing(db: Database, w: Want, t: Id, charge: Resources)
    requires t in db.core.tasks
    requires ChargeExact(db, w.report.node, charge)
    ensures var v := Preempt(db, w, t, charge);
            v.Some? && v.value != [] ==>
              && Distinct(v.value)
              && (forall a :: a in v.value ==> Displaceable(db, w.report.node, JobOf(db, t).priority, a))
              && FitsWithout(db, w, v.value) && NotYet(db, w, v.value[..|v.value| - 1])
              && (|PoolWorkers(db, w.pool)| <= PoolRow(db, w.pool).maxWorkers ==> LeavesSlot(db, w, v.value))
              && SparesMinimum(db, v.value)
  {
    hide Preempt, Candidates, FitsWithout, NotYet, SparesMinimum, Displaceable, PoolWorkers, SelectedIn, Accepted, NodeRows;
    var v := Preempt(db, w, t, charge);
    PreemptShortest(db, w, t, charge);
    if v.Some? && v.value != [] {
      var cands := Candidates(db, w.report.node, JobOf(db, t).priority);
      CandidatesHeld(db, w.report.node, JobOf(db, t).priority);
      AcceptedSound(db, cands);
      PrefixSpares(db, cands, |v.value|);
    }
  }

  /**
   Nothing is asked of anybody only when nothing helps: the node could not run the request even empty, or taking
   everybody the loop may take would still not make room for it and a place in its pool.
   */
  lemma PreemptGivesUp(db: Database, w: Want, t: Id, charge: Resources)
    requires t in db.core.tasks && ChargeExact(db, w.report.node, charge) && Preempt(db, w, t, charge) == Some([])
    ensures
      || !GpuRequestAllowed(w.request, w.report)
      || (exists d :: InScope(w.request.resources, d) && Amount(w.request.resources, d) > Amount(w.report.budget, d))
      || var all := Accepted(db, Candidates(db, w.report.node, JobOf(db, t).priority));
         all == [] || !FreesOne(db, w, all) || !FitsWithout(db, w, all)
  {
    var cands := Candidates(db, w.report.node, JobOf(db, t).priority);
    CandidatesHeld(db, w.report.node, JobOf(db, t).priority);
    hide Candidates;
    assert Without(NodeRows(db, w.report.node), []) == NodeRows(db, w.report.node);
    SelectedNone(db, w.pool);
    var frees := |PoolWorkers(db, w.pool)| < PoolRow(db, w.pool).maxWorkers;
    SelectGivesUp(db, w, cands, 0, charge, [], frees);
    hide FreesOne, FitsWithout, Accepted, SelectFrom, GpuRequestAllowed;
    var all := Accepted(db, cands);
    assert all[..|all|] == all;
  }

  lemma {:induction false} SelectGivesUp(db: Database, w: Want, cands: seq<Id>, i: nat, projected: Resources,
                                         selected: seq<Id>, frees: bool)
    requires Distinct(cands)
    requires forall a :: a in cands ==> a in NodeRows(db, w.report.node)
    requires Selecting(db, w, cands, i, projected, selected, frees)
    ensures SelectFrom(db, w, cands, i, projected, selected, frees) == Some([]) ==> NotYet(db, w, Accepted(db, cands))
    decreases |cands| - i
  {
    if i == |cands| {
      assert cands[..i] == cands;
    } else {
      var a := cands[i];
      assert a in NodeRows(db, w.report.node) && a in db.core.reservations;
      AcceptedNext(db, cands, i);
      hide Accepted, FreesOne, FitsWithout, TotalIn, NodeRows, Spare, Add, Subtract, FitsRequested, NotYet, Distinct;
      if !Spare(db, selected, a) {
        SelectGivesUp(db, w, cands, i + 1, projected, selected, frees);
      } else {
        SelectStep(db, w, cands, i, projected, selected, frees);
        var projected' := Subtract(projected, RowCharge(db.core.reservations[a]));
        var frees' := frees || PoolOf(db, a) == w.pool;
        if Add(projected', w.request.resources).Some? {
          ProjectedFits(db, w, projected', selected + [a]);
          if !(frees' && FitsWithout(db, w, selected + [a])) {
            NotYetNext(db, w, selected, a);
            SelectGivesUp(db, w, cands, i + 1, projected', selected + [a], frees');
          }
        }
      }
    }
  }

  /** The longest start of `order` with at most `limit` members of one pool. */
  function UpTo(db: Database, order: seq<Id>, pool: Id, limit: nat): seq<Id> {
    if order == [] || SelectedIn(db, order, pool) <= limit then order else UpTo(db, order[..|order| - 1], pool, limit)
  }

  lemma SelectedNone(db: Database, pool: Id)
    ensures SelectedIn(db, [], pool) == 0
  {
    assert (set a: Id | a in [] && PoolOf(db, a) == pool) == {};
  }

  lemma {:induction false} UpToLongest(db: Database, order: seq<Id>, pool: Id, limit: nat)
    ensures var part := UpTo(db, order, pool, limit);
      && |part| <= |order| && part == order[..|part|] && SelectedIn(db, part, pool) <= limit
      && (|part| < |order| ==> SelectedIn(db, order[..|part| + 1], pool) > limit)
  {
    hide SelectedIn;
    SelectedNone(db, pool);
    if order != [] && SelectedIn(db, order, pool) > limit {
      var n := |order| - 1;
      UpToLongest(db, order[..n], pool, limit);
      var part := UpTo(db, order, pool, limit);
      if |part| == n {
        assert order[..n + 1] == order;
      } else {
        assert order[..n][..|part| + 1] == order[..|part| + 1];
      }
      assert order[..n][..|part|] == order[..|part|];
    }
  }

  lemma SelectedMore(db: Database, less: seq<Id>, more: seq<Id>, pool: Id)
    requires forall a :: a in less ==> a in more
    ensures SelectedIn(db, less, pool) <= SelectedIn(db, more, pool)
  {
    Fewer(set a | a in less && PoolOf(db, a) == pool, set a | a in more && PoolOf(db, a) == pool);
  }

  lemma Fewer(less: set<Id>, more: set<Id>)
    requires less <= more
    ensures |less| <= |more|
  {
    assert more == less + (more - less);
  }

  lemma FitsMore(db: Database, w: Want, less: seq<Id>, more: seq<Id>)
    requires FitsWithout(db, w, less) && forall a :: a in less ==> a in more
    ensures FitsWithout(db, w, more)
  {
    var rows := NodeRows(db, w.report.node);
    forall d | InScope(w.request.resources, d)
      ensures TotalIn(Without(rows, more), d) + Amount(w.request.resources, d) <= Amount(w.report.budget, d)
    {
      TotalInSubset(Without(rows, more), Without(rows, less), d);
    }
  }

  /** The most that can be taken, in the loop's order, while the pool is still at its maximum or above. */
  function BeforeSlot(db: Database, w: Want, priority: int): seq<Id> {
    UpTo(db, Accepted(db, Candidates(db, w.report.node, priority)), w.pool,
         Monus(|PoolWorkers(db, w.pool)|, PoolRow(db, w.pool).maxWorkers))
  }

  /**
   When an answer leaves the blocked task's pool a slot, exactly: the pool is not over its maximum, or the
   request does not fit yet once everything up to that slot is taken. The loop's flag is set by the first
   victim of the pool, so an over-full pool can be asked to give up too few.
   */
  lemma SlotExactly(db: Database, w: Want, t: Id, charge: Resources)
    requires t in db.core.tasks && ChargeExact(db, w.report.node, charge)
    requires Preempt(db, w, t, charge).Some? && Preempt(db, w, t, charge).value != []
    ensures LeavesSlot(db, w, Preempt(db, w, t, charge).value)
      <==> |PoolWorkers(db, w.pool)| <= PoolRow(db, w.pool).maxWorkers
           || !FitsWithout(db, w, BeforeSlot(db, w, JobOf(db, t).priority))
  {
    PreemptShortest(db, w, t, charge);
    var order := Accepted(db, Candidates(db, w.report.node, JobOf(db, t).priority));
    ShortestSlot(db, w, order, Preempt(db, w, t, charge).value);
  }

  lemma ShortestSlot(db: Database, w: Want, order: seq<Id>, v: seq<Id>)
    requires Shortest(db, w, order, v)
    ensures var over := Monus(|PoolWorkers(db, w.pool)|, PoolRow(db, w.pool).maxWorkers);
      LeavesSlot(db, w, v) <==> over == 0 || !FitsWithout(db, w, UpTo(db, order, w.pool, over))
  {
    var over := Monus(|PoolWorkers(db, w.pool)|, PoolRow(db, w.pool).maxWorkers);
    var part := UpTo(db, order, w.pool, over);
    UpToLongest(db, order, w.pool, over);
    hide FitsWithout, SelectedIn, UpTo, PoolWorkers, NotYet;
    if over > 0 && |v| <= |part| {
      assert v == part[..|v|];
      SelectedMore(db, v, part, w.pool);
      FitsMore(db, w, v, part);
    } else if over > 0 {
      TestedBefore(db, w, order, v, |part|, over);
    }
  }

  /** A selection past the slot's threshold was tested at the threshold, and did not fit there. */
  lemma TestedBefore(db: Database, w: Want, order: seq<Id>, v: seq<Id>, n: nat, over: nat)
    requires n < |v| <= |order| && v == order[..|v|] && NotYet(db, w, v[..|v| - 1])
    requires over > 0 && SelectedIn(db, order[..n + 1], w.pool) > over
    ensures SelectedIn(db, v, w.pool) > over && !FitsWithout(db, w, order[..n])
  {
    assert order[..n + 1] == v[..n + 1] && order[..n] == v[..|v| - 1][..n];
    hide FitsWithout, PoolWorkers;
    SelectedMore(db, order[..n + 1], v, w.pool);
    PartFrees(db, order, w.pool, n, over);
  }

  /** The prefix just before the slot already holds a member of the pool, so the loop tested it. */
  lemma PartFrees(db: Database, order: seq<Id>, pool: Id, n: nat, over: nat)
    requires n < |order| && over > 0 && SelectedIn(db, order[..n + 1], pool) > over
    ensures n > 0 && SelectedIn(db, order[..n], pool) > 0
  {
    var now := set a | a in order[..n + 1] && PoolOf(db, a) == pool;
    var was := set a | a in order[..n] && PoolOf(db, a) == pool;
    assert order[..n + 1] == order[..n] + [order[n]];
    Fewer(now, was + {order[n]});
    assert |was + {order[n]}| <= |was| + 1;
    assert n == 0 ==> was == {};
  }

  // ---------------------------------------------------------------- one scheduling pass

  predicate Waiting(db: Database, t: Id)
  {
    t in db.core.tasks && db.core.tasks[t].status == Queued && !JobOf(db, t).cancelled && t !in db.holds
  }

  /** Highest priority first, earliest submission first. */
  function Queue(db: Database): seq<Id>
  {
    ListBy(map t | t in db.core.tasks && Waiting(db, t) :: Row(t, -JobOf(db, t).priority, SpecOf(db, t).sequence))
  }

  datatype Pass = Pass(db: Database, charge: Resources, slots: nat)

  /** Whether this pass even looks at placing `t` on the reporting node. */
  predicate Eligible(db: Database, report: NodeReport, now: nat, t: Id)
    requires t in db.core.tasks
  {
    var request := SpecOf(db, t).request;
    var pool := PoolRow(db, JobOf(db, t).pool);
    now >= RetryOf(db, t).notBefore && report.node in pool.nodes && pool.maxWorkers > 0
    && ReplayRequestAllowed(db, report.node, request)
  }

  predicate Exhausted(db: Database, t: Id)
    requires t in db.core.tasks
  {
    var limit := SpecOf(db, t).request.maxAttempts;
    limit.Some? && TaskRow(db.core, t).generation >= limit.value
  }

  /** The three rows one offer writes. */
  function Offer(db: Database, cfg: Config, report: NodeReport, now: nat, t: Id, a: Id): Database
    requires t in db.core.tasks
  {
    db.(core := OfferCore(db.core, t, a, Reservation(report.node, Offered, SpecOf(db, t).request.resources, None, 0,
                                                     SatAdd(now, cfg.leaseMs), db.epoch)))
  }

  /** What one iteration of the scheduling loop does with a waiting task. */
  datatype Verdict =
    | Skip                          // not placeable here and now
    | Exhaust                       // its attempt budget is spent
    | Ask(victims: seq<Id>)         // blocked: ask these to drain (possibly none)
    | Place(next: Resources)        // offer it; the node's charge becomes `next`
    | Overflow                      // checked arithmetic failed: the transaction rolls back

  function Judge(p: Pass, report: NodeReport, now: nat, t: Id): Verdict
    requires t in p.db.core.tasks
  {
    var db := p.db;
    var request := SpecOf(db, t).request;
    var pool := JobOf(db, t).pool;
    if !Eligible(db, report, now, t) then Skip
    else if Exhausted(db, t) then Exhaust
    else if !GpuRequestAllowed(request, report) || !(request.controls <= report.controls) || Held(db.core, t) != {}
    then Skip
    else
      var next := Add(p.charge, request.resources);
      if next.None? then Overflow
      else if p.slots == 0 || |PoolWorkers(db, pool)| >= PoolRow(db, pool).maxWorkers
              || !FitsRequested(next.value, report.budget, request.resources) then
        var victims := Preempt(db, Want(report, request, pool), t, p.charge);
        if victims.None? then Overflow else Ask(victims.value)
      else Place(next.value)
  }

  /** An offer inserts both rows, so either primary key can refuse the identifier. */
  predicate Taken(db: Database, a: Id) {
    a in db.core.assignments || a in db.core.reservations
  }

  /** Carries a verdict out; `a` is the UUID drawn for an offer, and a collision is a key violation. */
  function Enact(p: Pass, cfg: Config, report: NodeReport, now: nat, t: Id, a: Id, v: Verdict): Option<Pass>
    requires t in p.db.core.tasks
    requires v.Place? ==> p.slots > 0
  {
    match v
    case Skip => Some(p)
    case Exhaust => Some(p.(db := p.db.(core := SetStatus(p.db.core, t, NeedsReconciliation))))
    case Ask(victims) => Some(p.(db := p.db.(drains := p.db.drains + (set x | x in victims))))
    case Place(next) =>
      if Taken(p.db, a) then None
      else Some(Pass(Offer(p.db, cfg, report, now, t, a), next, p.slots - 1))
    case Overflow => None
  }

  function Consider(p: Pass, cfg: Config, report: NodeReport, now: nat, t: Id, a: Id): Option<Pass>
    requires t in p.db.core.tasks
  {
    Enact(p, cfg, report, now, t, a, Judge(p, report, now, t))
  }

  /** What every iteration keeps, so that the loop's tables stay consistent. */
  ghost predicate PassFrame(db: Database, db': Database)
  {
    && db' == db.(core := db'.core, drains := db'.drains) && db'.core.fences == db.core.fences
    && db'.core.tasks.Keys == db.core.tasks.Keys
    && db.core.reservations.Keys <= db'.core.reservations.Keys
    && (forall a :: a in db.core.reservations ==> db'.core.reservations[a] == db.core.reservations[a])
    && (forall a :: a in db.core.reservations ==> AttemptOf(db'.core, a) == AttemptOf(db.core, a))
  }

  lemma OfferFrame(db: Database, cfg: Config, report: NodeReport, now: nat, t: Id, a: Id)
    requires t in db.core.tasks && report.node in db.nodes && !Taken(db, a)
    ensures PassFrame(db, Offer(db, cfg, report, now, t, a))
  {
  }

  lemma ConsiderFrame(p: Pass, cfg: Config, report: NodeReport, now: nat, t: Id, a: Id)
    requires t in p.db.core.tasks && report.node in p.db.nodes
    requires Consider(p, cfg, report, now, t, a).Some?
    ensures var q := Consider(p, cfg, report, now, t, a).value;
      PassFrame(p.db, q.db) && forall u :: u in p.db.core.tasks && u != t ==> q.db.core.tasks[u] == p.db.core.tasks[u]
  {
    var v := Judge(p, report, now, t);
    EnactFrame(p, cfg, report, now, t, a, v);
  }

  lemma EnactFrame(p: Pass, cfg: Config, report: NodeReport, now: nat, t: Id, a: Id, v: Verdict)
    requires t in p.db.core.tasks && report.node in p.db.nodes
    requires v.Place? ==> p.slots > 0
    requires Enact(p, cfg, report, now, t, a, v).Some?
    ensures var q := Enact(p, cfg, report, now, t, a, v).value;
      PassFrame(p.db, q.db) && forall u :: u in p.db.core.tasks && u != t ==> q.db.core.tasks[u] == p.db.core.tasks[u]
  {
    if v.Place? {
      OfferFrame(p.db, cfg, report, now, t, a);
    }
  }

  lemma PassFrameTransitive(a: Database, b: Database, c: Database)
    requires PassFrame(a, b) && PassFrame(b, c)
    ensures PassFrame(a, c)
  {
  }

  /** `None` once a step failed; the sequence of iterations over `queue`. */
  function ConsiderAll(p: Pass, cfg: Config, report: NodeReport, now: nat, queue: seq<Id>, uuid: Id -> Id)
    : (r: Option<Pass>)
    requires report.node in p.db.nodes
    requires forall t :: t in queue ==> t in p.db.core.tasks
    ensures r.Some? ==> PassFrame(p.db, r.value.db)
  {
    if queue == [] then Some(p) else
    var n := |queue| - 1;
    var before := ConsiderAll(p, cfg, report, now, queue[..n], uuid);
    if before.None? then None else
    assert queue[n] in queue;
    var after := Consider(before.value, cfg, report, now, queue[n], uuid(queue[n]));
    assert after.Some? ==> PassFrame(p.db, after.value.db) by {
      if after.Some? {
        ConsiderFrame(before.value, cfg, report, now, queue[n], uuid(queue[n]));
        PassFrameTransitive(p.db, before.value.db, after.value.db);
      }
    }
    after
  }

  function Unstarted(db: Database, node: Id): set<Id> {
    set a | a in db.core.reservations && db.core.reservations[a].node == node && db.core.reservations[a].phase == Offered
  }

  function FreeSlots(db: Database, report: NodeReport): nat {
    Monus(report.launchSlots, |Unstarted(db, report.node)|)
  }

  /** The scheduling transaction for one fresh heartbeat. */
  function Schedule(db: Database, cfg: Config, report: NodeReport, now: nat, uuid: Id -> Id): Option<Database>
    requires report.node in db.nodes
  {
    if db.nodes[report.node].drain || !ReplayNodeCanAdmit(db, report.node) then Some(db) else
    var charge := NodeCharge(db, report.node);
    if charge.None? then None else
    var p := ConsiderAll(Pass(db, charge.value, FreeSlots(db, report)), cfg, report, now, Queue(db), uuid);
    if p.None? then None else Some(p.value.db)
  }

  // ---------------------------------------------------------------- what a pass guarantees

  /** The offers made since `start`. */
  function Offers(start: Database, db: Database): set<Id> {
    db.core.reservations.Keys - start.core.reservations.Keys
  }

  /**
   Charges are exact, every scope an offer uses fits the reported budget with all retained work counted,
   offers are paid for with launch slots, and pools that received one are within their maximum.
   */
  ghost predicate PassInvariant(start: Database, slots: nat, report: NodeReport, p: Pass)
  {
    && PassFrame(start, p.db)
    && ChargeExact(p.db, report.node, p.charge)
    && |Offers(start, p.db)| + p.slots == slots
    && OffersFit(start, p.db, report)
    && OffersWithinPools(start, p.db)
  }

  ghost predicate OffersFit(start: Database, db: Database, report: NodeReport) {
    forall a, d :: a in Offers(start, db) && InScope(db.core.reservations[a].resources, d) ==>
      TotalIn(NodeRows(db, report.node), d) <= Amount(report.budget, d)
  }

  ghost predicate OffersWithinPools(start: Database, db: Database)
  {
    forall a :: a in Offers(start, db) ==>
      |PoolWorkers(db, PoolOf(db, a))| <= PoolRow(db, PoolOf(db, a)).maxWorkers
  }

  lemma JudgedPlace(p: Pass, report: NodeReport, now: nat, t: Id)
    requires t in p.db.core.tasks && Judge(p, report, now, t).Place?
    ensures var next := Judge(p, report, now, t).next;
      && p.slots > 0 && Held(p.db.core, t) == {}
      && Add(p.charge, SpecOf(p.db, t).request.resources) == Some(next)
      && FitsRequested(next, report.budget, SpecOf(p.db, t).request.resources)
      && |PoolWorkers(p.db, JobOf(p.db, t).pool)| < PoolRow(p.db, JobOf(p.db, t).pool).maxWorkers
  {
  }

  lemma ConsiderKeeps(start: Database, slots: nat, p: Pass, cfg: Config, report: NodeReport, now: nat, t: Id, a: Id)
    requires PassInvariant(start, slots, report, p)
    requires t in p.db.core.tasks && report.node in p.db.nodes
    requires Consider(p, cfg, report, now, t, a).Some?
    ensures PassInvariant(start, slots, report, Consider(p, cfg, report, now, t, a).value)
  {
    var v := Judge(p, report, now, t);
    if v.Place? {
      JudgedPlace(p, report, now, t);
    }
    EnactKeeps(start, slots, p, cfg, report, now, t, a, v);
  }

  lemma EnactKeeps(start: Database, slots: nat, p: Pass, cfg: Config, report: NodeReport, now: nat, t: Id, a: Id,
                   v: Verdict)
    requires PassInvariant(start, slots, report, p)
    requires t in p.db.core.tasks && report.node in p.db.nodes
    requires v.Place? ==>
      && p.slots > 0
      && Add(p.charge, SpecOf(p.db, t).request.resources) == Some(v.next)
      && FitsRequested(v.next, report.budget, SpecOf(p.db, t).request.resources)
      && |PoolWorkers(p.db, JobOf(p.db, t).pool)| < PoolRow(p.db, JobOf(p.db, t).pool).maxWorkers
    requires Enact(p, cfg, report, now, t, a, v).Some?
    ensures PassInvariant(start, slots, report, Enact(p, cfg, report, now, t, a, v).value)
  {
    var q := Enact(p, cfg, report, now, t, a, v).value;
    EnactFrame(p, cfg, report, now, t, a, v);
    PassFrameTransitive(start, p.db, q.db);
    EnactShape(p, cfg, report, now, t, a, v);
    hide PassFrame, OffersFit, OffersWithinPools, ChargeExact, Offer, Offers, FitsRequested, Enact;
    if v.Place? {
      PlaceKeeps(start, slots, p, cfg, report, now, t, a, v.next);
    } else {
      StayKeeps(start, slots, p, q, report);
    }
  }

  lemma EnactShape(p: Pass, cfg: Config, report: NodeReport, now: nat, t: Id, a: Id, v: Verdict)
    requires t in p.db.core.tasks && (v.Place? ==> p.slots > 0) && Enact(p, cfg, report, now, t, a, v).Some?
    ensures var q := Enact(p, cfg, report, now, t, a, v).value;
      if v.Place? then !Taken(p.db, a) && q == Pass(Offer(p.db, cfg, report, now, t, a), v.next, p.slots - 1)
      else q.db.core.reservations == p.db.core.reservations && q.db.core.assignments == p.db.core.assignments
           && q.charge == p.charge && q.slots == p.slots
  {
  }

  lemma StayKeeps(start: Database, slots: nat, p: Pass, q: Pass, report: NodeReport)
    requires PassInvariant(start, slots, report, p) && PassFrame(start, q.db) && PassFrame(p.db, q.db)
    requires q.db.core.reservations == p.db.core.reservations && q.db.core.assignments == p.db.core.assignments
    requires q.charge == p.charge && q.slots == p.slots
    ensures PassInvariant(start, slots, report, q)
  {
    UnchangedRows(start, p.db, q.db, report);
    hide PassFrame, OffersFit, OffersWithinPools;
  }

  lemma PlaceKeeps(start: Database, slots: nat, p: Pass, cfg: Config, report: NodeReport, now: nat, t: Id, a: Id,
                   next: Resources)
    requires PassInvariant(start, slots, report, p) && t in p.db.core.tasks && report.node in p.db.nodes
    requires p.slots > 0 && !Taken(p.db, a)
    requires Add(p.charge, SpecOf(p.db, t).request.resources) == Some(next)
    requires FitsRequested(next, report.budget, SpecOf(p.db, t).request.resources)
    requires |PoolWorkers(p.db, JobOf(p.db, t).pool)| < PoolRow(p.db, JobOf(p.db, t).pool).maxWorkers
    requires PassFrame(start, Offer(p.db, cfg, report, now, t, a))
    ensures PassInvariant(start, slots, report, Pass(Offer(p.db, cfg, report, now, t, a), next, p.slots - 1))
  {
    OffersAfter(start, p.db, cfg, report, now, t, a);
    PlaceFits(start, p, cfg, report, now, t, a, next);
    PlaceWithin(start, p.db, cfg, report, now, t, a);
    hide Offer, PassFrame, ChargeExact, OffersFit, OffersWithinPools;
  }

  lemma OffersAfter(start: Database, db: Database, cfg: Config, report: NodeReport, now: nat, t: Id, a: Id)
    requires t in db.core.tasks && !Taken(db, a) && start.core.reservations.Keys <= db.core.reservations.Keys
    ensures |Offers(start, Offer(db, cfg, report, now, t, a))| == |Offers(start, db)| + 1
  {
    NewKeys(db.core.reservations, start.core.reservations.Keys, a, Offer(db, cfg, report, now, t, a).core.reservations[a]);
  }

  lemma NewKeys<V>(m: map<Id, V>, earlier: set<Id>, a: Id, v: V)
    requires a !in m && earlier <= m.Keys
    ensures |m[a := v].Keys - earlier| == |m.Keys - earlier| + 1
  {
    assert m[a := v].Keys - earlier == (m.Keys - earlier) + {a};
  }

  lemma PlaceFits(start: Database, p: Pass, cfg: Config, report: NodeReport, now: nat, t: Id, a: Id, next: Resources)
    requires PassFrame(start, p.db)
    requires OffersFit(start, p.db, report) && ChargeExact(p.db, report.node, p.charge)
    requires t in p.db.core.tasks && !Taken(p.db, a)
    requires Add(p.charge, SpecOf(p.db, t).request.resources) == Some(next)
    requires FitsRequested(next, report.budget, SpecOf(p.db, t).request.resources)
    ensures ChargeExact(Offer(p.db, cfg, report, now, t, a), report.node, next)
    ensures OffersFit(start, Offer(p.db, cfg, report, now, t, a), report)
  {
    var db' := Offer(p.db, cfg, report, now, t, a);
    OfferCharge(p.db, cfg, report, now, t, a);
    assert Offers(start, db') == Offers(start, p.db) + {a};
    OfferFits(start, p.db, db', report, SpecOf(p.db, t).request.resources, a);
  }

  lemma SameWorkers(db: Database, db': Database, pool: Id)
    requires db'.core.reservations == db.core.reservations && db'.core.assignments == db.core.assignments
    requires db'.specs == db.specs && db'.jobs == db.jobs
    ensures PoolWorkers(db', pool) == PoolWorkers(db, pool)
  {
    forall b ensures b in PoolWorkers(db', pool) <==> b in PoolWorkers(db, pool) {
      assert PoolOf(db', b) == PoolOf(db, b);
    }
  }

  lemma UnchangedRows(start: Database, db: Database, db': Database, report: NodeReport)
    requires PassFrame(db, db')
    requires db'.core.reservations == db.core.reservations && db'.core.assignments == db.core.assignments
    ensures NodeRows(db', report.node) == NodeRows(db, report.node)
    ensures OffersFit(start, db, report) ==> OffersFit(start, db', report)
    ensures OffersWithinPools(start, db) ==> OffersWithinPools(start, db')
  {
    if OffersWithinPools(start, db) {
      forall a | a in Offers(start, db')
        ensures |PoolWorkers(db', PoolOf(db', a))| <= PoolRow(db', PoolOf(db', a)).maxWorkers
      {
        SameWorkers(db, db', PoolOf(db, a));
      }
    }
  }

  lemma OfferCharge(db: Database, cfg: Config, report: NodeReport, now: nat, t: Id, a: Id)
    requires t in db.core.tasks && !Taken(db, a)
    ensures var db' := Offer(db, cfg, report, now, t, a);
      forall d :: TotalIn(NodeRows(db', report.node), d)
                  == TotalIn(NodeRows(db, report.node), d) + Amount(SpecOf(db, t).request.resources, d)
  {
    var db' := Offer(db, cfg, report, now, t, a);
    var rows, r := NodeRows(db, report.node), SpecOf(db, t).request.resources;
    assert NodeRows(db', report.node) == rows[a := r];
    forall d ensures TotalIn(rows[a := r], d) == TotalIn(rows, d) + Amount(r, d) {
      TotalInInsert(rows, a, r, d);
    }
  }

  lemma PoolAfterOffer(db: Database, cfg: Config, report: NodeReport, now: nat, t: Id, a: Id, pool: Id)
    requires t in db.core.tasks && !Taken(db, a)
    ensures var db' := Offer(db, cfg, report, now, t, a);
      PoolWorkers(db', pool)
      == if pool == JobOf(db, t).pool then PoolWorkers(db, pool) + {a} else PoolWorkers(db, pool)
  {
    var db' := Offer(db, cfg, report, now, t, a);
    var now, was := PoolWorkers(db', pool), PoolWorkers(db, pool);
    forall b ensures b in now <==> b in was || (b == a && pool == JobOf(db, t).pool) {
      assert b != a ==> AttemptOf(db'.core, b) == AttemptOf(db.core, b);
    }
  }

  lemma PlaceWithin(start: Database, db: Database, cfg: Config, report: NodeReport, now: nat, t: Id, a: Id)
    requires OffersWithinPools(start, db) && t in db.core.tasks && !Taken(db, a)
    requires |PoolWorkers(db, JobOf(db, t).pool)| < PoolRow(db, JobOf(db, t).pool).maxWorkers
    ensures OffersWithinPools(start, Offer(db, cfg, report, now, t, a))
  {
    var db' := Offer(db, cfg, report, now, t, a);
    forall b | b in Offers(start, db')
      ensures |PoolWorkers(db', PoolOf(db', b))| <= PoolRow(db', PoolOf(db', b)).maxWorkers
    {
      var pool := PoolOf(db', b);
      PoolAfterOffer(db, cfg, report, now, t, a, pool);
      if pool != JobOf(db, t).pool {
        assert b != a && AttemptOf(db'.core, b) == AttemptOf(db.core, b);
        assert b in Offers(start, db) && PoolOf(db, b) == pool;
      }
    }
  }

  lemma OfferFits(start: Database, db: Database, db': Database, report: NodeReport, request: Resources, a: Id)
    requires OffersFit(start, db, report)
    requires Offers(start, db') == Offers(start, db) + {a} && a in db'.core.reservations
    requires db'.core.reservations[a].resources == request
    requires forall b :: b in Offers(start, db) ==>
               b in db'.core.reservations && db'.core.reservations[b] == db.core.reservations[b]
    requires forall d :: TotalIn(NodeRows(db', report.node), d)
                         == TotalIn(NodeRows(db, report.node), d) + Amount(request, d)
    requires forall d :: InScope(request, d) ==> TotalIn(NodeRows(db', report.node), d) <= Amount(report.budget, d)
    ensures OffersFit(start, db', report)
  {
    forall b, d | b in Offers(start, db') && InScope(db'.core.reservations[b].resources, d)
      ensures TotalIn(NodeRows(db', report.node), d) <= Amount(report.budget, d)
    {
      if !InScope(request, d) {
        assert b in Offers(start, db) && Amount(request, d) == 0;
      }
    }
  }

  lemma {:induction false} PassKeeps(start: Database, slots: nat, p: Pass, cfg: Config, report: NodeReport,
                                     now: nat, queue: seq<Id>, uuid: Id -> Id)
    requires PassInvariant(start, slots, report, p) && report.node in p.db.nodes
    requires forall t :: t in queue ==> t in p.db.core.tasks
    requires ConsiderAll(p, cfg, report, now, queue, uuid).Some?
    ensures PassInvariant(start, slots, report, ConsiderAll(p, cfg, report, now, queue, uuid).value)
  {
    if queue != [] {
      var n := |queue| - 1;
      PassKeeps(start, slots, p, cfg, report, now, queue[..n], uuid);
      assert queue[n] in queue;
      ConsiderKeeps(start, slots, ConsiderAll(p, cfg, report, now, queue[..n], uuid).value, cfg, report, now,
                    queue[n], uuid(queue[n]));
    }
  }

  /** The victims one blocked task asks for inside a pass are judged against the exact charge of that moment. */
  lemma AskedVictims(start: Database, slots: nat, p: Pass, report: NodeReport, now: nat, t: Id)
    requires PassInvariant(start, slots, report, p) && t in p.db.core.tasks
    requires Judge(p, report, now, t).Ask? && Judge(p, report, now, t).victims != []
    ensures var victims := Judge(p, report, now, t).victims;
      var w := Want(report, SpecOf(p.db, t).request, JobOf(p.db, t).pool);
      && Distinct(victims) && FitsWithout(p.db, w, victims) && NotYet(p.db, w, victims[..|victims| - 1])
      && SparesMinimum(p.db, victims)
      && (LeavesSlot(p.db, w, victims)
          <==> |PoolWorkers(p.db, w.pool)| <= PoolRow(p.db, w.pool).maxWorkers
               || !FitsWithout(p.db, w, BeforeSlot(p.db, w, JobOf(p.db, t).priority)))
      && forall a :: a in victims ==> Displaceable(p.db, report.node, JobOf(p.db, t).priority, a)
  {
    hide Judge, FitsWithout, NotYet, LeavesSlot, BeforeSlot, SparesMinimum, Displaceable, Preempt;
    JudgedAsk(p, report, now, t);
    var w := Want(report, SpecOf(p.db, t).request, JobOf(p.db, t).pool);
    PreemptAllOrNothing(p.db, w, t, p.charge);
    SlotExactly(p.db, w, t, p.charge);
  }

  lemma JudgedAsk(p: Pass, report: NodeReport, now: nat, t: Id)
    requires t in p.db.core.tasks && Judge(p, report, now, t).Ask?
    ensures Preempt(p.db, Want(report, SpecOf(p.db, t).request, JobOf(p.db, t).pool), t, p.charge)
            == Some(Judge(p, report, now, t).victims)
  {
    hide Preempt, Add, FitsRequested, PoolWorkers, Held;
  }

  lemma NodeChargeExact(db: Database, node: Id)
    requires NodeCharge(db, node).Some?
    ensures ChargeExact(db, node, NodeCharge(db, node).value)
  {
    var rows, order, list := NodeRows(db, node), NodeOrder(db, node), NodeList(db, node);
    forall d ensures Amount(NodeCharge(db, node).value, d) == TotalIn(rows, d) {
      SumInOfListing(rows, order, list, d);
    }
  }

  /**
   After a scheduling pass that makes offers, the node's whole charge fits the reported budget in CPU,
   RAM and every GPU those offers name; offers never exceed the free launch slots; and every pool that
   received one is within `max_workers`.
   */
  lemma ScheduleFits(db: Database, cfg: Config, report: NodeReport, now: nat, uuid: Id -> Id)
    requires report.node in db.nodes
    requires Schedule(db, cfg, report, now, uuid).Some?
    ensures var db' := Schedule(db, cfg, report, now, uuid).value;
      && PassFrame(db, db')
      && |Offers(db, db')| <= FreeSlots(db, report)
      && OffersFit(db, db', report)
      && OffersWithinPools(db, db')
  {
    if !db.nodes[report.node].drain && ReplayNodeCanAdmit(db, report.node) {
      NodeChargeExact(db, report.node);
      var p := Pass(db, NodeCharge(db, report.node).value, FreeSlots(db, report));
      assert Offers(db, db) == {};
      PassKeeps(db, FreeSlots(db, report), p, cfg, report, now, Queue(db), uuid);
    } else {
      assert Offers(db, db) == {};
    }
  }
}
