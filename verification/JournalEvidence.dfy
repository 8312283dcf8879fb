/** What stands behind every phase the journal records (src/execution_state.rs, src/managed_children.rs). */
module JournalEvidence {
  import opened Options
  import opened ResourceVectors
  import opened Journal

  // ---------------------------------------------------------------- the order of phases

  function Step(phase: Phase): nat {
    match phase
    case Reserved => 0
    case Prepared => 1
    case Authorized => 2
    case Running => 3
    case Draining => 4
    case NeedsReconciliation => 5
    case Released => 6
  }

  /** Phases only go forward, and nothing runs that was not authorized, nor is authorized that was not prepared. */
  lemma PhasesAdvance(before: Phase, after: Phase)
    ensures ValidTransition(before, after) <==>
      && (Step(before) < Step(after) || (before == after && Step(before) >= 5))
      && (after == Prepared ==> before == Reserved)
      && (after == Authorized ==> before == Prepared)
      && (after == Running ==> before == Authorized)
      && (after == Draining ==> before == Authorized || before == Running)
  {
  }

  // ---------------------------------------------------------------- what every recorded phase proves

  /** Prepared work is a known process under a known backend, and authorized work has every control it asked for. */
  ghost predicate RecordCertified(e: Execution, a: Id) {
    && (e.record.phase in {Prepared, Authorized, Running} ==>
          && e.record.backend.Some? && e.record.identity.Some?
          && e.record.identity.value.assignment == a && e.record.identity.value.generation == e.record.generation
          && e.record.identity.value.pid > 0 && e.record.identity.value.startTime > 0)
    && (e.record.phase in {Authorized, Running} ==> e.request.controls <= e.record.applied)
    && e.record.resources == e.request.resources && e.record.resources.cpu > 0 && e.record.resources.ram > 0
    && (e.request.maxAttempts.Some? ==> e.record.generation <= e.request.maxAttempts.value)
  }

  /** A child is part of its parent in every scope, and runs only as a known process with every control. */
  ghost predicate ChildCertified(b: Book, c: Child) {
    && c.parent in b.executions
    && (forall d :: Amount(c.request.resources, d) <= Amount(b.executions[c.parent].record.resources, d))
    && (c.phase in {Authorized, Running} ==> c.identity.Some?)
    && (c.identity.Some? ==> c.request.controls <= c.applied
                             && c.identity.value.assignment == c.parent && c.identity.value.generation == c.generation)
  }

  ghost predicate Certified(b: Book) {
    && (forall a :: a in b.executions ==> RecordCertified(b.executions[a], a))
    && (forall c :: c in b.children ==> ChildCertified(b, b.children[c]))
  }

  lemma ReserveCertified(b: Book, replayable: bool, a: Id, request: Request, capacity: Resources, remote: Option<nat>)
    requires Certified(b) && Reserve(b, replayable, a, request, capacity, remote).Some?
    ensures Certified(Reserve(b, replayable, a, request, capacity, remote).value)
  {
    var b' := Reserve(b, replayable, a, request, capacity, remote).value;
    ReserveShape(b, replayable, a, request, capacity, remote);
    assert RecordCertified(b'.executions[a], a) by {
      hide Charged, FitsRequested, BudgetUnchanged, Holds;
    }
    hide Reserve, RecordCertified;
    forall c | c in b'.children ensures ChildCertified(b', b'.children[c]) {
      assert ChildCertified(b, b.children[c]);
    }
  }

  lemma TransitionCertified(b: Book, replayable: bool, boot: Id, a: Id, record: Record)
    requires Certified(b) && Transition(b, replayable, boot, a, record).Some?
    ensures Certified(Transition(b, replayable, boot, a, record).value)
  {
    var b' := Transition(b, replayable, boot, a, record).value;
    assert RecordCertified(b.executions[a], a);
    forall c | c in b'.children ensures ChildCertified(b', b'.children[c]) {
      assert ChildCertified(b, b.children[c]);
    }
  }

  lemma WithinParent(child: Request, parent: Execution, d: Dim)
    requires WithinFamily(child, parent)
    ensures Amount(child.resources, d) <= Amount(parent.record.resources, d)
  {
  }

  lemma ReserveChildCertified(b: Book, a: Id, generation: nat, child: Id, requestId: Id, request: Request)
    requires Certified(b) && ReserveChild(b, a, generation, child, requestId, request).Some?
    ensures Certified(ReserveChild(b, a, generation, child, requestId, request).value)
  {
    var b' := ReserveChild(b, a, generation, child, requestId, request).value;
    if b' != b {
      forall d ensures Amount(request.resources, d) <= Amount(b.executions[a].record.resources, d) {
        WithinParent(request, b.executions[a], d);
      }
      hide RecordCertified, WithinFamily, Granted, Family;
      forall c | c in b'.children ensures ChildCertified(b', b'.children[c]) {
        assert c != child ==> ChildCertified(b, b.children[c]);
      }
    }
  }

  lemma ChildStepCertified(b: Book, child: Id, row: Child)
    requires Certified(b) && child in b.children
    requires row.parent == b.children[child].parent && row.request == b.children[child].request
    requires row.phase in {Authorized, Running} ==> row.identity.Some?
    requires row.identity.Some? ==>
      && row.request.controls <= row.applied
      && row.identity.value.assignment == row.parent && row.identity.value.generation == row.generation
    ensures Certified(b.(children := b.children[child := row]))
  {
    hide RecordCertified;
    var b' := b.(children := b.children[child := row]);
    forall c | c in b'.children ensures ChildCertified(b', b'.children[c]) {
      assert ChildCertified(b, b.children[c]);
    }
  }

  lemma PrepareChildCertified(b: Book, child: Id, identity: ProcessIdentity, applied: set<Id>)
    requires Certified(b) && PrepareChild(b, child, identity, applied).Some?
    ensures Certified(PrepareChild(b, child, identity, applied).value)
  {
    var b' := PrepareChild(b, child, identity, applied).value;
    if b' != b {
      hide Certified;
      ChildStepCertified(b, child, b'.children[child]);
    }
  }

  lemma TransitionChildCertified(b: Book, child: Id, phase: Phase, exitCode: Option<int>, signal: Option<int>)
    requires Certified(b) && TransitionChild(b, child, phase, exitCode, signal).Some?
    ensures Certified(TransitionChild(b, child, phase, exitCode, signal).value)
  {
    var b' := TransitionChild(b, child, phase, exitCode, signal).value;
    if b' != b {
      assert ChildCertified(b, b.children[child]);
      hide Certified;
      ChildStepCertified(b, child, b'.children[child]);
    }
  }

  lemma ApplyCertified(b: Book, replayable: bool, capacity: Resources, op: Op)
    requires Certified(b)
    ensures Certified(Apply(b, replayable, capacity, op))
  {
    hide Certified, Reserve, Transition, ReserveChild, PrepareChild, TransitionChild;
    match op {
      case DoReserve(a, request, remote) =>
        if Reserve(b, replayable, a, request, capacity, remote).Some? {
          ReserveCertified(b, replayable, a, request, capacity, remote);
        }
      case DoTransition(boot, a, record) =>
        if Transition(b, replayable, boot, a, record).Some? {
          TransitionCertified(b, replayable, boot, a, record);
        }
      case DoReserveChild(a, generation, child, requestId, request) =>
        if ReserveChild(b, a, generation, child, requestId, request).Some? {
          ReserveChildCertified(b, a, generation, child, requestId, request);
        }
      case DoPrepareChild(child, identity, applied) =>
        if PrepareChild(b, child, identity, applied).Some? {
          PrepareChildCertified(b, child, identity, applied);
        }
      case DoTransitionChild(child, phase, exitCode, signal) =>
        if TransitionChild(b, child, phase, exitCode, signal).Some? {
          TransitionChildCertified(b, child, phase, exitCode, signal);
        }
    }
  }

  /** In every journal that operations can produce, each phase is backed by the evidence it stands for. */
  lemma {:induction false} JournalCertified(replayable: bool, capacity: Resources, ops: seq<Op>)
    ensures Certified(Replay(replayable, capacity, ops))
  {
    if ops != [] {
      hide Certified, Apply;
      JournalCertified(replayable, capacity, ops[..|ops| - 1]);
      ApplyCertified(Replay(replayable, capacity, ops[..|ops| - 1]), replayable, capacity, ops[|ops| - 1]);
    }
  }

  // ---------------------------------------------------------------- admission

  /** The generation a reservation would get: the remote one if it is given, the next one otherwise. */
  function NextGeneration(b: Book, task: Id, remote: Option<nat>): nat {
    if remote.Some? then remote.value else if task in b.tasks then b.tasks[task].generation + 1 else 1
  }

  /** The task is free for a new attempt: nobody holds it, and its row is queued or overtaken by the coordinator. */
  ghost predicate Free(b: Book, request: Request, remote: Option<nat>) {
    && (forall a :: a in b.executions && b.executions[a].record.task == request.task ==>
          b.executions[a].record.phase == Released)
    && (request.task in b.tasks ==>
          var task := b.tasks[request.task];
          && task.replaySafe == request.replaySafe
          && (task.status == Queued || (remote.Some? && task.replaySafe && task.status == Assigned))
          && task.generation < NextGeneration(b, request.task, remote))
    && NextGeneration(b, request.task, remote) > 0
  }

  /** A reservation is admitted exactly when the task is free, its limits allow it, and everything fits with it. */
  lemma ReserveExact(b: Book, replayable: bool, a: Id, request: Request, capacity: Resources, remote: Option<nat>)
    ensures Reserve(b, replayable, a, request, capacity, remote).Some? <==>
      && (replayable ==> remote.Some? && request.replaySafe && request.grade == Opportunistic && !request.durableLocal)
      && request.resources.cpu > 0 && request.resources.ram > 0 && a !in b.executions
      && BudgetUnchanged(b, request) && request.maxAttempts != Some(0)
      && (request.maxAttempts.Some? ==> NextGeneration(b, request.task, remote) <= request.maxAttempts.value)
      && Free(b, request, remote)
      && Charged(b, request.resources).Some?
      && (forall d :: InScope(request.resources, d) ==>
            Amount(request.resources, d) + TotalIn(Charges(b), d) <= Amount(capacity, d))
  {
    if Charged(b, request.resources).Some? {
      ChargedExact(b, request.resources);
    }
    hide Charged, BudgetUnchanged, TotalIn, Charges, FitsRequested;
  }
}
