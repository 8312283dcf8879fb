/** The journal as it runs: three tables updated in place, one transaction per method. */
module JournalService {
  import opened Options
  import opened ResourceVectors
  import opened Listings
  import opened Journal

  class ExecutionJournal {
    const replayable: bool
    var tasks: map<Id, Task>
    var executions: map<Id, Execution>
    var children: map<Id, Child>

    function Contents(): Book
      reads this
    {
      Book(tasks, executions, children)
    }

    /** One unreleased reservation per task, families within their limits, no child left under a released parent. */
    ghost predicate Valid()
      reads this
    {
      Orderly(Contents())
    }

    constructor (replayable: bool)
      ensures Valid() && this.replayable == replayable && Contents() == EMPTY
    {
      this.replayable := replayable;
      tasks, executions, children := map[], map[], map[];
      new;
      EmptySound(ZERO);
    }

    /** The admission sum over every unreleased row. */
    method ChargeAll(request: Resources) returns (charged: Option<Resources>)
      ensures charged == Charged(Contents(), request)
    {
      charged := AddLoopAll(request, Select(Charges(Contents()), ChargeOrder(Contents())));
    }

    /** The checks and the new rows of `reserve_generation`; nothing is written yet. */
    method Admit(a: Id, request: Request, capacity: Resources, remote: Option<nat>) returns (next: Option<Book>)
      ensures next == Journal.Reserve(Contents(), replayable, a, request, capacity, remote)
    {
      hide Charged, FitsRequested, BudgetUnchanged, Holds;
      var b := Contents();
      if !ProfileAllows(replayable, request, remote) || request.resources.cpu == 0 || request.resources.ram == 0
         || request.maxAttempts == Some(0) || !BudgetUnchanged(b, request) || Holds(b, request.task) {
        return None;
      }
      var charged := ChargeAll(request.resources);
      if charged.None? || !FitsRequested(charged.value, capacity, request.resources) {
        return None;
      }
      var task := TaskRow(b, request);
      if task.replaySafe != request.replaySafe
         || !(task.status == Queued
              || (remote.Some? && remote.value > task.generation && task.replaySafe && task.status == Assigned)) {
        return None;
      }
      var generation := if remote.Some? then remote.value else task.generation + 1;
      if generation < task.generation + 1 || (request.maxAttempts.Some? && generation > request.maxAttempts.value)
         || a in executions {
        return None;
      }
      var row := task.(status := Assigned, generation := generation, assignment := Some(a));
      var record := Record(request.task, generation, request.grade, Reserved, request.resources, None, None, {}, {});
      return Some(b.(tasks := tasks[request.task := row], executions := executions[a := Execution(request, record)]));
    }

    /** `reserve_generation`: one transaction that keeps every bound, and the capacity it was checked against. */
    method Reserve(a: Id, request: Request, capacity: Resources, remote: Option<nat>) returns (ok: bool)
      requires Valid()
      modifies this
      ensures Valid()
      ensures Journal.Reserve(old(Contents()), replayable, a, request, capacity, remote)
              == if ok then Some(Contents()) else None
      ensures !ok ==> Contents() == old(Contents())
      ensures ok ==> a !in old(executions) && a in executions && executions[a].record.phase == Reserved
      ensures old(FitsAll(Contents(), capacity)) ==> FitsAll(Contents(), capacity)
    {
      ReserveMeans(Contents(), replayable, a, request, capacity, remote);
      hide Journal.Reserve, Orderly, FitsAll;
      var next := Admit(a, request, capacity, remote);
      if next.None? {
        return false;
      }
      tasks, executions, children := next.value.tasks, next.value.executions, next.value.children;
      return true;
    }

    /** `transition`: a release succeeds only for an empty family, is final, and never makes the node heavier. */
    method Transition(boot: Id, a: Id, record: Record) returns (ok: bool)
      requires Valid()
      modifies this`executions
      ensures Valid()
      ensures NoHeavier(old(Contents()), Contents())
      ensures ok && record.phase == Released ==> Family(Contents(), a) == {}
      ensures ok ==> a in old(executions) && (old(executions)[a].record.phase == Released ==> record.phase == Released)
      ensures forall c :: c in old(executions) ==> c in executions && executions[c].request == old(executions)[c].request
      ensures Journal.Transition(old(Contents()), replayable, boot, a, record) == if ok then Some(Contents()) else None
      ensures !ok ==> Contents() == old(Contents())
    {
      if Journal.Transition(Contents(), replayable, boot, a, record).Some? {
        TransitionShape(Contents(), replayable, boot, a, record);
        TransitionKeeps(Contents(), replayable, boot, a, record);
      }
      hide Orderly, NoHeavier, Family;
      if a !in executions
         || !Acceptable(Contents(), replayable, boot, a, executions[a].request, executions[a].record, record) {
        return false;
      }
      executions := executions[a := executions[a].(record := record)];
      return true;
    }

    /** `reserve_managed_child`: idempotent per request identifier; the family stays within the parent's limit. */
    method ReserveChild(a: Id, generation: nat, child: Id, requestId: Id, request: Request) returns (ok: bool)
      requires Valid()
      modifies this`children
      ensures Valid()
      ensures ok ==> a in executions && |Family(Contents(), a)| <= executions[a].request.childLimit
      ensures ok ==> Granted(Contents(), a, generation, requestId, request)
      ensures forall c :: c in old(children) ==> c in children && children[c] == old(children)[c]
      ensures Journal.ReserveChild(old(Contents()), a, generation, child, requestId, request)
              == if ok then Some(Contents()) else None
      ensures !ok ==> Contents() == old(Contents())
    {
      ReserveChildMeans(Contents(), a, generation, child, requestId, request);
      hide WithinFamily, Orderly, Family, Granted;
      if exists c :: c in children && children[c].parent == a && children[c].requestId == requestId {
        return Granted(Contents(), a, generation, requestId, request);
      }
      if !Authorizing(Contents(), a, generation) {
        return false;
      }
      var parent := executions[a];
      if parent.request.singleProcess || !parent.request.noEscape || !(1 <= parent.request.childLimit <= 8)
         || !WithinFamily(request, parent) || |Family(Contents(), a)| >= parent.request.childLimit || child in children {
        return false;
      }
      children := children[child := Child(a, requestId, generation, request, None, Reserved, {}, None, None)];
      return true;
    }

    /** `prepare_managed_child`: binds one process identity, claimed by nobody else, once and for all. */
    method PrepareChild(child: Id, identity: ProcessIdentity, applied: set<Id>) returns (ok: bool)
      requires Valid()
      modifies this`children
      ensures Valid()
      ensures ok ==> child in children && children[child].identity == Some(identity) && children[child].applied == applied
      ensures ok && old(child in children && children[child].identity.None?) ==>
                old(Unclaimed(Contents(), identity)) && children[child].request.controls <= applied
      ensures forall c :: c in old(children) && c != child ==> c in children && children[c] == old(children)[c]
      ensures Journal.PrepareChild(old(Contents()), child, identity, applied) == if ok then Some(Contents()) else None
      ensures !ok ==> Contents() == old(Contents())
    {
      if Journal.PrepareChild(Contents(), child, identity, applied).Some? {
        PrepareChildKeeps(Contents(), child, identity, applied);
      }
      hide Orderly;
      if child !in children {
        return false;
      }
      var row := children[child];
      if !ValidIdentity(identity, row.parent, row.generation) || row.parent !in executions {
        return false;
      }
      var leader := executions[row.parent].record.identity;
      if leader.None? || leader.value.boot != identity.boot || leader.value.pid == identity.pid {
        return false;
      }
      if row.identity.Some? {
        return row.identity == Some(identity) && row.applied == applied;
      }
      if row.phase != Phase.Reserved || !Authorizing(Contents(), row.parent, row.generation)
         || !Unclaimed(Contents(), identity) || !(row.request.controls <= applied) {
        return false;
      }
      children := children[child := row.(identity := Some(identity), applied := applied, phase := Phase.Prepared)];
      return true;
    }

    /** `transition_managed_child`: families only shrink, and a released child's receipt never changes. */
    method TransitionChild(child: Id, phase: Phase, exitCode: Option<int>, signal: Option<int>) returns (ok: bool)
      requires Valid()
      modifies this`children
      ensures Valid()
      ensures forall a: Id :: Family(Contents(), a) <= old(Family(Contents(), a))
      ensures forall c :: c in old(children) && (c != child || old(children)[c].phase == Released) ==>
                c in children && children[c] == old(children)[c]
      ensures ok ==> child in children && children[child].phase == phase
      ensures Journal.TransitionChild(old(Contents()), child, phase, exitCode, signal)
              == if ok then Some(Contents()) else None
      ensures !ok ==> Contents() == old(Contents())
    {
      if Journal.TransitionChild(Contents(), child, phase, exitCode, signal).Some? {
        TransitionChildKeeps(Contents(), child, phase, exitCode, signal);
      }
      hide Orderly, Family;
      if child !in children {
        return false;
      }
      var row := children[child];
      if (exitCode.Some? && signal.Some?) || (signal.Some? && signal.value <= 0)
         || (phase != Released && (exitCode.Some? || signal.Some?)) || !ValidChildTransition(row.phase, phase) {
        return false;
      }
      if row.phase == Released {
        return row.exitCode == exitCode && row.signal == signal;
      }
      if (phase == Authorized || phase == Running)
         && (row.identity.None? || !(row.request.controls <= row.applied)
             || !Authorizing(Contents(), row.parent, row.generation)) {
        return false;
      }
      children := children[child := row.(phase := phase, exitCode := exitCode, signal := signal)];
      return true;
    }
  }
}
