/**
 The node-local execution journal and its registry of mediated children (src/execution_state.rs,
 src/managed_children.rs): a capacity allocator with a phase machine and a parent/child release barrier.
 */
module Journal {
  import opened Options
  import opened ResourceVectors
  import opened Listings

  type Id = nat

  // ---------------------------------------------------------------- rows

  datatype Phase = Reserved | Prepared | Authorized | Running | Draining | NeedsReconciliation | Released

  datatype Status = Queued | Assigned | Completed | Unresolved

  datatype Task = Task(replaySafe: bool, status: Status, generation: nat, assignment: Option<Id>)

  /** `controls` are the required ones; `durableLocal` says whether `storage.durable_local` is among them. */
  datatype Request = Request(
    task: Id, resources: Resources, replaySafe: bool, grade: Class, maxAttempts: Option<nat>, controls: set<Id>,
    durableLocal: bool, singleProcess: bool, noEscape: bool, childLimit: nat, inputs: set<Id>)

  datatype ProcessIdentity = ProcessIdentity(boot: Id, pid: nat, startTime: nat, assignment: Id, generation: nat)

  /** The `recovery.*` evidence entries that gate release. */
  datatype Marker = MissingPrepared(detail: Id) | Unauthorized(detail: Id) | UnknownChildren(detail: Id) | Noted(detail: Id)

  /** `applied` are the controls verified as applied; `backend` is absent while unprepared. */
  datatype Record = Record(
    task: Id, generation: nat, grade: Class, phase: Phase, resources: Resources, identity: Option<ProcessIdentity>,
    backend: Option<Id>, applied: set<Id>, markers: set<Marker>)

  datatype Execution = Execution(request: Request, record: Record)

  datatype Child = Child(
    parent: Id, requestId: Id, generation: nat, request: Request, identity: Option<ProcessIdentity>, phase: Phase,
    applied: set<Id>, exitCode: Option<int>, signal: Option<int>)

  datatype Book = Book(tasks: map<Id, Task>, executions: map<Id, Execution>, children: map<Id, Child>)

  const EMPTY := Book(map[], map[], map[])

  // ---------------------------------------------------------------- capacity

  /** What every unreleased reservation charges, pending and uncertain ones included. */
  function Charges(b: Book): map<Id, Resources> {
    map a | a in b.executions && b.executions[a].record.phase != Released :: b.executions[a].record.resources
  }

  function ChargeOrder(b: Book): (s: seq<Id>)
    ensures Distinct(s) && forall a :: a in s <==> a in Charges(b)
  {
    ListBy(map a | a in Charges(b) :: Row(a, 0, 0))
  }

  /** The admission loop's running sum, starting from the request itself. */
  function Charged(b: Book, request: Resources): Option<Resources> {
    AddAll(request, Select(Charges(b), ChargeOrder(b)))
  }

  lemma ChargedExact(b: Book, request: Resources)
    requires Charged(b, request).Some?
    ensures forall d :: Amount(Charged(b, request).value, d) == Amount(request, d) + TotalIn(Charges(b), d)
  {
    var order := ChargeOrder(b);
    forall d ensures Amount(Charged(b, request).value, d) == Amount(request, d) + TotalIn(Charges(b), d) {
      SumInOfListing(Charges(b), order, Select(Charges(b), order), d);
    }
  }

  // ---------------------------------------------------------------- reserve

  /** Whether a replayable node may take this request at all. */
  predicate ProfileAllows(replayable: bool, request: Request, remote: Option<nat>) {
    replayable ==> remote.Some? && request.replaySafe && request.grade == Opportunistic && !request.durableLocal
  }

  /** The first attempt of the task fixed its attempt budget. */
  predicate BudgetUnchanged(b: Book, request: Request) {
    forall a :: a in b.executions && b.executions[a].record.task == request.task
                && (forall c :: c in b.executions && b.executions[c].record.task == request.task ==>
                      b.executions[a].record.generation <= b.executions[c].record.generation)
                ==> b.executions[a].request.maxAttempts == request.maxAttempts
  }

  predicate Holds(b: Book, task: Id) {
    exists a :: a in b.executions && b.executions[a].record.phase != Released && b.executions[a].record.task == task
  }

  function TaskRow(b: Book, request: Request): Task {
    if request.task in b.tasks then b.tasks[request.task] else Task(request.replaySafe, Queued, 0, None)
  }

  function Reserve(b: Book, replayable: bool, a: Id, request: Request, capacity: Resources, remote: Option<nat>)
    : Option<Book>
  {
    if !ProfileAllows(replayable, request, remote) || request.resources.cpu == 0 || request.resources.ram == 0
       || request.maxAttempts == Some(0) || !BudgetUnchanged(b, request) || Holds(b, request.task) then None else
    var charged := Charged(b, request.resources);
    if charged.None? || !FitsRequested(charged.value, capacity, request.resources) then None else
    var task := TaskRow(b, request);
    if task.replaySafe != request.replaySafe
       || !(task.status == Queued
            || (remote.Some? && remote.value > task.generation && task.replaySafe && task.status == Assigned))
    then None else
    var generation := if remote.Some? then remote.value else task.generation + 1;
    if generation < task.generation + 1 || (request.maxAttempts.Some? && generation > request.maxAttempts.value)
       || a in b.executions then None else
    Some(b.(
      tasks := b.tasks[request.task := task.(status := Assigned, generation := generation, assignment := Some(a))],
      executions := b.executions[a := Execution(request, Record(
        request.task, generation, request.grade, Reserved, request.resources, None, None, {}, {}))]))
  }

  // ---------------------------------------------------------------- transition

  predicate ValidTransition(before: Phase, after: Phase) {
    match before
    case Reserved => after in {Prepared, NeedsReconciliation, Released}
    case Prepared => after in {Authorized, NeedsReconciliation, Released}
    case Authorized => after in {Running, Draining, NeedsReconciliation, Released}
    case Running => after in {Draining, NeedsReconciliation, Released}
    case Draining => after in {NeedsReconciliation, Released}
    case NeedsReconciliation => after in {NeedsReconciliation, Released}
    case Released => after == Released
  }

  /** The unreleased children of one family. */
  function Family(b: Book, a: Id): set<Id> {
    set c | c in b.children && b.children[c].parent == a && b.children[c].phase != Released
  }

  predicate ValidIdentity(p: ProcessIdentity, a: Id, generation: nat) {
    p.assignment == a && p.generation == generation && p.pid > 0 && p.startTime > 0
  }

  /** Same-boot recovery cannot prove that an unknown process family is gone. */
  predicate NeedsOtherBoot(replayable: bool, request: Request, before: Record, after: Record) {
    (replayable && request.childLimit > 0 && before.phase == NeedsReconciliation)
    || exists m :: m in after.markers && (m.Unauthorized? || m.UnknownChildren?)
  }

  predicate MayRelease(b: Book, replayable: bool, boot: Id, a: Id, request: Request, before: Record, after: Record) {
    && (forall m :: m in after.markers ==> !m.MissingPrepared?)
    && (NeedsOtherBoot(replayable, request, before, after) ==>
          before.identity.Some? && before.identity.value.boot != boot)
    && Family(b, a) == {}
  }

  /** Everything the journal demands of one transition. */
  predicate Acceptable(b: Book, replayable: bool, boot: Id, a: Id, request: Request, before: Record, after: Record) {
    && after.task == before.task && after.generation == before.generation && after.grade == before.grade
    && after.resources == before.resources
    && ValidTransition(before.phase, after.phase)
    && (before.phase != Reserved ==> after.backend == before.backend)
    && (before.identity.Some? ==> after.identity == before.identity)
    && (after.identity.Some? ==> ValidIdentity(after.identity.value, a, after.generation))
    && (after.phase in {Prepared, Authorized, Running} ==> after.identity.Some? && after.backend.Some?)
    && (after.phase in {Authorized, Running} ==> request.controls <= after.applied)
    && before.markers <= after.markers
    && (after.phase == Released ==> MayRelease(b, replayable, boot, a, request, before, after))
  }

  function Transition(b: Book, replayable: bool, boot: Id, a: Id, record: Record): Option<Book> {
    if a !in b.executions
       || !Acceptable(b, replayable, boot, a, b.executions[a].request, b.executions[a].record, record) then None
    else Some(b.(executions := b.executions[a := b.executions[a].(record := record)]))
  }

  // ---------------------------------------------------------------- mediated children

  predicate Authorizing(b: Book, a: Id, generation: nat) {
    && a in b.executions && b.executions[a].record.generation == generation
    && (b.executions[a].record.phase == Authorized || b.executions[a].record.phase == Running)
  }

  predicate WithinFamily(child: Request, parent: Execution) {
    var r, limit := child.resources, parent.record.resources;
    && r.cpu > 0 && r.ram > 0 && r.cpu <= limit.cpu && r.ram <= limit.ram
    && (forall u :: u in r.gpu ==> r.gpu[u] > 0 && u in limit.gpu && r.gpu[u] <= limit.gpu[u])
    && child.task == parent.record.task && child.grade == parent.record.grade
    && child.replaySafe == parent.request.replaySafe
    && child.singleProcess && child.noEscape && child.childLimit == 0
    && child.inputs <= parent.request.inputs && parent.request.controls <= child.controls
  }

  /** Reserving the same request identifier again only acknowledges it. */
  function ReserveChild(b: Book, a: Id, generation: nat, child: Id, requestId: Id, request: Request): Option<Book> {
    if exists c :: c in b.children && b.children[c].parent == a && b.children[c].requestId == requestId then
      if Granted(b, a, generation, requestId, request) then Some(b) else None
    else if !Authorizing(b, a, generation) then None
    else
      var parent := b.executions[a];
      if parent.request.singleProcess || !parent.request.noEscape || !(1 <= parent.request.childLimit <= 8)
         || !WithinFamily(request, parent) || |Family(b, a)| >= parent.request.childLimit || child in b.children
      then None
      else Some(b.(children := b.children[child :=
                     Child(a, requestId, generation, request, None, Reserved, {}, None, None)]))
  }

  predicate SameProcess(p: ProcessIdentity, q: ProcessIdentity) {
    p.boot == q.boot && p.pid == q.pid && p.startTime == q.startTime
  }

  /** No allocation leader and no other child is this process. */
  predicate Unclaimed(b: Book, identity: ProcessIdentity) {
    && (forall a :: a in b.executions && b.executions[a].record.identity.Some? ==>
          !SameProcess(b.executions[a].record.identity.value, identity))
    && (forall c :: c in b.children && b.children[c].identity.Some? ==>
          !SameProcess(b.children[c].identity.value, identity))
  }

  function PrepareChild(b: Book, child: Id, identity: ProcessIdentity, applied: set<Id>): Option<Book> {
    if child !in b.children then None else
    var row := b.children[child];
    if !ValidIdentity(identity, row.parent, row.generation) || row.parent !in b.executions then None else
    var parent := b.executions[row.parent].record;
    if parent.identity.None? || parent.identity.value.boot != identity.boot || parent.identity.value.pid == identity.pid
    then None
    else if row.identity.Some? then
      if row.identity == Some(identity) && row.applied == applied then Some(b) else None
    else if row.phase != Reserved || !Authorizing(b, row.parent, row.generation) || !Unclaimed(b, identity)
            || !(row.request.controls <= applied) then None
    else Some(b.(children := b.children[child :=
                   row.(identity := Some(identity), applied := applied, phase := Prepared)]))
  }

  predicate ValidChildTransition(before: Phase, after: Phase) {
    before == after || (before != NeedsReconciliation && before != Released && ValidTransition(before, after))
    || (before == NeedsReconciliation && after == Released)
  }

  function TransitionChild(b: Book, child: Id, phase: Phase, exitCode: Option<int>, signal: Option<int>): Option<Book> {
    if child !in b.children then None else
    var row := b.children[child];
    if (exitCode.Some? && signal.Some?) || (signal.Some? && signal.value <= 0)
       || (phase != Released && (exitCode.Some? || signal.Some?))
       || !ValidChildTransition(row.phase, phase) then None
    else if row.phase == Released then
      if row.exitCode == exitCode && row.signal == signal then Some(b) else None
    else if (phase == Authorized || phase == Running)
            && (row.identity.None? || !(row.request.controls <= row.applied)
                || !Authorizing(b, row.parent, row.generation)) then None
    else Some(b.(children := b.children[child := row.(phase := phase, exitCode := exitCode, signal := signal)]))
  }

  // ---------------------------------------------------------------- what every step keeps

  ghost predicate FitsAll(b: Book, capacity: Resources) {
    forall d :: TotalIn(Charges(b), d) <= Amount(capacity, d)
  }

  /** No task holds two unreleased reservations. */
  ghost predicate OnePerTask(b: Book) {
    forall a, c :: a in Charges(b) && c in Charges(b) && b.executions[a].record.task == b.executions[c].record.task
      ==> a == c
  }

  /** Families stay within their limit, and a released parent has none left. */
  ghost predicate FamilyBounded(b: Book, a: Id) {
    a in b.executions ==>
      |Family(b, a)| <= b.executions[a].request.childLimit
      && (b.executions[a].record.phase == Released ==> Family(b, a) == {})
  }

  ghost predicate Keyed(b: Book) {
    && (forall c :: c in b.children ==> Parented(b, b.children[c]))
    && (forall a :: a in b.executions ==> Attributed(b, a))
  }

  ghost predicate Parented(b: Book, child: Child) {
    child.parent in b.executions && child.generation == b.executions[child.parent].record.generation
  }

  ghost predicate Attributed(b: Book, a: Id)
    requires a in b.executions
  {
    var record := b.executions[a].record;
    record.task in b.tasks && record.generation <= b.tasks[record.task].generation
  }

  /** What holds at whatever capacity reservations were admitted. */
  ghost predicate Orderly(b: Book) {
    OnePerTask(b) && Keyed(b) && forall a: Id :: FamilyBounded(b, a)
  }

  ghost predicate Sound(b: Book, capacity: Resources) {
    FitsAll(b, capacity) && Orderly(b)
  }

  /** No dimension is charged more than before, so any capacity that sufficed still does. */
  ghost predicate NoHeavier(b: Book, b': Book) {
    forall d :: TotalIn(Charges(b'), d) <= TotalIn(Charges(b), d)
  }

  lemma EmptySound(capacity: Resources)
    ensures Sound(EMPTY, capacity)
  {
    forall d ensures TotalIn(Charges(EMPTY), d) == 0 {
      assert Column(Charges(EMPTY), d) == map[];
    }
  }

  /** What an admitted reservation adds, and what admission checked. */
  lemma ReserveShape(b: Book, replayable: bool, a: Id, request: Request, capacity: Resources, remote: Option<nat>)
    requires Reserve(b, replayable, a, request, capacity, remote).Some?
    ensures var b' := Reserve(b, replayable, a, request, capacity, remote).value;
      && a !in b.executions && !Holds(b, request.task)
      && Charged(b, request.resources).Some?
      && FitsRequested(Charged(b, request.resources).value, capacity, request.resources)
      && b'.children == b.children && request.task in b'.tasks && a in b'.executions
      && b' == b.(tasks := b.tasks[request.task := b'.tasks[request.task]],
                  executions := b.executions[a := b'.executions[a]])
      && b'.executions[a].request == request
      && var record := b'.executions[a].record;
      && record.task == request.task && record.resources == request.resources && record.phase == Reserved
      && record.generation == b'.tasks[request.task].generation
      && (request.task in b.tasks ==> b.tasks[request.task].generation < record.generation)
  {
    hide Charged, BudgetUnchanged, Holds, FitsRequested;
  }

  lemma InsertFits(b: Book, b': Book, a: Id, request: Resources, capacity: Resources)
    requires FitsAll(b, capacity) && a !in Charges(b) && Charges(b') == Charges(b)[a := request]
    requires Charged(b, request).Some? && FitsRequested(Charged(b, request).value, capacity, request)
    ensures FitsAll(b', capacity)
  {
    ChargedExact(b, request);
    hide Charged, Charges;
    forall d ensures TotalIn(Charges(b'), d) <= Amount(capacity, d) {
      TotalInInsert(Charges(b), a, request, d);
      assert !InScope(request, d) ==> Amount(request, d) == 0;
    }
  }

  lemma ChargesInsert(b: Book, b': Book, a: Id)
    requires a !in b.executions && a in b'.executions && b'.executions == b.executions[a := b'.executions[a]]
    requires b'.executions[a].record.phase != Released
    ensures a !in Charges(b) && Charges(b') == Charges(b)[a := b'.executions[a].record.resources]
  {
  }

  lemma ReserveFits(b: Book, replayable: bool, a: Id, request: Request, capacity: Resources, remote: Option<nat>)
    requires FitsAll(b, capacity) && Reserve(b, replayable, a, request, capacity, remote).Some?
    ensures FitsAll(Reserve(b, replayable, a, request, capacity, remote).value, capacity)
  {
    var b' := Reserve(b, replayable, a, request, capacity, remote).value;
    ReserveShape(b, replayable, a, request, capacity, remote);
    hide Reserve, Charged, FitsRequested, Holds;
    ChargesInsert(b, b', a);
    InsertFits(b, b', a, request.resources, capacity);
  }

  lemma ReserveOnePerTask(b: Book, b': Book, a: Id, task: Id)
    requires OnePerTask(b) && !Holds(b, task) && a !in b.executions && a in b'.executions
    requires b'.executions == b.executions[a := b'.executions[a]] && b'.executions[a].record.task == task
    ensures OnePerTask(b')
  {
    forall x, y | x in Charges(b') && y in Charges(b')
                  && b'.executions[x].record.task == b'.executions[y].record.task
      ensures x == y
    {
      assert x != a ==> x in Charges(b);
      assert y != a ==> y in Charges(b);
    }
  }

  lemma ReserveOrderly(b: Book, replayable: bool, a: Id, request: Request, capacity: Resources, remote: Option<nat>)
    requires Orderly(b) && Reserve(b, replayable, a, request, capacity, remote).Some?
    ensures Orderly(Reserve(b, replayable, a, request, capacity, remote).value)
  {
    var b' := Reserve(b, replayable, a, request, capacity, remote).value;
    ReserveShape(b, replayable, a, request, capacity, remote);
    ReserveOnePerTask(b, b', a, request.task);
    hide Reserve, Charged, FitsRequested, Holds, OnePerTask;
    assert forall c :: c in b.children ==> Parented(b, b.children[c]) && b.children[c].parent != a;
    forall x: Id ensures FamilyBounded(b', x) {
      assert FamilyBounded(b, x) && Family(b', x) == Family(b, x);
    }
    forall x | x in b'.executions ensures Attributed(b', x) {
      assert x != a ==> Attributed(b, x);
    }
  }

  lemma ReserveKeeps(b: Book, replayable: bool, a: Id, request: Request, capacity: Resources, remote: Option<nat>)
    requires Sound(b, capacity) && Reserve(b, replayable, a, request, capacity, remote).Some?
    ensures Sound(Reserve(b, replayable, a, request, capacity, remote).value, capacity)
  {
    ReserveFits(b, replayable, a, request, capacity, remote);
    ReserveOrderly(b, replayable, a, request, capacity, remote);
    hide Reserve, FitsAll;
  }

  /** What a reservation promises its caller, whatever the capacity it was checked against. */
  lemma ReserveMeans(b: Book, replayable: bool, a: Id, request: Request, capacity: Resources, remote: Option<nat>)
    requires Orderly(b)
    ensures var next := Reserve(b, replayable, a, request, capacity, remote);
      next.Some? ==>
        && Orderly(next.value) && (FitsAll(b, capacity) ==> FitsAll(next.value, capacity))
        && a !in b.executions && a in next.value.executions && next.value.executions[a].record.phase == Reserved
  {
    if Reserve(b, replayable, a, request, capacity, remote).Some? {
      ReserveOrderly(b, replayable, a, request, capacity, remote);
      ReserveShape(b, replayable, a, request, capacity, remote);
      if FitsAll(b, capacity) {
        ReserveFits(b, replayable, a, request, capacity, remote);
      }
      hide Reserve, Orderly, FitsAll;
    }
  }

  lemma FewerCharges(b: Book, b': Book)
    requires OnePerTask(b)
    requires forall x :: x in Charges(b') ==>
               x in Charges(b) && Charges(b')[x] == Charges(b)[x]
               && b'.executions[x].record.task == b.executions[x].record.task
    ensures NoHeavier(b, b') && OnePerTask(b')
  {
    forall d ensures TotalIn(Charges(b'), d) <= TotalIn(Charges(b), d) {
      TotalInSubset(Charges(b'), Charges(b), d);
    }
  }

  lemma TransitionShape(b: Book, replayable: bool, boot: Id, a: Id, record: Record)
    requires Transition(b, replayable, boot, a, record).Some?
    ensures a in b.executions
    ensures var before := b.executions[a].record;
      && Transition(b, replayable, boot, a, record).value
         == b.(executions := b.executions[a := b.executions[a].(record := record)])
      && record.task == before.task && record.generation == before.generation && record.resources == before.resources
      && (before.phase == Released ==> record.phase == Released)
      && (record.phase == Released ==> Family(b, a) == {})
  {
    hide Family;
  }

  /** A transition keeps order at any capacity, and a parent is released only once its family is gone. */
  lemma TransitionKeeps(b: Book, replayable: bool, boot: Id, a: Id, record: Record)
    requires Orderly(b) && Transition(b, replayable, boot, a, record).Some?
    ensures var b' := Transition(b, replayable, boot, a, record).value;
      Orderly(b') && NoHeavier(b, b') && (record.phase == Released ==> Family(b', a) == {})
  {
    var b' := Transition(b, replayable, boot, a, record).value;
    TransitionShape(b, replayable, boot, a, record);
    hide Transition, Acceptable;
    FewerCharges(b, b');
    hide NoHeavier, OnePerTask;
    forall x: Id ensures FamilyBounded(b', x) {
      assert FamilyBounded(b, x) && Family(b', x) == Family(b, x);
    }
    forall c | c in b'.children ensures Parented(b', b'.children[c]) {
      assert Parented(b, b.children[c]);
    }
    forall x | x in b'.executions ensures Attributed(b', x) {
      assert Attributed(b, x);
    }
  }

  lemma SameBooks(b: Book, b': Book)
    requires Orderly(b) && b'.tasks == b.tasks && b'.executions == b.executions
    requires forall c :: c in b'.children ==> Parented(b, b'.children[c])
    requires forall a: Id :: FamilyBounded(b', a)
    ensures Orderly(b') && NoHeavier(b, b')
  {
    assert Charges(b') == Charges(b);
    forall a | a in b'.executions ensures Attributed(b', a) {
      assert Attributed(b, a);
    }
  }

  lemma FamilyOneMore(b: Book, child: Id, row: Child, x: Id)
    requires child !in b.children
    ensures var b' := b.(children := b.children[child := row]);
      if x == row.parent then |Family(b', x)| <= |Family(b, x)| + 1 else Family(b', x) == Family(b, x)
  {
    var b' := b.(children := b.children[child := row]);
    if x == row.parent {
      assert Family(b', x) <= Family(b, x) + {child};
      SubsetCount(Family(b', x), Family(b, x) + {child});
    }
  }

  lemma ChildAdded(b: Book, a: Id, child: Id, row: Child)
    requires Orderly(b) && child !in b.children && row.parent == a && Parented(b, row)
    requires b.executions[a].record.phase != Released && |Family(b, a)| < b.executions[a].request.childLimit
    ensures Orderly(b.(children := b.children[child := row]))
    ensures NoHeavier(b, b.(children := b.children[child := row]))
  {
    var b' := b.(children := b.children[child := row]);
    forall x: Id ensures FamilyBounded(b', x) {
      assert FamilyBounded(b, x);
      FamilyOneMore(b, child, row, x);
      hide Family;
    }
    forall c | c in b'.children ensures Parented(b, b'.children[c]) {
      assert c != child ==> Parented(b, b.children[c]);
    }
    SameBooks(b, b');
  }

  /** A family never exceeds its limit, whichever child is asked for. */
  lemma ReserveChildKeeps(b: Book, a: Id, generation: nat, child: Id, requestId: Id, request: Request)
    requires Orderly(b) && ReserveChild(b, a, generation, child, requestId, request).Some?
    ensures var b' := ReserveChild(b, a, generation, child, requestId, request).value;
      Orderly(b') && NoHeavier(b, b')
      && a in b'.executions && |Family(b', a)| <= b'.executions[a].request.childLimit
  {
    var b' := ReserveChild(b, a, generation, child, requestId, request).value;
    hide WithinFamily;
    if exists c :: c in b.children && b.children[c].parent == a && b.children[c].requestId == requestId {
      assert b' == b;
      var c :| c in b.children && b.children[c].parent == a && b.children[c].requestId == requestId;
      assert Parented(b, b.children[c]) && FamilyBounded(b, a);
    } else {
      assert b' == b.(children := b.children[child := b'.children[child]]);
      ChildAdded(b, a, child, b'.children[child]);
      assert FamilyBounded(b', a);
    }
  }

  /** What a granted child promises its caller. */
  lemma ReserveChildMeans(b: Book, a: Id, generation: nat, child: Id, requestId: Id, request: Request)
    requires Orderly(b)
    ensures var next := ReserveChild(b, a, generation, child, requestId, request);
      next.Some? ==>
        && Orderly(next.value) && next.value == b.(children := next.value.children)
        && a in b.executions && |Family(next.value, a)| <= b.executions[a].request.childLimit
        && Granted(next.value, a, generation, requestId, request)
        && forall c :: c in b.children ==> c in next.value.children && next.value.children[c] == b.children[c]
  {
    var next := ReserveChild(b, a, generation, child, requestId, request);
    if next.Some? {
      ReserveChildKeeps(b, a, generation, child, requestId, request);
      hide WithinFamily, Orderly, Family;
      if !(exists c :: c in b.children && b.children[c].parent == a && b.children[c].requestId == requestId) {
        assert next.value.children[child].parent == a;
      }
    }
  }

  /** Some child of the family carries exactly this request. */
  predicate Granted(b: Book, a: Id, generation: nat, requestId: Id, request: Request) {
    exists c :: c in b.children && b.children[c].parent == a && b.children[c].requestId == requestId
                && b.children[c].generation == generation && b.children[c].request == request
  }

  /** A child row changed in place: the family can only shrink. */
  lemma ChildRewritten(b: Book, child: Id, row: Child)
    requires Orderly(b) && child in b.children
    requires row.parent == b.children[child].parent && row.generation == b.children[child].generation
    requires row.phase != Released ==> b.children[child].phase != Released
    ensures Orderly(b.(children := b.children[child := row]))
    ensures NoHeavier(b, b.(children := b.children[child := row]))
  {
    var b' := b.(children := b.children[child := row]);
    forall x: Id ensures FamilyBounded(b', x) {
      assert FamilyBounded(b, x) && Family(b', x) <= Family(b, x);
      SubsetCount(Family(b', x), Family(b, x));
    }
    forall c | c in b'.children ensures Parented(b, b'.children[c]) {
      assert Parented(b, b.children[c]);
    }
    SameBooks(b, b');
  }

  lemma {:induction false} SubsetCount(small: set<Id>, large: set<Id>)
    requires small <= large
    ensures |small| <= |large|
    decreases |small|
  {
    if small != {} {
      var x :| x in small;
      SubsetCount(small - {x}, large - {x});
    }
  }

  lemma PrepareChildKeeps(b: Book, child: Id, identity: ProcessIdentity, applied: set<Id>)
    requires Orderly(b) && PrepareChild(b, child, identity, applied).Some?
    ensures var b' := PrepareChild(b, child, identity, applied).value; Orderly(b') && NoHeavier(b, b')
  {
    var b' := PrepareChild(b, child, identity, applied).value;
    if b' != b {
      ChildRewritten(b, child, b'.children[child]);
    }
  }

  lemma TransitionChildKeeps(b: Book, child: Id, phase: Phase, exitCode: Option<int>, signal: Option<int>)
    requires Orderly(b) && TransitionChild(b, child, phase, exitCode, signal).Some?
    ensures var b' := TransitionChild(b, child, phase, exitCode, signal).value;
      Orderly(b') && NoHeavier(b, b') && forall a: Id :: Family(b', a) <= Family(b, a)
  {
    var b' := TransitionChild(b, child, phase, exitCode, signal).value;
    if b' != b {
      ChildRewritten(b, child, b'.children[child]);
    }
  }

  // ---------------------------------------------------------------- whole runs

  datatype Op =
    | DoReserve(a: Id, request: Request, remote: Option<nat>)
    | DoTransition(boot: Id, a: Id, record: Record)
    | DoReserveChild(a: Id, generation: nat, child: Id, requestId: Id, request: Request)
    | DoPrepareChild(child: Id, identity: ProcessIdentity, applied: set<Id>)
    | DoTransitionChild(child: Id, phase: Phase, exitCode: Option<int>, signal: Option<int>)

  /** A refused operation leaves the journal as it was. */
  function Apply(b: Book, replayable: bool, capacity: Resources, op: Op): Book {
    var next := match op
      case DoReserve(a, request, remote) => Reserve(b, replayable, a, request, capacity, remote)
      case DoTransition(boot, a, record) => Transition(b, replayable, boot, a, record)
      case DoReserveChild(a, generation, child, requestId, request) =>
        ReserveChild(b, a, generation, child, requestId, request)
      case DoPrepareChild(child, identity, applied) => PrepareChild(b, child, identity, applied)
      case DoTransitionChild(child, phase, exitCode, signal) => TransitionChild(b, child, phase, exitCode, signal);
    if next.Some? then next.value else b
  }

  lemma ApplyKeeps(b: Book, replayable: bool, capacity: Resources, op: Op)
    requires Sound(b, capacity)
    ensures Sound(Apply(b, replayable, capacity, op), capacity)
  {
    hide Reserve, Transition, ReserveChild, PrepareChild, TransitionChild;
    match op {
      case DoReserve(a, request, remote) =>
        if Reserve(b, replayable, a, request, capacity, remote).Some? {
          ReserveKeeps(b, replayable, a, request, capacity, remote);
        }
      case DoTransition(boot, a, record) =>
        if Transition(b, replayable, boot, a, record).Some? {
          TransitionKeeps(b, replayable, boot, a, record);
        }
      case _ => ApplyChildKeeps(b, replayable, capacity, op);
    }
  }

  lemma ApplyChildKeeps(b: Book, replayable: bool, capacity: Resources, op: Op)
    requires Sound(b, capacity) && (op.DoReserveChild? || op.DoPrepareChild? || op.DoTransitionChild?)
    ensures Sound(Apply(b, replayable, capacity, op), capacity)
  {
    hide ReserveChild, PrepareChild, TransitionChild;
    if op.DoReserveChild? {
      if ReserveChild(b, op.a, op.generation, op.child, op.requestId, op.request).Some? {
        ReserveChildKeeps(b, op.a, op.generation, op.child, op.requestId, op.request);
      }
    } else if op.DoPrepareChild? {
      if PrepareChild(b, op.child, op.identity, op.applied).Some? {
        PrepareChildKeeps(b, op.child, op.identity, op.applied);
      }
    } else if TransitionChild(b, op.child, op.phase, op.exitCode, op.signal).Some? {
      TransitionChildKeeps(b, op.child, op.phase, op.exitCode, op.signal);
    }
  }

  /** The journal after a sequence of operations at one capacity. */
  function Replay(replayable: bool, capacity: Resources, ops: seq<Op>): Book {
    if ops == [] then EMPTY else Apply(Replay(replayable, capacity, ops[..|ops| - 1]), replayable, capacity, ops[|ops| - 1])
  }

  /**
   After any sequence of reserve, transition and child operations at a fixed capacity: unreleased
   reservations fit in CPU, RAM and every GPU, no task holds two, families stay within their limit, and a
   released parent has no unreleased child.
   */
  lemma {:induction false} JournalSound(replayable: bool, capacity: Resources, ops: seq<Op>)
    ensures Sound(Replay(replayable, capacity, ops), capacity)
  {
    if ops == [] {
      EmptySound(capacity);
    } else {
      JournalSound(replayable, capacity, ops[..|ops| - 1]);
      ApplyKeeps(Replay(replayable, capacity, ops[..|ops| - 1]), replayable, capacity, ops[|ops| - 1]);
    }
  }

  /** Reservations are never forgotten or changed in size, release is final, recovery markers are permanent. */
  ghost predicate RecordForward(b: Book, b': Book, a: Id)
    requires a in b.executions
  {
    && a in b'.executions && b'.executions[a].request == b.executions[a].request
    && var r, r' := b.executions[a].record, b'.executions[a].record;
    && r'.task == r.task && r'.generation == r.generation && r'.resources == r.resources
    && (r.phase == Released ==> r'.phase == Released)
    && r.markers <= r'.markers && (r.identity.Some? ==> r'.identity == r.identity)
    && (r.phase != Released && (exists m :: m in r.markers && m.MissingPrepared?) ==> r'.phase != Released)
  }

  lemma ApplyForward(b: Book, replayable: bool, capacity: Resources, op: Op, a: Id)
    requires a in b.executions
    ensures RecordForward(b, Apply(b, replayable, capacity, op), a)
  {
    if op.DoReserve? {
      if Reserve(b, replayable, op.a, op.request, capacity, op.remote).Some? {
        ReserveShape(b, replayable, op.a, op.request, capacity, op.remote);
        hide Reserve;
      }
    } else if op.DoTransition? {
      hide Reserve, ReserveChild, PrepareChild, TransitionChild, Family;
    } else {
      hide Reserve, Transition, WithinFamily, Unclaimed;
    }
  }

  /** The attempt is held, and marked as recovered without a preparation identity. */
  ghost predicate Unprovable(b: Book, a: Id, m: Marker) {
    && a in b.executions && b.executions[a].record.phase != Released
    && m in b.executions[a].record.markers && m.MissingPrepared?
  }

  lemma StaysUnprovable(b: Book, replayable: bool, capacity: Resources, op: Op, a: Id, m: Marker)
    requires Unprovable(b, a, m)
    ensures Unprovable(Apply(b, replayable, capacity, op), a, m)
  {
    hide Apply;
    ApplyForward(b, replayable, capacity, op, a);
  }

  /** Such an attempt can never be recorded as released, whatever follows. */
  lemma {:induction false} MissingPreparedNeverReleased(
      replayable: bool, capacity: Resources, ops: seq<Op>, more: seq<Op>, a: Id, m: Marker)
    requires Unprovable(Replay(replayable, capacity, ops), a, m)
    ensures Unprovable(Replay(replayable, capacity, ops + more), a, m)
    decreases |more|
  {
    hide Apply, Unprovable;
    if more == [] {
      assert ops + more == ops;
    } else {
      var n := |more| - 1;
      MissingPreparedNeverReleased(replayable, capacity, ops, more[..n], a, m);
      ReplayOneMore(replayable, capacity, ops, more);
      UnprovableNext(Replay(replayable, capacity, ops + more[..n]), replayable, capacity, more[n], a, m);
    }
  }

  lemma ReplayOneMore(replayable: bool, capacity: Resources, ops: seq<Op>, more: seq<Op>)
    requires more != []
    ensures var n := |more| - 1;
      Replay(replayable, capacity, ops + more)
      == Apply(Replay(replayable, capacity, ops + more[..n]), replayable, capacity, more[n])
  {
    hide Apply;
    var n := |more| - 1;
    assert (ops + more)[..|ops| + n] == ops + more[..n];
  }

  lemma UnprovableNext(b: Book, replayable: bool, capacity: Resources, op: Op, a: Id, m: Marker)
    ensures Unprovable(b, a, m) ==> Unprovable(Apply(b, replayable, capacity, op), a, m)
  {
    hide Apply;
    if Unprovable(b, a, m) {
      StaysUnprovable(b, replayable, capacity, op, a, m);
    }
  }
}
