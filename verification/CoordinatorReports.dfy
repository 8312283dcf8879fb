/** What a committed node report leaves in the tables, row by row (src/coordinator.rs `heartbeat`). */
module CoordinatorReports {
  import opened Options
  import opened Totals
  import opened ResourceVectors
  import opened CoordinatorCore
  import opened CoordinatorTables
  import opened CoordinatorRules
  import opened CoordinatorSchedule
  import opened CoordinatorSafety

  // ---------------------------------------------------------------- one key through the merge loop

  /** What a report says about one allocation, if it lists it. */
  function Listed(reports: seq<AllocationReport>, a: Id): Option<AllocationReport> {
    if reports == [] then None
    else if reports[|reports| - 1].assignment == a then Some(reports[|reports| - 1])
    else Listed(reports[..|reports| - 1], a)
  }

  predicate Odd(row: Reservation, reported: Phase, newer: bool) {
    (row.phase == Released && reported != Released && newer)
    || (row.leaseSequence == 0 && (reported == Running || reported == Authorized))
  }

  /** The reservation, fence, drain and flag of `a` after the report said `x` of it. */
  ghost predicate RowTaken(m: Merge, m': Merge, x: Option<AllocationReport>, newer: bool, a: Id) {
    var c, c' := m.db.core, m'.db.core;
    if a !in c.reservations then
      && a !in c'.reservations && (a in c'.fences <==> a in c.fences)
      && (a in m'.db.drains <==> a in m.db.drains) && (a in m'.flagged <==> a in m.flagged)
    else
      && a in c'.reservations
      && (x.None? ==> c'.reservations[a] == c.reservations[a])
      && (x.Some? ==>
            c'.reservations[a] == c.reservations[a].(
              phase := MergedPhase(c.reservations[a].phase, x.value.phase, c.reservations[a].leaseSequence > 0,
                                   a in c.fences, newer),
              observed := x.value.observed))
      && (a in c'.fences <==> a in c.fences || (x.Some? && c'.reservations[a].phase == Uncertain))
      && (a in m'.db.drains <==> a in m.db.drains || (x.Some? && c'.reservations[a].phase == Draining))
      && (a in m'.flagged <==> a in m.flagged || (x.Some? && Odd(c.reservations[a], x.value.phase, newer)))
  }

  /** The unrecognized allocations: a table of its own for what no reservation explains. */
  ghost predicate StrangerTaken(m: Merge, m': Merge, node: Id, x: Option<AllocationReport>, a: Id) {
    var u, u' := m.db.unrecognized, m'.db.unrecognized;
    && (forall n: Id :: n != node || x.None? || a in m.db.core.reservations ==>
          ((n, a) in u' <==> (n, a) in u) && ((n, a) in u ==> u'[(n, a)] == u[(n, a)]))
    && (x.Some? && a !in m.db.core.reservations ==>
          ((node, a) in u' <==> x.value.phase != Released)
          && ((node, a) in u' ==> u'[(node, a)] == x.value.generation))
  }

  ghost predicate KeysHeld(m: Merge) {
    m.db.core.reservations.Keys == m.db.core.assignments.Keys
  }

  ghost predicate Framed(m: Merge, m': Merge) {
    && KeysHeld(m') && m'.db.core.tasks == m.db.core.tasks && m'.db.core.assignments == m.db.core.assignments
    && MergeFrame(m.db, m'.db)
  }

  ghost predicate EntryTaken(m: Merge, m': Merge, node: Id, x: Option<AllocationReport>, newer: bool, a: Id) {
    && Framed(m, m') && RowTaken(m, m', x, newer, a) && StrangerTaken(m, m', node, x, a)
    && (a in m'.seen <==> a in m.seen || x.Some?)
    && (x.Some? && a in m.db.core.reservations ==>
          m.db.core.reservations[a].node == node && m.db.core.assignments[a].generation == x.value.generation)
  }

  /** One entry about a reservation. */
  function KnownEntry(m: Merge, x: AllocationReport, newer: bool): Merge
    requires x.assignment in m.db.core.reservations
  {
    var core := MergeRow(m.db.core, x.assignment, x.phase, x.observed, newer);
    Merge(m.db.(core := core, drains := if core.reservations[x.assignment].phase == Draining
                                        then m.db.drains + {x.assignment} else m.db.drains),
          m.seen + {x.assignment},
          if Odd(m.db.core.reservations[x.assignment], x.phase, newer) then m.flagged + {x.assignment} else m.flagged)
  }

  /** One entry about anything else. */
  function StrangeEntry(m: Merge, node: Id, x: AllocationReport): Merge {
    Merge(m.db.(unrecognized := if x.phase == Released then m.db.unrecognized - {(node, x.assignment)}
                                else m.db.unrecognized[(node, x.assignment) := x.generation]),
          m.seen + {x.assignment}, m.flagged)
  }

  lemma EntryShape(m: Merge, node: Id, x: AllocationReport, newer: bool)
    requires KeysHeld(m) && MergeOne(m, node, x, newer).Some?
    ensures x.assignment !in m.seen
    ensures x.assignment in m.db.core.reservations ==>
      && m.db.core.reservations[x.assignment].node == node
      && m.db.core.assignments[x.assignment].generation == x.generation
      && MergeOne(m, node, x, newer).value == KnownEntry(m, x, newer)
    ensures x.assignment !in m.db.core.reservations ==>
      MergeOne(m, node, x, newer).value == StrangeEntry(m, node, x)
  {
    hide MergeRow;
  }

  lemma KnownTaken(m: Merge, node: Id, x: AllocationReport, newer: bool, a: Id)
    requires KeysHeld(m) && x.assignment in m.db.core.reservations
    requires m.db.core.reservations[x.assignment].node == node
    requires m.db.core.assignments[x.assignment].generation == x.generation
    ensures EntryTaken(m, KnownEntry(m, x, newer), node, if x.assignment == a then Some(x) else None, newer, a)
  {
    hide MergedPhase, Odd;
  }

  lemma StrangeTaken(m: Merge, node: Id, x: AllocationReport, newer: bool, a: Id)
    requires KeysHeld(m) && x.assignment !in m.db.core.reservations
    ensures EntryTaken(m, StrangeEntry(m, node, x), node, if x.assignment == a then Some(x) else None, newer, a)
  {
    hide MergedPhase, Odd;
  }

  lemma OneTaken(m: Merge, node: Id, x: AllocationReport, newer: bool, a: Id)
    requires KeysHeld(m) && MergeOne(m, node, x, newer).Some?
    ensures EntryTaken(m, MergeOne(m, node, x, newer).value, node, if x.assignment == a then Some(x) else None, newer, a)
    ensures x.assignment !in m.seen
  {
    EntryShape(m, node, x, newer);
    hide MergeOne, EntryTaken, KnownEntry, StrangeEntry;
    if x.assignment in m.db.core.reservations {
      KnownTaken(m, node, x, newer, a);
    } else {
      StrangeTaken(m, node, x, newer, a);
    }
  }

  lemma ThenTaken(m: Merge, m1: Merge, m2: Merge, node: Id, x: Option<AllocationReport>, y: Option<AllocationReport>,
                  newer: bool, a: Id)
    requires EntryTaken(m, m1, node, x, newer, a) && EntryTaken(m1, m2, node, y, newer, a)
    requires x.None? || y.None?
    ensures EntryTaken(m, m2, node, if x.Some? then x else y, newer, a)
  {
    hide MergedPhase, Odd;
  }

  lemma {:induction false} MergeTaken(m: Merge, node: Id, reports: seq<AllocationReport>, newer: bool, a: Id)
    requires KeysHeld(m) && a !in m.seen && MergeAll(m, node, reports, newer).Some?
    ensures EntryTaken(m, MergeAll(m, node, reports, newer).value, node, Listed(reports, a), newer, a)
  {
    hide MergeOne;
    if reports != [] {
      var n := |reports| - 1;
      MergeTaken(m, node, reports[..n], newer, a);
      var before := MergeAll(m, node, reports[..n], newer).value;
      OneTaken(before, node, reports[n], newer, a);
      ThenTaken(m, before, MergeAll(m, node, reports, newer).value, node, Listed(reports[..n], a),
                if reports[n].assignment == a then Some(reports[n]) else None, newer, a);
    }
  }

  // ---------------------------------------------------------------- the report as it was sent

  ghost predicate Lists(report: NodeReport, a: Id) {
    exists i :: 0 <= i < |report.allocations| && report.allocations[i].assignment == a
  }

  lemma {:induction false} ListedSome(reports: seq<AllocationReport>, a: Id)
    ensures Listed(reports, a).Some? <==> exists i :: 0 <= i < |reports| && reports[i].assignment == a
    ensures Listed(reports, a).Some? ==> Listed(reports, a).value.assignment == a
  {
    if reports != [] {
      var n := |reports| - 1;
      ListedSome(reports[..n], a);
      if i :| 0 <= i < |reports| && reports[i].assignment == a && i < n {
        assert reports[..n][i].assignment == a;
      }
    }
  }

  /** A report that names an allocation twice is refused, so an entry is all that is said of its allocation. */
  lemma {:induction false} ListedEntry(m: Merge, node: Id, reports: seq<AllocationReport>, newer: bool, i: nat)
    requires KeysHeld(m) && m.seen == {} && MergeAll(m, node, reports, newer).Some? && i < |reports|
    ensures Listed(reports, reports[i].assignment) == Some(reports[i])
  {
    var n := |reports| - 1;
    if i < n {
      var a := reports[i].assignment;
      assert reports[..n][i] == reports[i];
      ListedEntry(m, node, reports[..n], newer, i);
      MergeTaken(m, node, reports[..n], newer, a);
      var before := MergeAll(m, node, reports[..n], newer).value;
      OneTaken(before, node, reports[n], newer, a);
    }
  }

  /** The owning node left out what it must have started, or anything at all while it answers for a session. */
  ghost predicate Omitted(db: Database, report: NodeReport, a: Id) {
    && a in db.core.reservations && !Lists(report, a)
    && db.core.reservations[a].node == report.node && db.core.reservations[a].phase != Released
    && (report.node in db.sessions || db.core.reservations[a].leaseSequence > 0
        || db.core.reservations[a].phase == Prepared)
  }

  /** How far along a phase is; offers and preparations may be reported in either order. */
  function Stage(phase: Phase): nat {
    match phase
    case Authorized => 1
    case Running => 2
    case Draining => 3
    case _ => 0
  }

  /** The phase after a report: nothing that goes forward goes back, and doubt always wins over progress. */
  ghost predicate PhaseFollows(row: Reservation, fenced: bool, reported: Phase, newer: bool, after: Phase) {
    if reported == Released then after == Released
    else if reported == Uncertain || (row.leaseSequence == 0 && reported in {Running, Authorized}) then after == Uncertain
    else if row.phase == Released then after == (if newer then Uncertain else Released)
    else if fenced then after == Uncertain
    else after == (if Stage(row.phase) > Stage(reported) then row.phase else reported)
  }

  lemma PhaseExact(row: Reservation, fenced: bool, reported: Phase, newer: bool)
    ensures PhaseFollows(row, fenced, reported, newer,
                         MergedPhase(row.phase, reported, row.leaseSequence > 0, fenced, newer))
  {
  }

  /** One entry of a committed report: the node's own observation is stored as it was sent. */
  ghost predicate EntryRecorded(db: Database, db': Database, report: NodeReport, x: AllocationReport) {
    var a := x.assignment;
    if a in db.core.reservations then
      && a in db.core.assignments && a in db'.core.reservations
      && var row, row' := db.core.reservations[a], db'.core.reservations[a];
      && row.node == report.node && db.core.assignments[a].generation == x.generation
      && row' == row.(phase := row'.phase, observed := x.observed)
      && PhaseFollows(row, a in db.core.fences, x.phase, Newer(db, report), row'.phase)
    else
      && ((report.node, a) in db'.unrecognized <==> x.phase != Released)
      && ((report.node, a) in db'.unrecognized ==> db'.unrecognized[(report.node, a)] == x.generation)
  }

  /** A row the report says nothing about: suspected if it should have been listed, untouched otherwise. */
  ghost predicate SilenceRecorded(db: Database, db': Database, report: NodeReport, a: Id)
    requires a in db.core.reservations
  {
    a in db'.core.reservations
    && db'.core.reservations[a] == if Omitted(db, report, a)
                                   then db.core.reservations[a].(phase := Uncertain, observed := None)
                                   else db.core.reservations[a]
  }

  /** Marks: a row is fenced, or asked to drain, for a reason that stands in the report. */
  ghost predicate MarksRecorded(db: Database, db': Database, report: NodeReport) {
    && (forall a :: a in db'.core.fences <==>
          || a in db.core.fences || Omitted(db, report, a)
          || (Lists(report, a) && a in db'.core.reservations && db'.core.reservations[a].phase == Uncertain))
    && (forall a :: a in db'.drains <==>
          || a in db.drains
          || (Lists(report, a) && a in db'.core.reservations && db'.core.reservations[a].phase == Draining))
  }

  ghost predicate ReportTaken(db: Database, db': Database, report: NodeReport) {
    && db'.core.tasks == db.core.tasks && db'.core.assignments == db.core.assignments
    && db'.core.reservations.Keys == db.core.reservations.Keys
    && (forall i :: 0 <= i < |report.allocations| ==> EntryRecorded(db, db', report, report.allocations[i]))
    && (forall a :: a in db.core.reservations && !Lists(report, a) ==> SilenceRecorded(db, db', report, a))
    && MarksRecorded(db, db', report)
  }

  /** Nothing contradicted, nothing missing, and nothing on the node that the tables do not explain. */
  ghost predicate Reconciled(db: Database, db': Database, report: NodeReport) {
    && (forall i :: 0 <= i < |report.allocations| && report.allocations[i].assignment in db.core.reservations ==>
          !Odd(db.core.reservations[report.allocations[i].assignment], report.allocations[i].phase, Newer(db, report)))
    && (forall a :: !Omitted(db, report, a))
    && (forall k :: k in db'.unrecognized ==> k.0 != report.node)
  }

  /** The merge loop's result, and what is done about the allocations it did not see. */
  ghost predicate MergedAs(db: Database, cfg: Config, report: NodeReport, now: nat, m: Merge, heard: Heard) {
    && MergeAll(Merge(PutNode(db, report, now), {}, {}), report.node, report.allocations, Newer(db, report)) == Some(m)
    && var missing := Missing(m.db, report.node, report.node in db.sessions, m.seen);
    && heard.db.core == FenceMissing(m.db.core, missing)
    && heard.db.drains == m.db.drains && heard.db.unrecognized == m.db.unrecognized
    && (heard.clean <==> m.flagged == {} && missing == {} && forall k :: k in m.db.unrecognized ==> k.0 != report.node)
  }

  lemma ReportShape(db: Database, cfg: Config, report: NodeReport, now: nat) returns (m: Merge)
    requires MergeReport(db, cfg, report, now).Some?
    ensures MergedAs(db, cfg, report, now, m, MergeReport(db, cfg, report, now).value)
  {
    hide MergeAll, Missing, FenceMissing;
    m := MergeAll(Merge(PutNode(db, report, now), {}, {}), report.node, report.allocations, Newer(db, report)).value;
  }

  /** What the loop did for one key. */
  lemma KeyTaken(db: Database, cfg: Config, report: NodeReport, now: nat, m: Merge, heard: Heard, a: Id)
    requires Keyed(db.core) && MergedAs(db, cfg, report, now, m, heard)
    ensures EntryTaken(Merge(PutNode(db, report, now), {}, {}), m, report.node, Listed(report.allocations, a),
                       Newer(db, report), a)
    ensures Listed(report.allocations, a).Some? <==> Lists(report, a)
    ensures a in m.seen <==> Lists(report, a)
  {
    hide MergeAll, RowTaken, StrangerTaken, Framed;
    MergeTaken(Merge(PutNode(db, report, now), {}, {}), report.node, report.allocations, Newer(db, report), a);
    ListedSome(report.allocations, a);
  }

  lemma MissingExact(db: Database, cfg: Config, report: NodeReport, now: nat, m: Merge, heard: Heard, a: Id)
    requires Keyed(db.core) && MergedAs(db, cfg, report, now, m, heard)
    ensures a in Missing(m.db, report.node, report.node in db.sessions, m.seen) <==> Omitted(db, report, a)
  {
    KeyTaken(db, cfg, report, now, m, heard, a);
    hide MergedAs, StrangerTaken, MergedPhase, Odd;
  }

  /** The row of one key once the missing ones are suspected. */
  lemma RowAfter(db: Database, cfg: Config, report: NodeReport, now: nat, m: Merge, heard: Heard, a: Id)
    requires Keyed(db.core) && MergedAs(db, cfg, report, now, m, heard)
    ensures a in heard.db.core.reservations <==> a in m.db.core.reservations
    ensures a in m.db.core.reservations ==>
      heard.db.core.reservations[a] == if Omitted(db, report, a)
                                       then m.db.core.reservations[a].(phase := Uncertain, observed := None)
                                       else m.db.core.reservations[a]
    ensures a in heard.db.core.fences <==> a in m.db.core.fences || Omitted(db, report, a)
  {
    MissingExact(db, cfg, report, now, m, heard, a);
    hide Omitted, Missing, MergeAll;
  }

  lemma SilenceTaken(db: Database, cfg: Config, report: NodeReport, now: nat, m: Merge, heard: Heard, a: Id)
    requires Keyed(db.core) && MergedAs(db, cfg, report, now, m, heard)
    requires a in db.core.reservations && !Lists(report, a)
    ensures SilenceRecorded(db, heard.db, report, a)
  {
    KeyTaken(db, cfg, report, now, m, heard, a);
    RowAfter(db, cfg, report, now, m, heard, a);
    hide MergedAs, Omitted, Lists, StrangerTaken, Framed;
  }

  lemma EntryStored(db: Database, cfg: Config, report: NodeReport, now: nat, m: Merge, heard: Heard, i: nat)
    requires Keyed(db.core) && MergedAs(db, cfg, report, now, m, heard) && i < |report.allocations|
    ensures EntryRecorded(db, heard.db, report, report.allocations[i])
  {
    var x := report.allocations[i];
    var a := x.assignment;
    assert heard.db.unrecognized == m.db.unrecognized;
    ListedEntry(Merge(PutNode(db, report, now), {}, {}), report.node, report.allocations, Newer(db, report), i);
    KeyTaken(db, cfg, report, now, m, heard, a);
    RowAfter(db, cfg, report, now, m, heard, a);
    if a in db.core.reservations {
      PhaseExact(db.core.reservations[a], a in db.core.fences, x.phase, Newer(db, report));
    }
    assert Lists(report, a) && !Omitted(db, report, a);
    hide MergedAs, Omitted, Lists, Framed, MergedPhase, PhaseFollows, Odd, Newer, Listed;
  }

  lemma MarksTaken(db: Database, cfg: Config, report: NodeReport, now: nat, m: Merge, heard: Heard)
    requires Keyed(db.core) && MergedAs(db, cfg, report, now, m, heard)
    ensures MarksRecorded(db, heard.db, report)
  {
    assert heard.db.drains == m.db.drains;
    forall a: Id
      ensures a in heard.db.core.fences <==>
        || a in db.core.fences || Omitted(db, report, a)
        || (Lists(report, a) && a in heard.db.core.reservations && heard.db.core.reservations[a].phase == Uncertain)
      ensures a in heard.db.drains <==>
        || a in db.drains
        || (Lists(report, a) && a in heard.db.core.reservations && heard.db.core.reservations[a].phase == Draining)
    {
      MarkTaken(db, cfg, report, now, m, heard, a);
    }
  }

  lemma MarkTaken(db: Database, cfg: Config, report: NodeReport, now: nat, m: Merge, heard: Heard, a: Id)
    requires Keyed(db.core) && MergedAs(db, cfg, report, now, m, heard)
    ensures a in heard.db.core.fences <==>
      || a in db.core.fences || Omitted(db, report, a)
      || (Lists(report, a) && a in heard.db.core.reservations && heard.db.core.reservations[a].phase == Uncertain)
    ensures a in heard.db.drains <==>
      || a in db.drains
      || (Lists(report, a) && a in heard.db.core.reservations && heard.db.core.reservations[a].phase == Draining)
  {
    assert heard.db.drains == m.db.drains;
    KeyTaken(db, cfg, report, now, m, heard, a);
    RowAfter(db, cfg, report, now, m, heard, a);
    assert Omitted(db, report, a) ==> !Lists(report, a);
    hide MergedAs, Omitted, Lists, StrangerTaken, MergedPhase, Odd;
  }

  lemma CleanExact(db: Database, cfg: Config, report: NodeReport, now: nat, m: Merge, heard: Heard)
    requires Keyed(db.core) && MergedAs(db, cfg, report, now, m, heard)
    ensures heard.clean <==> Reconciled(db, heard.db, report)
  {
    var missing := Missing(m.db, report.node, report.node in db.sessions, m.seen);
    forall a: Id ensures a in missing <==> Omitted(db, report, a) {
      MissingExact(db, cfg, report, now, m, heard, a);
    }
    FlagsExact(db, cfg, report, now, m, heard);
    hide Omitted, Missing, MergeAll, Odd;
  }

  lemma FlagsExact(db: Database, cfg: Config, report: NodeReport, now: nat, m: Merge, heard: Heard)
    requires Keyed(db.core) && MergedAs(db, cfg, report, now, m, heard)
    ensures m.flagged == {} <==>
      forall i :: 0 <= i < |report.allocations| && report.allocations[i].assignment in db.core.reservations ==>
        !Odd(db.core.reservations[report.allocations[i].assignment], report.allocations[i].phase, Newer(db, report))
  {
    forall i | 0 <= i < |report.allocations| && report.allocations[i].assignment in db.core.reservations
      ensures Odd(db.core.reservations[report.allocations[i].assignment], report.allocations[i].phase, Newer(db, report))
        <==> report.allocations[i].assignment in m.flagged
    {
      ListedEntry(Merge(PutNode(db, report, now), {}, {}), report.node, report.allocations, Newer(db, report), i);
      KeyTaken(db, cfg, report, now, m, heard, report.allocations[i].assignment);
    }
    if m.flagged != {} {
      var a :| a in m.flagged;
      KeyTaken(db, cfg, report, now, m, heard, a);
      assert Lists(report, a) && a in db.core.reservations;
    }
  }

  /** A committed report leaves exactly what it said, and its verdict is exactly whether it explained everything. */
  lemma ReportExact(db: Database, cfg: Config, report: NodeReport, now: nat)
    requires Authority(db.core) && MergeReport(db, cfg, report, now).Some?
    ensures var heard := MergeReport(db, cfg, report, now).value;
      ReportTaken(db, heard.db, report) && (heard.clean <==> Reconciled(db, heard.db, report))
  {
    var heard := MergeReport(db, cfg, report, now).value;
    var m := ReportShape(db, cfg, report, now);
    MergeReportRoutine(db, cfg, report, now);
    ReportTasks(db, cfg, report, now, m, heard);
    hide MergeReport, Routine, MergedAs, EntryRecorded, SilenceRecorded, MarksRecorded, Reconciled;
    forall i | 0 <= i < |report.allocations| ensures EntryRecorded(db, heard.db, report, report.allocations[i]) {
      EntryStored(db, cfg, report, now, m, heard, i);
    }
    forall a | a in db.core.reservations && !Lists(report, a) ensures SilenceRecorded(db, heard.db, report, a) {
      SilenceTaken(db, cfg, report, now, m, heard, a);
    }
    MarksTaken(db, cfg, report, now, m, heard);
    CleanExact(db, cfg, report, now, m, heard);
  }

  lemma ReportTasks(db: Database, cfg: Config, report: NodeReport, now: nat, m: Merge, heard: Heard)
    requires Keyed(db.core) && MergedAs(db, cfg, report, now, m, heard)
    ensures heard.db.core.tasks == db.core.tasks && heard.db.core.assignments == db.core.assignments
    ensures heard.db.core.reservations.Keys == db.core.reservations.Keys
  {
    KeyTaken(db, cfg, report, now, m, heard, 0);
    hide MergeAll, RowTaken, StrangerTaken, Missing;
  }

  // ---------------------------------------------------------------- what the node is then charged

  function ObservedAmount(observed: Option<Resources>, d: Dim): nat {
    if observed.Some? then Amount(observed.value, d) else 0
  }

  /** Listed and not released: the larger of what is reserved and what the node says it uses. */
  ghost function ListedCharges(db': Database, report: NodeReport, d: Dim): map<Id, nat> {
    map a | a in db'.core.reservations && Lists(report, a) && Listed(report.allocations, a).Some?
            && db'.core.reservations[a].phase != Released
      :: Max(Amount(db'.core.reservations[a].resources, d), ObservedAmount(Listed(report.allocations, a).value.observed, d))
  }

  /** Missing: what is reserved, and no observation any more. */
  ghost function OmittedCharges(db: Database, report: NodeReport, d: Dim): map<Id, nat> {
    map a | a in db.core.reservations && Omitted(db, report, a) :: Amount(db.core.reservations[a].resources, d)
  }

  /** Unlisted because it was never started: charged as before. */
  ghost function SilentCharges(db: Database, report: NodeReport, d: Dim): map<Id, nat> {
    map a | a in db.core.reservations && !Lists(report, a) && !Omitted(db, report, a)
            && db.core.reservations[a].node == report.node && db.core.reservations[a].phase != Released
      :: Max(Amount(db.core.reservations[a].resources, d), ObservedAmount(db.core.reservations[a].observed, d))
  }

  /** After a committed report the node is charged for what it reported, what it left out and what it never started. */
  lemma ReportCharge(db: Database, cfg: Config, report: NodeReport, now: nat, d: Dim)
    requires Authority(db.core) && MergeReport(db, cfg, report, now).Some?
    ensures var db' := MergeReport(db, cfg, report, now).value.db;
      var total := Total(ListedCharges(db', report, d)) + Total(OmittedCharges(db, report, d))
                   + Total(SilentCharges(db, report, d));
      && TotalIn(NodeRows(db', report.node), d) == total
      && (NodeCharge(db', report.node).Some? ==> Amount(NodeCharge(db', report.node).value, d) == total)
  {
    var db' := MergeReport(db, cfg, report, now).value.db;
    ReportExact(db, cfg, report, now);
    ListedOnce(db, cfg, report, now);
    if NodeCharge(db', report.node).Some? {
      NodeChargeExact(db', report.node);
    }
    hide MergeReport, NodeCharge, NodeRows, MarksRecorded, Authority, Reconciled;
    ChargeColumns(db, db', report, d);
    var listed, omitted, silent := ListedCharges(db', report, d), OmittedCharges(db, report, d), SilentCharges(db, report, d);
    hide ListedCharges, OmittedCharges, SilentCharges;
    TotalUnion(listed, omitted);
    TotalUnion(listed + omitted, silent);
  }

  /** Every entry is the one the report is read by. */
  lemma ListedOnce(db: Database, cfg: Config, report: NodeReport, now: nat)
    requires Authority(db.core) && MergeReport(db, cfg, report, now).Some?
    ensures forall i :: 0 <= i < |report.allocations| ==>
      Listed(report.allocations, report.allocations[i].assignment) == Some(report.allocations[i])
  {
    var m := ReportShape(db, cfg, report, now);
    forall i | 0 <= i < |report.allocations|
      ensures Listed(report.allocations, report.allocations[i].assignment) == Some(report.allocations[i])
    {
      ListedEntry(Merge(PutNode(db, report, now), {}, {}), report.node, report.allocations, Newer(db, report), i);
    }
  }

  lemma ChargeColumns(db: Database, db': Database, report: NodeReport, d: Dim)
    requires ReportTaken(db, db', report)
    requires forall i :: 0 <= i < |report.allocations| ==>
      Listed(report.allocations, report.allocations[i].assignment) == Some(report.allocations[i])
    ensures var listed, omitted, silent :=
        ListedCharges(db', report, d), OmittedCharges(db, report, d), SilentCharges(db, report, d);
      && listed.Keys !! omitted.Keys && (listed + omitted).Keys !! silent.Keys
      && Column(NodeRows(db', report.node), d) == listed + omitted + silent
  {
    var listed, omitted, silent :=
      ListedCharges(db', report, d), OmittedCharges(db, report, d), SilentCharges(db, report, d);
    forall a: Id ensures KeyCharged(Column(NodeRows(db', report.node), d), listed, omitted, silent, a) {
      KeyCharge(db, db', report, d, a);
    }
    hide ListedCharges, OmittedCharges, SilentCharges, NodeRows, ReportTaken, Listed;
    KeysCharged(Column(NodeRows(db', report.node), d), listed, omitted, silent);
  }

  /** A key is in at most one part, and in the whole with the same amount. */
  ghost predicate KeyCharged(whole: map<Id, nat>, x: map<Id, nat>, y: map<Id, nat>, z: map<Id, nat>, a: Id) {
    && (a in whole <==> a in x || a in y || a in z)
    && (a in x ==> a !in y && a !in z && whole[a] == x[a])
    && (a in y ==> a !in z && whole[a] == y[a])
    && (a in z ==> whole[a] == z[a])
  }

  lemma KeysCharged(whole: map<Id, nat>, x: map<Id, nat>, y: map<Id, nat>, z: map<Id, nat>)
    requires forall a: Id :: KeyCharged(whole, x, y, z, a)
    ensures x.Keys !! y.Keys && (x + y).Keys !! z.Keys && whole == x + y + z
  {
    forall a: Id
      ensures (a in whole <==> a in x || a in y || a in z) && (a in x ==> a !in y && a !in z) && (a in y ==> a !in z)
    {
      assert KeyCharged(whole, x, y, z, a);
    }
    forall a | a in whole ensures whole[a] == (x + y + z)[a] {
      assert KeyCharged(whole, x, y, z, a);
    }
  }

  lemma KeyCharge(db: Database, db': Database, report: NodeReport, d: Dim, a: Id)
    requires ReportTaken(db, db', report)
    requires forall i :: 0 <= i < |report.allocations| ==>
      Listed(report.allocations, report.allocations[i].assignment) == Some(report.allocations[i])
    ensures KeyCharged(Column(NodeRows(db', report.node), d), ListedCharges(db', report, d), OmittedCharges(db, report, d),
                       SilentCharges(db, report, d), a)
  {
    if Lists(report, a) {
      var i :| 0 <= i < |report.allocations| && report.allocations[i].assignment == a;
      assert EntryRecorded(db, db', report, report.allocations[i]);
      assert a in db'.core.reservations <==> a in db.core.reservations;
      hide ReportTaken;
      ListedKey(db, db', report, d, report.allocations[i]);
    } else {
      assert a in db.core.reservations ==> SilenceRecorded(db, db', report, a);
      assert a in db'.core.reservations <==> a in db.core.reservations;
      hide ReportTaken;
      SilentKey(db, db', report, d, a);
    }
  }

  lemma ListedKey(db: Database, db': Database, report: NodeReport, d: Dim, x: AllocationReport)
    requires EntryRecorded(db, db', report, x) && Lists(report, x.assignment)
    requires Listed(report.allocations, x.assignment) == Some(x)
    requires x.assignment in db'.core.reservations <==> x.assignment in db.core.reservations
    ensures KeyCharged(Column(NodeRows(db', report.node), d), ListedCharges(db', report, d), OmittedCharges(db, report, d),
                       SilentCharges(db, report, d), x.assignment)
  {
    hide PhaseFollows, Listed;
  }

  lemma SilentKey(db: Database, db': Database, report: NodeReport, d: Dim, a: Id)
    requires !Lists(report, a) && (a in db.core.reservations ==> SilenceRecorded(db, db', report, a))
    requires a in db'.core.reservations <==> a in db.core.reservations
    ensures KeyCharged(Column(NodeRows(db', report.node), d), ListedCharges(db', report, d), OmittedCharges(db, report, d),
                       SilentCharges(db, report, d), a)
  {
    hide Listed;
  }
}
