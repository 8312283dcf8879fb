/**
 The three-lock namespace protocol (src/namespace.rs) as an interleaving of processes. Each action is one
 lock operation, one read, or one atomic rename of the persisted state; a process can die between any two.
 */
module Namespaces {
  import opened Options

  type Pid = nat

  datatype Identity = Identity(namespace: nat, session: Option<nat>)

  datatype Phase = Ready | Fencing | Initializing | Named(name: string)

  datatype Recovery = Recovery(identity: Identity, phase: Phase)

  /** Where one process stands. The comments name the locks it holds: owner (O), admission (A), lifecycle (L). */
  datatype Position =
    | Idle
    | Entering(expected: Option<Identity>)                    // A shared
    | Founding(expected: Option<Identity>)                    // none: gave up shared admission to install metadata
    | Reviewing(expected: Option<Identity>)                   // A exclusive
    | Admitted(expected: Option<Identity>, founder: bool)     // A shared, or exclusive for a founder
    | Checking(expected: Option<Identity>, founder: bool)     // A as before, L shared
    | Verified(expected: Option<Identity>, identity: Identity, founder: bool)  // A as before, L shared
    | Guarded(identity: Identity)                             // L shared: an ordinary guard
    | Owning                                                  // O: an owner handle
    | Preparing                                               // O: the first half of begin_maintenance
    | Maintaining                                             // O, A exclusive
    | Seizing                                                 // O, A exclusive, L exclusive
    | Exclusive(identity: Identity, borrows: nat, maintained: bool)  // the same: an exclusive guard
    | Writing(draft: Recovery, goal: Position, moved: bool)   // the locks of `goal`: about to persist `draft`
    | Closing(identity: Identity)                             // O, A exclusive, L exclusive: activate, `ready` persisted
    | Gap(identity: Identity)                                 // O, A exclusive: between the two lifecycle locks
    | Rejoined(identity: Identity)                            // O, A exclusive, L shared
    | Active(identity: Identity)                              // O, L shared: what activate returns

  datatype Mode = Free | Shared | Sole

  function Owner(p: Position): Mode {
    match p
    case Owning | Preparing | Maintaining | Seizing | Exclusive(_, _, _) | Closing(_) => Sole
    case Gap(_) | Rejoined(_) | Active(_) | Writing(_, _, _) => Sole
    case _ => Free
  }

  function Admission(p: Position): Mode {
    match p
    case Entering(_) => Shared
    case Admitted(_, founder) => if founder then Sole else Shared
    case Checking(_, founder) => if founder then Sole else Shared
    case Verified(_, _, founder) => if founder then Sole else Shared
    case Reviewing(_) | Maintaining | Seizing | Exclusive(_, _, _) | Closing(_) | Gap(_) | Rejoined(_) => Sole
    case Writing(_, _, _) => Sole
    case _ => Free
  }

  function Lifecycle(p: Position): Mode {
    match p
    case Checking(_, _) | Verified(_, _, _) | Guarded(_) | Rejoined(_) | Active(_) => Shared
    case Seizing | Exclusive(_, _, _) | Closing(_) => Sole
    case Writing(_, goal, _) => if goal.Maintaining? then Free else Sole
    case _ => Free
  }

  predicate Tolerates(x: Mode, y: Mode) {
    x == Free || y == Free || (x == Shared && y == Shared)
  }

  /** `flock` semantics, for all three files. */
  predicate Compatible(p: Position, q: Position) {
    Tolerates(Owner(p), Owner(q)) && Tolerates(Admission(p), Admission(q)) && Tolerates(Lifecycle(p), Lifecycle(q))
  }

  // ---------------------------------------------------------------- the machine

  datatype World = World(disk: Option<Recovery>, at: map<Pid, Position>)

  const START := World(None, map[])

  function At(w: World, t: Pid): Position {
    if t in w.at then w.at[t] else Idle
  }

  datatype Action =
    | Acquire(expected: Option<Identity>)   // take admission, shared
    | Look                                  // metadata present? otherwise drop admission to install it
    | Found                                 // take admission, exclusive
    | Install(uuid: nat)                    // persist the initial state unless somebody already did
    | Join                                  // take lifecycle, shared
    | Check                                 // read: phase and expected identity
    | Deliver                               // drop admission and return the guard
    | TakeOwner | BeginMaintenance          // take owner, exclusive
    | CloseAdmission                        // take admission, exclusive
    | RecordIntent(uuid: nat)               // read, to persist `fencing`
    | SetPhase(phase: Phase)                // read, to persist another phase
    | Seize                                 // take lifecycle, exclusive
    | Adopt(uuid: nat)                      // read the identity, installing it if absent
    | Borrow | Repay                        // clones of the exclusive guard
    | InitializeSession(uuid: nat, session: nat)
    | Activate
    | Persist                               // the atomic rename
    | DropExclusive                         // activate closes the exclusive lifecycle
    | Rejoin                                // activate takes lifecycle, shared
    | Finish                                // activate checks, and drops admission
    | DropMaintenance | DropGuard
    | Quit                                  // error, timeout, drop of everything, or death: all locks go

  function Initial(uuid: nat): Recovery {
    Recovery(Identity(uuid, None), Ready)
  }

  /** The position `t` moves to, and the disk after the move; `None` when the action is not its next one. */
  function Moved(w: World, p: Position, a: Action): Option<(Option<Recovery>, Position)> {
    match a
    case Quit => Some((w.disk, Idle))
    case Acquire(expected) => if p.Idle? then Some((w.disk, Entering(expected))) else None
    case Look => if !p.Entering? then None
                 else Some((w.disk, if w.disk.Some? then Admitted(p.expected, false) else Founding(p.expected)))
    case Found => if p.Founding? then Some((w.disk, Reviewing(p.expected))) else None
    case Install(uuid) =>
      if !p.Reviewing? then None
      else Some((if w.disk.Some? then w.disk else Some(Initial(uuid)), Admitted(p.expected, true)))
    case Join => if p.Admitted? then Some((w.disk, Checking(p.expected, p.founder))) else None
    case Check =>
      if !p.Checking? then None
      else if w.disk.Some? && w.disk.value.phase == Ready
              && (p.expected.None? || p.expected.value == w.disk.value.identity)
      then Some((w.disk, Verified(p.expected, w.disk.value.identity, p.founder)))
      else Some((w.disk, Idle))
    case Deliver => if p.Verified? then Some((w.disk, Guarded(p.identity))) else None
    case TakeOwner => if p.Idle? then Some((w.disk, Owning)) else None
    case BeginMaintenance => if p.Idle? then Some((w.disk, Preparing)) else None
    case CloseAdmission => if p.Preparing? then Some((w.disk, Maintaining)) else None
    case RecordIntent(uuid) =>
      if !(p.Maintaining? || (p.Exclusive? && p.maintained)) then None
      else
        var state := if w.disk.Some? then w.disk.value else Initial(uuid);
        Some((w.disk, Writing(state.(phase := Fencing), p, false)))
    case SetPhase(phase) =>
      if !(p.Maintaining? || (p.Exclusive? && p.maintained)) || w.disk.None? then None
      else Some((w.disk, Writing(w.disk.value.(phase := phase), p, false)))
    case Seize => if p.Maintaining? then Some((w.disk, Seizing)) else None
    case Adopt(uuid) =>
      if !p.Seizing? then None
      else
        var state := if w.disk.Some? then w.disk.value else Initial(uuid);
        Some((Some(state), Exclusive(state.identity, 0, true)))
    case Borrow => if p.Exclusive? then Some((w.disk, p.(borrows := p.borrows + 1))) else None
    case Repay => if p.Exclusive? && p.borrows > 0 then Some((w.disk, p.(borrows := p.borrows - 1))) else None
    case InitializeSession(uuid, session) =>
      if !(p.Exclusive? && p.maintained && p.borrows == 0) || w.disk.None? then None
      else
        var identity := Identity(uuid, Some(session));
        Some((w.disk, Writing(Recovery(identity, Initializing), Exclusive(identity, 0, true), true)))
    case Activate =>
      if !(p.Exclusive? && p.maintained && p.borrows == 0) || w.disk.None? then None
      else Some((w.disk, Writing(w.disk.value.(phase := Ready), Closing(p.identity), false)))
    case Persist => if p.Writing? then Some((Some(p.draft), p.goal)) else None
    case DropExclusive => if p.Closing? then Some((w.disk, Gap(p.identity))) else None
    case Rejoin => if p.Gap? then Some((w.disk, Rejoined(p.identity))) else None
    case Finish =>
      if !p.Rejoined? then None
      else if w.disk == Some(Recovery(p.identity, Ready)) then Some((w.disk, Active(p.identity)))
      else Some((w.disk, Idle))
    case DropMaintenance =>
      if p.Exclusive? && p.maintained then Some((w.disk, p.(maintained := false))) else None
    case DropGuard =>
      if p.Exclusive? && p.maintained && p.borrows == 0 then Some((w.disk, Maintaining))
      else if p.Active? then Some((w.disk, Owning))
      else None
  }

  /** A lock request is granted only when no other process stands in its way. */
  ghost predicate Granted(w: World, t: Pid, p: Position) {
    forall u: Pid :: u != t ==> Compatible(p, At(w, u))
  }

  ghost predicate Step(w: World, t: Pid, a: Action, w': World) {
    var moved := Moved(w, At(w, t), a);
    && moved.Some? && Granted(w, t, moved.value.1)
    && w' == World(moved.value.0, w.at[t := moved.value.1])
  }

  // ---------------------------------------------------------------- what always holds

  /** The guard a process exposes to its caller. A guard handed to `initialize_session` by value is not exposed. */
  function LiveGuard(p: Position): Option<Identity> {
    match p
    case Guarded(identity) => Some(identity)
    case Exclusive(identity, _, _) => Some(identity)
    case Closing(identity) => Some(identity)
    case Active(identity) => Some(identity)
    case Writing(_, goal, moved) =>
      if goal.Exclusive? && !moved then Some(goal.identity)
      else if goal.Closing? then Some(goal.identity) else None
    case _ => None
  }

  predicate IsExclusiveGuard(p: Position) {
    LiveGuard(p).Some? && Lifecycle(p) == Sole
  }

  /** The disk holds this identity. */
  predicate Names(disk: Option<Recovery>, identity: Identity) {
    disk.Some? && disk.value.identity == identity
  }

  /** What a position says about the disk. */
  predicate Fact(p: Position, disk: Option<Recovery>) {
    match p
    case Verified(expected, identity, _) =>
      disk == Some(Recovery(identity, Ready)) && (expected.None? || expected.value == identity)
    case Guarded(identity) => Names(disk, identity)
    case Exclusive(identity, _, _) => Names(disk, identity)
    case Active(identity) => Names(disk, identity)
    case Closing(identity) => disk == Some(Recovery(identity, Ready))
    case Gap(identity) => disk == Some(Recovery(identity, Ready))
    case Rejoined(identity) => disk == Some(Recovery(identity, Ready))
    case Writing(draft, goal, moved) =>
      match goal {
        case Maintaining => disk.Some? ==> draft.identity == disk.value.identity
        case Exclusive(identity, borrows, _) =>
          disk.Some? && draft.identity == identity
          && (if moved then borrows == 0 else identity == disk.value.identity)
        case Closing(identity) => draft == Recovery(identity, Ready) && Names(disk, identity)
        case _ => false
      }
    case _ => true
  }

  /** Nobody else can be inside: the exclusive half of maintenance, and activate's gap up to its end. */
  predicate Sealed(p: Position) {
    Lifecycle(p) == Sole || p.Gap? || p.Rejoined?
  }

  ghost predicate Inv(w: World) {
    && (forall t: Pid, u: Pid :: t != u ==> Compatible(At(w, t), At(w, u)))
    && (forall t: Pid :: Fact(At(w, t), w.disk))
    && (forall t: Pid, u: Pid :: t != u && Sealed(At(w, t)) ==> Lifecycle(At(w, u)) == Free)
  }

  lemma StartInv()
    ensures Inv(START)
  {
  }

  /** The disk is rewritten only under exclusive admission, and its identity only under exclusive lifecycle. */
  lemma RewriteGuarded(w: World, p: Position, a: Action)
    requires Fact(p, w.disk) && Moved(w, p, a).Some?
    ensures var (disk, q) := Moved(w, p, a).value;
      && Fact(q, disk)
      && (disk != w.disk ==> Admission(p) == Sole && disk.Some?)
      && (disk != w.disk && w.disk.Some? && disk.value.identity != w.disk.value.identity ==> Lifecycle(p) == Sole)
  {
  }

  /** So no other process is contradicted by a rewrite. */
  lemma FactStable(p: Position, q: Position, disk: Option<Recovery>, disk': Option<Recovery>)
    requires Compatible(p, q) && Fact(q, disk) && Admission(p) == Sole && disk'.Some?
    requires disk.Some? && disk'.value.identity != disk.value.identity ==> Lifecycle(p) == Sole
    ensures Fact(q, disk')
  {
  }

  /** A new lifecycle lock is taken only with admission in hand; sealing needs the lock or a sealed position. */
  lemma LifecycleNeedsAdmission(w: World, p: Position, a: Action)
    requires Fact(p, w.disk) && Moved(w, p, a).Some?
    ensures var q := Moved(w, p, a).value.1;
      && (Lifecycle(q) != Free ==> Lifecycle(p) != Free || Admission(q) != Free)
      && (Sealed(q) ==> Sealed(p) || Lifecycle(q) == Sole)
  {
  }

  lemma SealedHoldsAdmission(p: Position)
    ensures Sealed(p) ==> Admission(p) == Sole
  {
  }

  lemma SealKept(w: World, t: Pid, a: Action, w': World, u: Pid)
    requires Inv(w) && Step(w, t, a, w') && u != t
    ensures Sealed(At(w', t)) ==> Lifecycle(At(w, u)) == Free
    ensures Sealed(At(w, u)) ==> Lifecycle(At(w', t)) == Free
  {
    var p, q, other := At(w, t), At(w', t), At(w, u);
    LifecycleNeedsAdmission(w, p, a);
    SealedHoldsAdmission(other);
    assert Compatible(q, other);
  }

  lemma StepKeeps(w: World, t: Pid, a: Action, w': World)
    requires Inv(w) && Step(w, t, a, w')
    ensures Inv(w')
  {
    var p := At(w, t);
    assert Fact(p, w.disk);
    RewriteGuarded(w, p, a);
    assert forall u: Pid :: At(w', u) == if u == t then At(w', t) else At(w, u);
    forall u: Pid ensures Fact(At(w', u), w'.disk) {
      if u != t {
        assert Fact(At(w, u), w.disk) && Compatible(p, At(w, u));
        if w'.disk != w.disk {
          FactStable(p, At(w, u), w.disk, w'.disk);
        }
      }
    }
    forall u: Pid, v: Pid | u != v ensures Compatible(At(w', u), At(w', v)) {
      assert Compatible(At(w, u), At(w, v));
    }
    forall u: Pid, v: Pid | u != v && Sealed(At(w', u)) ensures Lifecycle(At(w', v)) == Free {
      if u == t {
        SealKept(w, t, a, w', v);
      } else if v == t {
        SealKept(w, t, a, w', u);
      } else {
        assert Sealed(At(w, u));
      }
    }
  }

  // ---------------------------------------------------------------- whole runs

  ghost predicate Run(ws: seq<World>, ts: seq<Pid>, acts: seq<Action>) {
    && |ws| == |ts| + 1 == |acts| + 1 && ws[0] == START
    && (forall i {:trigger ts[i]} {:trigger acts[i]} :: 0 <= i < |ts| ==> Step(ws[i], ts[i], acts[i], ws[i + 1]))
  }

  lemma {:induction false} RunInv(ws: seq<World>, ts: seq<Pid>, acts: seq<Action>, i: nat)
    requires Run(ws, ts, acts) && i < |ws|
    ensures Inv(ws[i])
  {
    if i == 0 {
      StartInv();
    } else {
      RunInv(ws, ts, acts, i - 1);
      StepKeeps(ws[i - 1], ts[i - 1], acts[i - 1], ws[i]);
    }
  }

  /** An exclusive guard never coexists with any other guard, and every live guard names the persisted identity. */
  lemma GuardsAreConsistent(ws: seq<World>, ts: seq<Pid>, acts: seq<Action>, i: nat, t: Pid, u: Pid)
    requires Run(ws, ts, acts) && i < |ws| && LiveGuard(At(ws[i], t)).Some?
    ensures Names(ws[i].disk, LiveGuard(At(ws[i], t)).value)
    ensures IsExclusiveGuard(At(ws[i], t)) && u != t ==> LiveGuard(At(ws[i], u)).None?
  {
    RunInv(ws, ts, acts, i);
    assert Fact(At(ws[i], t), ws[i].disk);
    assert u != t ==> Compatible(At(ws[i], t), At(ws[i], u));
  }

  /** An ordinary guard is returned only while the persisted phase is `ready`, with the expected identity. */
  lemma AcquireOnlyWhenReady(ws: seq<World>, ts: seq<Pid>, acts: seq<Action>, i: nat)
    requires Run(ws, ts, acts) && i < |acts| && acts[i].Deliver?
    ensures var p := At(ws[i], ts[i]);
      && p.Verified? && At(ws[i + 1], ts[i]) == Guarded(p.identity)
      && (p.expected.None? || p.expected.value == p.identity)
      && ws[i].disk == Some(Recovery(p.identity, Ready)) && ws[i + 1].disk == ws[i].disk
  {
    RunInv(ws, ts, acts, i);
    assert Step(ws[i], ts[i], acts[i], ws[i + 1]);
    assert Fact(At(ws[i], ts[i]), ws[i].disk);
  }

  /** While `activate` stands between its two lifecycle locks, nobody is inside and nobody can enter. */
  lemma NobodyEntersTheGap(ws: seq<World>, ts: seq<Pid>, acts: seq<Action>, i: nat, t: Pid)
    requires Run(ws, ts, acts) && i < |acts| && (At(ws[i], t).Gap? || At(ws[i], t).Rejoined?)
    ensures forall u: Pid :: u != t ==> LiveGuard(At(ws[i], u)).None? && Lifecycle(At(ws[i], u)) == Free
    ensures ts[i] != t ==> !acts[i].Join? && !acts[i].Seize? && !acts[i].Deliver? && ws[i + 1].disk == ws[i].disk
  {
    RunInv(ws, ts, acts, i);
    assert Step(ws[i], ts[i], acts[i], ws[i + 1]);
    forall u: Pid | u != t ensures LiveGuard(At(ws[i], u)).None? && Lifecycle(At(ws[i], u)) == Free {
      assert Sealed(At(ws[i], t)) && Compatible(At(ws[i], t), At(ws[i], u));
    }
    if ts[i] != t {
      assert Fact(At(ws[i], ts[i]), ws[i].disk);
      RewriteGuarded(ws[i], At(ws[i], ts[i]), acts[i]);
      assert Compatible(At(ws[i], t), At(ws[i], ts[i]));
    }
  }

  /** The check at the end of `activate` never fails. */
  lemma ActivationNeverFails(ws: seq<World>, ts: seq<Pid>, acts: seq<Action>, i: nat)
    requires Run(ws, ts, acts) && i < |acts| && acts[i].Finish?
    ensures At(ws[i], ts[i]).Rejoined? && At(ws[i + 1], ts[i]) == Active(At(ws[i], ts[i]).identity)
  {
    RunInv(ws, ts, acts, i);
    assert Step(ws[i], ts[i], acts[i], ws[i + 1]);
    assert Fact(At(ws[i], ts[i]), ws[i].disk);
  }

  /** A live guard's identity is stable: it changes only when its own process initializes a new session. */
  lemma {:induction false} IdentityOutlivesOthers(ws: seq<World>, ts: seq<Pid>, acts: seq<Action>, i: nat, t: Pid)
    requires Run(ws, ts, acts) && i < |acts| && LiveGuard(At(ws[i], t)).Some? && ts[i] != t
    ensures ws[i + 1].disk.Some? && ws[i + 1].disk.value.identity == LiveGuard(At(ws[i], t)).value
  {
    RunInv(ws, ts, acts, i + 1);
    assert Step(ws[i], ts[i], acts[i], ws[i + 1]);
    assert At(ws[i + 1], t) == At(ws[i], t);
    GuardsAreConsistent(ws, ts, acts, i + 1, t, t);
  }
}
