/**
 The node-wide spool ledger (src/publication.rs, src/publication_gc.rs): bytes are charged before they are
 written and released only after their names are durably gone, with a crash possible between any two of the
 file and database steps.
 */
module SpoolLedger {
  import opened Options
  import opened Totals
  import opened ResourceVectors

  type Id = nat

  /** The names a spool file can have. A staging name and the sealed name of one upload can share an inode. */
  datatype Path = Staging(id: Id) | Sealed(id: Id) | Descriptor(id: Id) | Captured(id: Id)

  /** What is stored: the bytes are counted once per object, whatever its names. */
  datatype Object = UploadOf(id: Id) | DescriptorOf(id: Id) | CaptureOf(id: Id)

  function ObjectAt(p: Path): Object {
    match p
    case Staging(u) => UploadOf(u)
    case Sealed(u) => UploadOf(u)
    case Descriptor(d) => DescriptorOf(d)
    case Captured(c) => CaptureOf(c)
  }

  /** `offset` is the acknowledged length. */
  datatype Upload = Upload(attempt: Id, size: nat, offset: nat, sealed: bool)

  /**
   `rows` and `uploads` are committed tables; `names` are directory entries; `limbo` are names already unlinked
   whose directory is not synced yet, so that a crash may bring them back; `length` is bytes per object.
   `writing` (descriptors being written) and `credit` (reserved, unwritten capture bytes) die with the process.
   */
  datatype Spool = Spool(
    rows: map<Path, nat>, uploads: map<Id, Upload>, released: set<Id>,
    names: set<Path>, limbo: set<Path>, length: map<Object, nat>,
    writing: map<Id, nat>, credit: map<Id, nat>)

  const EMPTY := Spool(map[], map[], {}, {}, {}, map[], map[], map[])

  function Charge(s: Spool, p: Path): nat {
    if p in s.rows then s.rows[p] else 0
  }

  function Length(s: Spool, o: Object): nat {
    if o in s.length then s.length[o] else 0
  }

  function Credit(s: Spool, c: Id): nat {
    if c in s.credit then s.credit[c] else 0
  }

  /** The name exists, or could come back. */
  predicate Held(s: Spool, p: Path) {
    p in s.names || p in s.limbo
  }

  predicate Stored(s: Spool, o: Object) {
    exists p :: p in s.names + s.limbo && ObjectAt(p) == o
  }

  ghost function Used(s: Spool): nat {
    Total(s.rows)
  }

  // ---------------------------------------------------------------- steps

  datatype Step =
    | BeginTx(u: Id, attempt: Id, size: nat, quota: nat)
    | CreateStaging(u: Id)
    | ChunkWrite(u: Id, upTo: nat)          // all or part of a chunk reached the file
    | ChunkTx(u: Id, upTo: nat)             // its acknowledgement is recorded
    | FinishLink(u: Id)
    | FinishUnlink(u: Id)
    | FinishTx(u: Id)
    | CommitTx(d: Id, size: nat, quota: nat)
    | DescriptorWrite(d: Id, upTo: nat)
    | DescriptorDone(d: Id)
    | RejectTx(d: Id)                       // reconciliation: the descriptor does not exist
    | CaptureTx(c: Id, bytes: nat, quota: nat)
    | CaptureWrite(c: Id, bytes: nat)
    | CaptureReclaim(c: Id)
    | Unlink(p: Path)                       // a removed download, or garbage collection
    | SyncDirectory(p: Path)
    | Release(attempt: Id)
    | CollectTx(attempt: Id, gone: set<Path>)
    | AccountExisting(found: map<Path, nat>)
    | Crash(names: set<Path>, length: map<Object, nat>)

  /** The upload belongs to an attempt that still has a publisher. */
  predicate Open(s: Spool, u: Id) {
    u in s.uploads && !s.uploads[u].sealed && s.uploads[u].attempt !in s.released
  }

  /** Names garbage collection may remove: everything but descriptors, of a released attempt. */
  predicate Collectable(s: Spool, p: Path) {
    match p
    case Staging(u) => u in s.uploads && s.uploads[u].attempt in s.released
    case Sealed(u) => u in s.uploads && s.uploads[u].attempt in s.released
    case Captured(c) => Credit(s, c) == 0
    case Descriptor(_) => false
  }

  /** No name of any upload of the attempt is left, not even one that could come back. */
  ghost predicate Swept(s: Spool, attempt: Id) {
    forall u :: u in s.uploads && s.uploads[u].attempt == attempt ==> !Held(s, Staging(u)) && !Held(s, Sealed(u))
  }

  /** `reserve`: admitted only if the new total stays within the quota. */
  ghost predicate Admitted(s: Spool, p: Path, bytes: nat, quota: nat) {
    p !in s.rows && Used(s) + bytes <= quota
  }

  ghost predicate Enabled(s: Spool, t: Step) {
    match t
    case BeginTx(u, attempt, size, quota) =>
      u !in s.uploads && attempt !in s.released && Admitted(s, Staging(u), size, quota)
      && !Held(s, Staging(u)) && !Held(s, Sealed(u))
    case CreateStaging(u) => Open(s, u) && s.uploads[u].offset == 0 && Staging(u) !in s.names
    case ChunkWrite(u, upTo) => Open(s, u) && Staging(u) in s.names && upTo <= s.uploads[u].size
    case ChunkTx(u, upTo) => Open(s, u) && s.uploads[u].offset <= upTo <= s.uploads[u].size
    case FinishLink(u) => Open(s, u) && s.uploads[u].offset == s.uploads[u].size && Staging(u) in s.names
    case FinishUnlink(u) => Open(s, u) && Sealed(u) in s.names && Staging(u) in s.names
    case FinishTx(u) => Open(s, u) && s.uploads[u].offset == s.uploads[u].size && !Held(s, Staging(u))
    case CommitTx(d, size, quota) => Admitted(s, Descriptor(d), size, quota) && !Held(s, Descriptor(d))
    case DescriptorWrite(d, upTo) => d in s.writing && upTo <= s.writing[d]
    case DescriptorDone(d) => true
    case RejectTx(d) => d !in s.writing && !Held(s, Descriptor(d))
    case CaptureTx(c, bytes, quota) => Used(s) + bytes <= quota
    case CaptureWrite(c, bytes) => bytes <= Credit(s, c)
    case CaptureReclaim(c) => !Held(s, Captured(c))
    case Unlink(p) => p in s.names && Collectable(s, p)
    case SyncDirectory(p) => true
    case Release(attempt) => true
    case CollectTx(attempt, gone) =>
      && attempt in s.released && Swept(s, attempt)
      && (forall p :: p in gone ==> !Held(s, p) && Collectable(s, p)
                                    && (p.Staging? || p.Sealed? ==> s.uploads[p.id].attempt == attempt))
    case AccountExisting(found) => true
    case Crash(names, length) =>
      names <= s.names + s.limbo && forall o :: o in length ==> length[o] <= Length(s, o)
  }

  function Apply(s: Spool, t: Step): Spool {
    match t
    case BeginTx(u, attempt, size, _) =>
      s.(rows := s.rows[Staging(u) := size], uploads := s.uploads[u := Upload(attempt, size, 0, false)],
         length := s.length[UploadOf(u) := 0])
    case CreateStaging(u) =>
      s.(names := s.names + {Staging(u)}, limbo := s.limbo - {Staging(u)}, length := s.length[UploadOf(u) := 0])
    case ChunkWrite(u, upTo) => s.(length := s.length[UploadOf(u) := Max(Length(s, UploadOf(u)), upTo)])
    case ChunkTx(u, upTo) =>
      if u in s.uploads then s.(uploads := s.uploads[u := s.uploads[u].(offset := upTo)]) else s
    case FinishLink(u) => s.(names := s.names + {Sealed(u)}, limbo := s.limbo - {Sealed(u)})
    case FinishUnlink(u) => s.(names := s.names - {Staging(u)}, limbo := s.limbo + {Staging(u)})
    case FinishTx(u) =>
      if u !in s.uploads then s else
      s.(uploads := s.uploads[u := s.uploads[u].(sealed := true)],
         rows := (s.rows - {Staging(u)})[Sealed(u) := Max(Charge(s, Sealed(u)), s.uploads[u].size)])
    case CommitTx(d, size, _) => s.(rows := s.rows[Descriptor(d) := size], writing := s.writing[d := size])
    case DescriptorWrite(d, upTo) =>
      s.(names := s.names + {Descriptor(d)}, limbo := s.limbo - {Descriptor(d)},
         length := s.length[DescriptorOf(d) := if Held(s, Descriptor(d)) then Max(Length(s, DescriptorOf(d)), upTo)
                                                else upTo])
    case DescriptorDone(d) => s.(writing := s.writing - {d})
    case RejectTx(d) => s.(rows := s.rows - {Descriptor(d)})
    case CaptureTx(c, bytes, _) =>
      s.(rows := s.rows[Captured(c) := Charge(s, Captured(c)) + bytes], credit := s.credit[c := Credit(s, c) + bytes])
    case CaptureWrite(c, bytes) =>
      s.(names := s.names + {Captured(c)}, limbo := s.limbo - {Captured(c)},
         length := s.length[CaptureOf(c) := (if Held(s, Captured(c)) then Length(s, CaptureOf(c)) else 0) + bytes],
         credit := s.credit[c := if bytes <= Credit(s, c) then Credit(s, c) - bytes else 0])
    case CaptureReclaim(c) => s.(rows := s.rows - {Captured(c)}, credit := s.credit - {c})
    case Unlink(p) => s.(names := s.names - {p}, limbo := s.limbo + {p})
    case SyncDirectory(p) => s.(limbo := s.limbo - {p})
    case Release(attempt) => s.(released := s.released + {attempt})
    case CollectTx(_, gone) => s.(rows := s.rows - gone)
    case AccountExisting(found) =>
      s.(rows := map p | p in s.rows.Keys + found.Keys ::
           Max(Charge(s, p), if p in found then found[p] else 0))
    case Crash(names, length) =>
      s.(names := names, limbo := {}, length := length, writing := map[], credit := map[])
  }

  // ---------------------------------------------------------------- coverage

  ghost predicate UploadSound(s: Spool, u: Id) {
    var bytes := Length(s, UploadOf(u));
    && (Held(s, Staging(u)) || Held(s, Sealed(u)) ==> u in s.uploads)
    && (u in s.uploads ==>
          && bytes <= s.uploads[u].size
          && (Held(s, Staging(u)) ==> bytes <= Charge(s, Staging(u)))
          && (Held(s, Sealed(u)) ==> bytes <= Charge(s, Sealed(u)) || bytes <= Charge(s, Staging(u)))
          && (Held(s, Sealed(u)) && s.uploads[u].sealed ==> bytes <= Charge(s, Sealed(u)))
          && (Held(s, Sealed(u)) || s.uploads[u].sealed ==> s.uploads[u].offset == s.uploads[u].size)
          && (Open(s, u) ==> s.uploads[u].size <= Charge(s, Staging(u))))
  }

  ghost predicate DescriptorSound(s: Spool, d: Id) {
    && (Held(s, Descriptor(d)) ==> Length(s, DescriptorOf(d)) <= Charge(s, Descriptor(d)))
    && (d in s.writing ==> s.writing[d] <= Charge(s, Descriptor(d)))
  }

  ghost predicate CaptureSound(s: Spool, c: Id) {
    (if Held(s, Captured(c)) then Length(s, CaptureOf(c)) else 0) + Credit(s, c) <= Charge(s, Captured(c))
  }

  ghost predicate Sound(s: Spool) {
    && (forall u: Id :: UploadSound(s, u))
    && (forall d: Id :: DescriptorSound(s, d))
    && (forall c: Id :: CaptureSound(s, c))
  }

  /** The charge of everything an object may be named by. */
  function ObjectCharge(s: Spool, o: Object): nat {
    match o
    case UploadOf(u) => Charge(s, Staging(u)) + Charge(s, Sealed(u))
    case DescriptorOf(d) => Charge(s, Descriptor(d))
    case CaptureOf(c) => Charge(s, Captured(c))
  }

  /** Bytes on disk are always charged. */
  lemma SoundCovers(s: Spool, o: Object)
    requires Sound(s)
    ensures Stored(s, o) ==> Length(s, o) <= ObjectCharge(s, o)
  {
    if Stored(s, o) {
      var p :| p in s.names + s.limbo && ObjectAt(p) == o;
      match o {
        case UploadOf(u) => assert UploadSound(s, u);
        case DescriptorOf(d) => assert DescriptorSound(s, d);
        case CaptureOf(c) => assert CaptureSound(s, c);
      }
    }
  }

  predicate OfUploads(t: Step) {
    t.BeginTx? || t.CreateStaging? || t.ChunkWrite? || t.ChunkTx? || t.FinishLink? || t.FinishUnlink? || t.FinishTx?
  }

  predicate OfOthers(t: Step) {
    t.CommitTx? || t.DescriptorWrite? || t.DescriptorDone? || t.RejectTx? || t.CaptureTx? || t.CaptureWrite?
    || t.CaptureReclaim?
  }

  lemma OwnUploads(s: Spool, t: Step, u: Id)
    requires UploadSound(s, u) && Enabled(s, t) && OfUploads(t)
    ensures UploadSound(Apply(s, t), u)
  {
    hide Used;
  }

  lemma OtherUploads(s: Spool, t: Step, u: Id)
    requires UploadSound(s, u) && Enabled(s, t) && OfOthers(t)
    ensures UploadSound(Apply(s, t), u)
  {
    hide Used;
  }

  lemma SweptUploads(s: Spool, t: Step, u: Id)
    requires UploadSound(s, u) && Enabled(s, t) && (t.Unlink? || t.SyncDirectory? || t.Release? || t.CollectTx?)
    ensures UploadSound(Apply(s, t), u)
  {
    hide Used;
    if t.CollectTx? {
      assert Staging(u) in t.gone || Sealed(u) in t.gone ==> u in s.uploads && s.uploads[u].attempt in s.released;
    }
  }

  lemma RecoveredUploads(s: Spool, t: Step, u: Id)
    requires UploadSound(s, u) && Enabled(s, t) && (t.AccountExisting? || t.Crash?)
    ensures UploadSound(Apply(s, t), u)
  {
    hide Used;
  }

  lemma StepUploads(s: Spool, t: Step, u: Id)
    requires UploadSound(s, u) && Enabled(s, t)
    ensures UploadSound(Apply(s, t), u)
  {
    hide Apply, Enabled, UploadSound;
    if OfUploads(t) {
      OwnUploads(s, t, u);
    } else if OfOthers(t) {
      OtherUploads(s, t, u);
    } else if t.AccountExisting? || t.Crash? {
      RecoveredUploads(s, t, u);
    } else {
      SweptUploads(s, t, u);
    }
  }

  lemma OwnDescriptors(s: Spool, t: Step, d: Id)
    requires DescriptorSound(s, d) && Enabled(s, t) && OfOthers(t)
    ensures DescriptorSound(Apply(s, t), d)
  {
    hide Used;
  }

  lemma OtherDescriptors(s: Spool, t: Step, d: Id)
    requires DescriptorSound(s, d) && Enabled(s, t) && OfUploads(t)
    ensures DescriptorSound(Apply(s, t), d)
  {
    hide Used;
  }

  lemma SweptDescriptors(s: Spool, t: Step, d: Id)
    requires DescriptorSound(s, d) && Enabled(s, t) && !OfUploads(t) && !OfOthers(t)
    ensures DescriptorSound(Apply(s, t), d)
  {
    hide Used;
  }

  lemma StepDescriptors(s: Spool, t: Step, d: Id)
    requires DescriptorSound(s, d) && Enabled(s, t)
    ensures DescriptorSound(Apply(s, t), d)
  {
    hide Apply, Enabled, DescriptorSound;
    if OfOthers(t) {
      OwnDescriptors(s, t, d);
    } else if OfUploads(t) {
      OtherDescriptors(s, t, d);
    } else {
      SweptDescriptors(s, t, d);
    }
  }

  lemma OwnCaptures(s: Spool, t: Step, c: Id)
    requires CaptureSound(s, c) && Enabled(s, t) && OfOthers(t)
    ensures CaptureSound(Apply(s, t), c)
  {
    hide Used;
  }

  lemma OtherCaptures(s: Spool, t: Step, c: Id)
    requires CaptureSound(s, c) && Enabled(s, t) && OfUploads(t)
    ensures CaptureSound(Apply(s, t), c)
  {
    hide Used;
  }

  lemma SweptCaptures(s: Spool, t: Step, c: Id)
    requires CaptureSound(s, c) && Enabled(s, t) && !OfUploads(t) && !OfOthers(t)
    ensures CaptureSound(Apply(s, t), c)
  {
    hide Used;
  }

  lemma StepCaptures(s: Spool, t: Step, c: Id)
    requires CaptureSound(s, c) && Enabled(s, t)
    ensures CaptureSound(Apply(s, t), c)
  {
    hide Apply, Enabled, CaptureSound;
    if OfOthers(t) {
      OwnCaptures(s, t, c);
    } else if OfUploads(t) {
      OtherCaptures(s, t, c);
    } else {
      SweptCaptures(s, t, c);
    }
  }

  lemma StepSound(s: Spool, t: Step)
    requires Sound(s) && Enabled(s, t)
    ensures Sound(Apply(s, t))
  {
    hide Apply, Enabled, UploadSound, DescriptorSound, CaptureSound;
    forall u: Id ensures UploadSound(Apply(s, t), u) {
      StepUploads(s, t, u);
    }
    forall d: Id ensures DescriptorSound(Apply(s, t), d) {
      StepDescriptors(s, t, d);
    }
    forall c: Id ensures CaptureSound(Apply(s, t), c) {
      StepCaptures(s, t, c);
    }
  }

  // ---------------------------------------------------------------- the total

  predicate Reserves(t: Step) {
    t.BeginTx? || t.CommitTx? || t.CaptureTx?
  }

  /** Sealing moves the charge of an upload to its new name and never raises the total. */
  lemma FinishTotal(s: Spool, u: Id)
    requires UploadSound(s, u) && Open(s, u)
    ensures Used(Apply(s, FinishTx(u))) <= Used(s)
  {
    var size := s.uploads[u].size;
    var staging, sealed := Staging(u), Sealed(u);
    var small := s.rows - {staging};
    var rows := small[sealed := Max(Charge(s, sealed), size)];
    assert Apply(s, FinishTx(u)).rows == rows;
    if size > 0 || staging in s.rows {
      TotalSplit(s.rows, staging);
    } else {
      assert small == s.rows;
    }
    if sealed in s.rows {
      TotalSplit(small, sealed);
      TotalSplit(rows, sealed);
      assert rows - {sealed} == small - {sealed};
    } else {
      TotalInsert(small, sealed, Max(Charge(s, sealed), size));
    }
  }

  lemma ShrinkTotal(rows: map<Path, nat>, gone: set<Path>)
    ensures Total(rows - gone) <= Total(rows)
  {
    TotalMonotone(rows - gone, rows);
  }

  lemma ReserveTotal(s: Spool, t: Step)
    requires Enabled(s, t) && Reserves(t)
    ensures Used(Apply(s, t)) <= t.quota && Used(s) <= Used(Apply(s, t))
  {
    match t {
      case BeginTx(u, _, size, _) => TotalInsert(s.rows, Staging(u), size);
      case CommitTx(d, size, _) => TotalInsert(s.rows, Descriptor(d), size);
      case CaptureTx(c, bytes, _) =>
        if Captured(c) in s.rows {
          TotalReplace(s.rows, Captured(c), s.rows[Captured(c)] + bytes);
        } else {
          TotalInsert(s.rows, Captured(c), bytes);
        }
    }
  }

  /**
   Every admitted reservation ends within its quota; no other step raises the total, except reopening's
   `account_existing`, which only moves rows upward.
   */
  lemma StepTotal(s: Spool, t: Step)
    requires Sound(s) && Enabled(s, t)
    ensures Reserves(t) ==> Used(Apply(s, t)) <= t.quota
    ensures !Reserves(t) && !t.AccountExisting? ==> Used(Apply(s, t)) <= Used(s)
    ensures t.AccountExisting? ==> forall p: Path :: Charge(s, p) <= Charge(Apply(s, t), p)
  {
    if Reserves(t) {
      ReserveTotal(s, t);
    } else if t.FinishTx? {
      assert UploadSound(s, t.u);
      FinishTotal(s, t.u);
    } else if t.RejectTx? {
      ShrinkTotal(s.rows, {Descriptor(t.d)});
    } else if t.CaptureReclaim? {
      ShrinkTotal(s.rows, {Captured(t.c)});
    } else if t.CollectTx? {
      ShrinkTotal(s.rows, t.gone);
    }
  }

  // ---------------------------------------------------------------- whole runs

  ghost predicate Run(ss: seq<Spool>, ts: seq<Step>) {
    && |ss| == |ts| + 1 && ss[0] == EMPTY
    && (forall i {:trigger ts[i]} :: 0 <= i < |ts| ==> Takes(ss[i], ts[i], ss[i + 1]))
  }

  ghost predicate Takes(s: Spool, t: Step, s': Spool) {
    Enabled(s, t) && s' == Apply(s, t)
  }

  lemma {:induction false} RunSound(ss: seq<Spool>, ts: seq<Step>, i: nat)
    requires Run(ss, ts) && i < |ss|
    ensures Sound(ss[i])
  {
    if i > 0 {
      RunSound(ss, ts, i - 1);
      assert Takes(ss[i - 1], ts[i - 1], ss[i]);
      StepSound(ss[i - 1], ts[i - 1]);
      hide Apply;
    }
  }

  /** At every point of every run, the ledger covers the bytes still on disk for each stored object. */
  lemma LedgerCovers(ss: seq<Spool>, ts: seq<Step>, i: nat, o: Object)
    requires Run(ss, ts) && i < |ss| && Stored(ss[i], o)
    ensures Length(ss[i], o) <= ObjectCharge(ss[i], o)
  {
    RunSound(ss, ts, i);
    SoundCovers(ss[i], o);
  }

  // ---------------------------------------------------------------- the loops

  /** `SELECT SUM(bytes)`, row by row, then the admission check of `reserve`. */
  method Reserve(rows: map<Path, nat>, p: Path, bytes: nat, quota: nat) returns (r: Option<map<Path, nat>>)
    ensures r.Some? <==> p !in rows && Total(rows) + bytes <= quota
    ensures r.Some? ==> r.value == rows[p := bytes] && Total(r.value) == Total(rows) + bytes
  {
    var total, rest := 0, rows;
    while rest != map[]
      invariant total + Total(rest) == Total(rows)
      decreases |rest|
    {
      var q :| q in rest;
      TotalSplit(rest, q);
      total := total + rest[q];
      rest := rest - {q};
    }
    if p in rows || total + bytes > quota {
      return None;
    }
    TotalInsert(rows, p, bytes);
    return Some(rows[p := bytes]);
  }

  /** What is left once every listed name is unlinked and its directory synced. */
  ghost predicate Removed(s: Spool, s': Spool, files: seq<Path>) {
    s' == s.(names := s.names - (set p | p in files), limbo := s.limbo - (set p | p in files))
  }

  lemma RemovedOneMore(s: Spool, before: Spool, after: Spool, done: seq<Path>, p: Path)
    requires Removed(s, before, done)
    requires after == before.(names := before.names - {p}, limbo := before.limbo - {p})
    ensures Removed(s, after, done + [p])
  {
    assert after.names == s.names - (set q | q in done + [p]);
    assert after.limbo == s.limbo - (set q | q in done + [p]);
  }

  lemma RemovedSound(s: Spool, s': Spool, files: seq<Path>)
    requires Sound(s) && Removed(s, s', files)
    ensures Sound(s')
  {
    forall u: Id ensures UploadSound(s', u) {
      assert UploadSound(s, u);
    }
    forall d: Id ensures DescriptorSound(s', d) {
      assert DescriptorSound(s, d);
    }
    forall c: Id ensures CaptureSound(s', c) {
      assert CaptureSound(s, c);
    }
  }

  /** Unlink a file, then sync its directory, one after the other. */
  method SweepFiles(s: Spool, files: seq<Path>) returns (s': Spool, unlinked: nat)
    ensures Removed(s, s', files)
  {
    s', unlinked := s, 0;
    var i := 0;
    while i < |files|
      invariant 0 <= i <= |files| && Removed(s, s', files[..i])
    {
      var p := files[i];
      assert files[..i + 1] == files[..i] + [p];
      unlinked := unlinked + Length(s', ObjectAt(p));
      ghost var before := s';
      s' := s'.(names := s'.names - {p}, limbo := s'.limbo + {p});
      s' := s'.(limbo := s'.limbo - {p});
      assert s'.limbo == before.limbo - {p};
      RemovedOneMore(s, before, s', files[..i], p);
      i := i + 1;
    }
    assert files[..i] == files;
  }

  /**
   The listed files are all the upload files of this released attempt, and the input and resume files copied
   into its workspace, none of which is still being written.
   */
  ghost predicate Inventory(s: Spool, attempt: Id, files: seq<Path>) {
    && (forall p :: p in files ==>
          || (p.Captured? && Credit(s, p.id) == 0)
          || ((p.Staging? || p.Sealed?) && p.id in s.uploads && s.uploads[p.id].attempt == attempt))
    && (forall u :: u in s.uploads && s.uploads[u].attempt == attempt ==>
          (Held(s, Staging(u)) ==> Staging(u) in files) && (Held(s, Sealed(u)) ==> Sealed(u) in files))
  }

  lemma InventorySwept(s: Spool, s': Spool, attempt: Id, files: seq<Path>)
    requires Inventory(s, attempt, files) && attempt in s.released && Removed(s, s', files)
    ensures Enabled(s', CollectTx(attempt, set p | p in files))
  {
    forall u | u in s'.uploads && s'.uploads[u].attempt == attempt
      ensures !Held(s', Staging(u)) && !Held(s', Sealed(u))
    {
    }
  }

  /**
   `reclaim_released`: unlink and sync every file of a released attempt, its workspace copies included, then
   drop the charges of what is provably gone, in one transaction. Everything left stays covered, and the total
   only falls.
   */
  method ReclaimReleased(s: Spool, attempt: Id, files: seq<Path>) returns (s': Spool, unlinked: nat)
    requires Sound(s) && attempt in s.released && Inventory(s, attempt, files)
    ensures Sound(s') && Used(s') <= Used(s)
    ensures s'.rows == s.rows - (set p | p in files)
    ensures forall p :: p in files ==> !Held(s', p)
  {
    s', unlinked := SweepFiles(s, files);
    RemovedSound(s, s', files);
    InventorySwept(s, s', attempt, files);
    var gone := set p | p in files;
    ShrinkTotal(s'.rows, gone);
    StepSound(s', CollectTx(attempt, gone));
    hide Sound, Enabled;
    s' := Apply(s', CollectTx(attempt, gone));
  }
}
