/**
 One attempt's publication store (src/publication.rs `commit`, `reconcile`): database transactions interleaved
 with file writes, by a single publisher that can die between any two of them.
 */
module Publications {
  import opened Options
  import opened Maxima

  type Id = nat

  datatype Kind = Checkpoint | Result

  datatype State = Pending | Uncertain | Committed | Rejected

  /** `sha` is the digest of the descriptor this publication stands for. */
  datatype Record = Record(kind: Kind, sequence: nat, payload: Id, sha: Id, state: State)

  datatype Head = Head(publication: Id, sequence: nat)

  /** What survives a crash: two tables, and the descriptor files (by digest) with the ones known to be synced. */
  datatype Disk = Disk(records: map<Id, Record>, heads: map<Kind, Head>, files: map<Id, Id>, synced: set<Id>)

  /** Where the publisher stands inside one operation; lost in a crash. */
  datatype Position =
    | Idle
    | Writing(id: Id)     // pending row committed, descriptor being written
    | Failed(id: Id)      // descriptor or its directory entry could not be made durable
    | Written(id: Id)     // descriptor durable, head not selected yet
    | Missing(id: Id)     // reconciliation found no descriptor
    | Deciding(id: Id)    // reconciliation found the exact descriptor and synced it

  datatype Publisher = Publisher(disk: Disk, at: Position)

  const START := Publisher(Disk(map[], map[], map[], {}), Idle)

  predicate Unresolved(r: Record) {
    r.state == Pending || r.state == Uncertain
  }

  function StateOf(d: Disk, id: Id): Option<State> {
    if id in d.records then Some(d.records[id].state) else None
  }

  // ---------------------------------------------------------------- transactions

  /** `SELECT COALESCE(MAX(sequence),0)`. */
  function MaxSequence(records: map<Id, Record>): (m: nat)
    ensures forall id :: id in records ==> records[id].sequence <= m
  {
    var sequences := set id | id in records :: records[id].sequence;
    assert forall id :: id in records ==> records[id].sequence in sequences;
    MaxOf(sequences)
  }

  predicate HasUnresolved(d: Disk) {
    exists id :: id in d.records && Unresolved(d.records[id])
  }

  /** The first transaction of `commit`: refused while anything is unresolved, or once a result is selected. */
  function Propose(d: Disk, id: Id, kind: Kind, payload: Id, sha: Id): Option<Disk> {
    if id in d.records || HasUnresolved(d) || (kind == Result && Result in d.heads) then None
    else Some(d.(records := d.records[id := Record(kind, MaxSequence(d.records) + 1, payload, sha, Pending)]))
  }

  function SetState(d: Disk, id: Id, state: State): Disk {
    if id in d.records then d.(records := d.records[id := d.records[id].(state := state)]) else d
  }

  function Select(d: Disk, id: Id): Disk {
    if id !in d.records then d else
    var row := d.records[id];
    SetState(d, id, Committed).(heads := d.heads[row.kind := Head(id, row.sequence)])
  }

  /** The last transaction of `commit`: a stale publication cannot rewind the head. */
  function CommitHead(d: Disk, id: Id): Option<Disk> {
    if id !in d.records then None
    else if d.records[id].kind in d.heads && d.heads[d.records[id].kind].sequence >= d.records[id].sequence then None
    else Some(Select(d, id))
  }

  predicate Selected(d: Disk, id: Id) {
    exists k :: k in d.heads && d.heads[k].publication == id
  }

  /** Reconciliation without a descriptor: proven uncommitted, unless it is selected. */
  function RejectMissing(d: Disk, id: Id): Option<Disk> {
    if Selected(d, id) then None else Some(SetState(d, id, Rejected))
  }

  /** Reconciliation with the exact descriptor. */
  function Decide(d: Disk, id: Id): Disk {
    if id !in d.records then d else
    var row := d.records[id];
    if row.kind in d.heads && d.heads[row.kind].sequence >= row.sequence && d.heads[row.kind].publication != id
    then SetState(d, id, Rejected)
    else Select(d, id)
  }

  // ---------------------------------------------------------------- steps

  datatype Step =
    | Commit(id: Id, kind: Kind, payload: Id, sha: Id)   // first transaction
    | Write(digest: Id)                                  // some bytes of the descriptor are in the file
    | Sync                                               // all bytes and the directory entry are durable
    | WriteError
    | NoteUncertain | NoteLost                           // the `uncertain` mark is best effort
    | Finish                                             // last transaction
    | FinishError                                        // its commit was not confirmed
    | Reconcile(id: Id)                                  // read the descriptor
    | Unreadable(id: Id)                                 // any other read error, or a sync that fails: no change
    | Reject                                             // transaction after `Missing`
    | Resolve                                            // transaction after `Deciding`
    | Crash(files: map<Id, Id>)                          // unsynced files are as the crash left them

  /** A crash may lose or tear any file that was not synced. */
  predicate Plausible(d: Disk, files: map<Id, Id>) {
    forall id :: id in d.synced && id in d.files ==> id in files && files[id] == d.files[id]
  }

  function Apply(p: Publisher, s: Step): Option<Publisher> {
    var d := p.disk;
    match s
    case Commit(id, kind, payload, sha) =>
      if !p.at.Idle? then None else
      var proposed := Propose(d, id, kind, payload, sha);
      if proposed.None? then Some(p) else Some(Publisher(proposed.value, Writing(id)))
    case Write(digest) =>
      if !p.at.Writing? then None
      else Some(p.(disk := d.(files := d.files[p.at.id := digest], synced := d.synced - {p.at.id})))
    case Sync =>
      if !p.at.Writing? || p.at.id !in d.records then None
      else Some(Publisher(d.(files := d.files[p.at.id := d.records[p.at.id].sha], synced := d.synced + {p.at.id}),
                          Written(p.at.id)))
    case WriteError => if p.at.Writing? then Some(p.(at := Failed(p.at.id))) else None
    case NoteUncertain => if p.at.Failed? then Some(Publisher(SetState(d, p.at.id, Uncertain), Idle)) else None
    case NoteLost => if p.at.Failed? then Some(p.(at := Idle)) else None
    case Finish =>
      if !p.at.Written? then None else
      var done := CommitHead(d, p.at.id);
      Some(Publisher(if done.Some? then done.value else d, Idle))
    case FinishError => if p.at.Written? then Some(p.(at := Idle)) else None
    case Reconcile(id) =>
      if !p.at.Idle? || id !in d.records || !Unresolved(d.records[id]) then None
      else if id !in d.files then Some(p.(at := Missing(id)))
      else if d.files[id] != d.records[id].sha then Some(p)
      else Some(Publisher(d.(synced := d.synced + {id}), Deciding(id)))
    case Unreadable(id) => if p.at.Idle? then Some(p) else None
    case Reject =>
      if !p.at.Missing? then None else
      var done := RejectMissing(d, p.at.id);
      Some(Publisher(if done.Some? then done.value else d, Idle))
    case Resolve => if p.at.Deciding? then Some(Publisher(Decide(d, p.at.id), Idle)) else None
    case Crash(files) => if Plausible(d, files) then Some(Publisher(d.(files := files), Idle)) else None
  }

  // ---------------------------------------------------------------- invariant

  /** At most one unresolved publication, and it holds the highest sequence. */
  ghost predicate OneUnresolved(d: Disk) {
    forall id, other :: id in d.records && other in d.records && Unresolved(d.records[id]) && other != id ==>
      d.records[other].sequence < d.records[id].sequence && !Unresolved(d.records[other])
  }

  /** A head names a committed record of its kind and sequence, the newest committed one. */
  ghost predicate HeadSound(d: Disk, k: Kind)
    requires k in d.heads
  {
    var head := d.heads[k];
    && head.publication in d.records
    && var row := d.records[head.publication];
    && row.kind == k && row.sequence == head.sequence && row.state == Committed
  }

  ghost predicate RecordSound(d: Disk, id: Id)
    requires id in d.records
  {
    var row := d.records[id];
    && (row.state == Committed ==>
          && row.kind in d.heads && row.sequence <= d.heads[row.kind].sequence
          && (row.kind == Result ==> d.heads[Result].publication == id)
          && id in d.files && id in d.synced && d.files[id] == row.sha)
    && (Unresolved(row) && row.kind == Result ==> Result !in d.heads)
  }

  ghost predicate Standing(p: Publisher) {
    match p.at
    case Idle => true
    case Written(id) => id in p.disk.records && Unresolved(p.disk.records[id]) && Durable(p.disk, id)
    case Deciding(id) => id in p.disk.records && Unresolved(p.disk.records[id]) && Durable(p.disk, id)
    case _ => p.at.id in p.disk.records && Unresolved(p.disk.records[p.at.id])
  }

  predicate Durable(d: Disk, id: Id) {
    id in d.records && id in d.files && id in d.synced && d.files[id] == d.records[id].sha
  }

  ghost predicate Sound(p: Publisher) {
    && OneUnresolved(p.disk)
    && (forall k :: k in p.disk.heads ==> HeadSound(p.disk, k))
    && (forall id :: id in p.disk.records ==> RecordSound(p.disk, id))
    && Numbered(p.disk.records)
    && Standing(p)
  }

  /** Sequences are positive and name one record each. */
  ghost predicate Numbered(records: map<Id, Record>) {
    && (forall id :: id in records ==> records[id].sequence > 0)
    && (forall id, other :: id in records && other in records && id != other ==>
          records[id].sequence != records[other].sequence)
  }

  lemma StartSound()
    ensures Sound(START)
  {
  }

  lemma ProposeNumbers(records: map<Id, Record>, id: Id, row: Record)
    requires Numbered(records) && id !in records && row.sequence == MaxSequence(records) + 1
    ensures Numbered(records[id := row])
  {
    hide MaxSequence;
  }

  lemma ProposedRecord(d: Disk, id: Id, row: Record, other: Id)
    requires id !in d.records && Unresolved(row) && (row.kind == Result ==> Result !in d.heads)
    requires other in d.records ==> RecordSound(d, other)
    requires other in d.records || other == id
    ensures RecordSound(d.(records := d.records[id := row]), other)
  {
  }

  lemma ProposedUnresolved(d: Disk, id: Id, row: Record)
    requires id !in d.records && !HasUnresolved(d) && forall x :: x in d.records ==> d.records[x].sequence < row.sequence
    ensures OneUnresolved(d.(records := d.records[id := row]))
  {
  }

  lemma ProposeKeeps(d: Disk, id: Id, kind: Kind, payload: Id, sha: Id)
    requires Sound(Publisher(d, Idle)) && Propose(d, id, kind, payload, sha).Some?
    ensures Sound(Publisher(Propose(d, id, kind, payload, sha).value, Writing(id)))
  {
    hide MaxSequence;
    var d' := Propose(d, id, kind, payload, sha).value;
    var row := d'.records[id];
    ProposeNumbers(d.records, id, row);
    ProposedUnresolved(d, id, row);
    forall other | other in d'.records ensures RecordSound(d', other) {
      ProposedRecord(d, id, row, other);
    }
    forall k | k in d'.heads ensures HeadSound(d', k) {
      assert HeadSound(d, k);
    }
    hide Numbered, OneUnresolved, RecordSound, HeadSound;
  }

  /** Files change under an unresolved record only. */
  lemma FilesKeep(p: Publisher, files: map<Id, Id>, synced: set<Id>, at: Position)
    requires Sound(p) && Standing(Publisher(p.disk.(files := files, synced := synced), at))
    requires forall id :: id in p.disk.records && p.disk.records[id].state == Committed ==>
               id in files && id in synced && files[id] == p.disk.records[id].sha
    ensures Sound(Publisher(p.disk.(files := files, synced := synced), at))
  {
    var d' := p.disk.(files := files, synced := synced);
    forall id | id in d'.records ensures RecordSound(d', id) {
      assert RecordSound(p.disk, id);
    }
    forall k | k in d'.heads ensures HeadSound(d', k) {
      assert HeadSound(p.disk, k);
    }
  }

  lemma SameNumbers(records: map<Id, Record>, id: Id, row: Record)
    requires Numbered(records) && id in records && row.sequence == records[id].sequence
    ensures Numbered(records[id := row])
  {
  }

  /** Resolving the one unresolved record leaves numbering and uniqueness alone. */
  lemma SetStateNumbers(d: Disk, id: Id, state: State)
    requires Numbered(d.records) && OneUnresolved(d) && id in d.records && Unresolved(d.records[id])
    ensures Numbered(SetState(d, id, state).records) && OneUnresolved(SetState(d, id, state))
  {
    SameNumbers(d.records, id, d.records[id].(state := state));
    hide Numbered;
    var d' := SetState(d, id, state);
    forall x, y | x in d'.records && y in d'.records && Unresolved(d'.records[x]) && y != x
      ensures d'.records[y].sequence < d'.records[x].sequence && !Unresolved(d'.records[y])
    {
      assert x == id;
    }
  }

  lemma MarkedRecord(d: Disk, id: Id, state: State, other: Id)
    requires id in d.records && other in d.records && RecordSound(d, other)
    requires Unresolved(d.records[id]) && (state == Uncertain || state == Rejected)
    ensures RecordSound(SetState(d, id, state), other)
  {
  }

  lemma MarkedHead(d: Disk, id: Id, state: State, k: Kind)
    requires id in d.records && Unresolved(d.records[id]) && k in d.heads && HeadSound(d, k)
    ensures HeadSound(SetState(d, id, state), k)
  {
  }

  /** Marking the one unresolved record uncertain or rejected. */
  lemma MarkKeeps(d: Disk, id: Id, at: Position, state: State)
    requires Sound(Publisher(d, at)) && id in d.records && Unresolved(d.records[id])
    requires state == Uncertain || state == Rejected
    ensures Sound(Publisher(SetState(d, id, state), Idle))
  {
    SetStateNumbers(d, id, state);
    var d' := SetState(d, id, state);
    forall other | other in d'.records ensures RecordSound(d', other) {
      MarkedRecord(d, id, state, other);
    }
    forall k | k in d'.heads ensures HeadSound(d', k) {
      MarkedHead(d, id, state, k);
    }
    hide Numbered, OneUnresolved, RecordSound, HeadSound, SetState;
  }

  /** An unresolved record is newer than every head, and no result is selected while one is unresolved. */
  lemma HeadsAreOlder(d: Disk, at: Position, id: Id)
    requires Sound(Publisher(d, at)) && id in d.records && Unresolved(d.records[id])
    ensures forall k :: k in d.heads ==> d.heads[k].sequence < d.records[id].sequence && d.heads[k].publication != id
    ensures !Selected(d, id)
  {
    forall k | k in d.heads ensures d.heads[k].sequence < d.records[id].sequence && d.heads[k].publication != id {
      assert HeadSound(d, k);
    }
  }

  lemma SelectedRecord(d: Disk, id: Id, other: Id)
    requires id in d.records && other in d.records && RecordSound(d, other) && RecordSound(d, id)
    requires Unresolved(d.records[id]) && Durable(d, id)
    requires forall k :: k in d.heads ==> d.heads[k].sequence < d.records[id].sequence
    requires other != id ==> !Unresolved(d.records[other])
    ensures RecordSound(Select(d, id), other)
  {
  }

  lemma SelectedHead(d: Disk, id: Id, k: Kind)
    requires id in d.records && Unresolved(d.records[id]) && k in Select(d, id).heads
    requires k in d.heads ==> HeadSound(d, k)
    ensures HeadSound(Select(d, id), k)
  {
  }

  lemma SelectKeeps(d: Disk, at: Position, id: Id)
    requires Sound(Publisher(d, at)) && id in d.records && Unresolved(d.records[id]) && Durable(d, id)
    ensures Sound(Publisher(Select(d, id), Idle))
  {
    HeadsAreOlder(d, at, id);
    SetStateNumbers(d, id, Committed);
    var d' := Select(d, id);
    forall other | other in d'.records ensures RecordSound(d', other) {
      SelectedRecord(d, id, other);
    }
    forall k | k in d'.heads ensures HeadSound(d', k) {
      SelectedHead(d, id, k);
    }
    hide Numbered, RecordSound, HeadSound;
  }

  /** The two refusals for a stale publication are never taken: an unresolved record is always the newest. */
  lemma NeverStale(d: Disk, at: Position, id: Id)
    requires Sound(Publisher(d, at)) && id in d.records && Unresolved(d.records[id])
    ensures CommitHead(d, id) == Some(Select(d, id)) && Decide(d, id) == Select(d, id)
    ensures RejectMissing(d, id) == Some(SetState(d, id, Rejected))
  {
    HeadsAreOlder(d, at, id);
  }

  // ---------------------------------------------------------------- every step

  lemma FileStepKeeps(p: Publisher, s: Step)
    requires Sound(p) && Apply(p, s).Some?
    requires !(s.Commit? || s.NoteUncertain? || s.Finish? || s.Reject? || s.Resolve?)
    ensures Sound(Apply(p, s).value)
  {
    var q := Apply(p, s).value;
    forall id | id in p.disk.records && p.disk.records[id].state == Committed
      ensures id in q.disk.files && id in q.disk.synced && q.disk.files[id] == p.disk.records[id].sha
    {
      assert RecordSound(p.disk, id);
    }
    assert q.disk == p.disk.(files := q.disk.files, synced := q.disk.synced);
    FilesKeep(p, q.disk.files, q.disk.synced, q.at);
  }

  lemma RowStepKeeps(p: Publisher, s: Step)
    requires Sound(p) && Apply(p, s).Some?
    requires s.Commit? || s.NoteUncertain? || s.Finish? || s.Reject? || s.Resolve?
    ensures Sound(Apply(p, s).value)
  {
    if s.Commit? {
      if Propose(p.disk, s.id, s.kind, s.payload, s.sha).Some? {
        ProposeKeeps(p.disk, s.id, s.kind, s.payload, s.sha);
      }
    } else {
      NeverStale(p.disk, p.at, p.at.id);
      if s.NoteUncertain? {
        MarkKeeps(p.disk, p.at.id, p.at, Uncertain);
      } else if s.Reject? {
        MarkKeeps(p.disk, p.at.id, p.at, Rejected);
      } else {
        SelectKeeps(p.disk, p.at, p.at.id);
      }
    }
    hide Propose, Select, SetState;
  }

  lemma StepKeeps(p: Publisher, s: Step)
    requires Sound(p) && Apply(p, s).Some?
    ensures Sound(Apply(p, s).value)
  {
    if s.Commit? || s.NoteUncertain? || s.Finish? || s.Reject? || s.Resolve? {
      hide Apply;
      RowStepKeeps(p, s);
    } else {
      hide Apply;
      FileStepKeeps(p, s);
    }
  }

  /** Records keep their content; a verdict is final; only the operation standing on a record resolves it. */
  ghost predicate RecordForward(p: Publisher, q: Publisher, id: Id)
    requires id in p.disk.records
  {
    && id in q.disk.records
    && var r, r' := p.disk.records[id], q.disk.records[id];
    && r' == r.(state := r'.state)
    && (!Unresolved(r) ==> r'.state == r.state)
    && (r'.state != r.state ==> !p.at.Idle? && p.at.id == id)
  }

  /** A head only moves forward, strictly. */
  ghost predicate HeadForward(p: Publisher, q: Publisher, k: Kind)
    requires k in p.disk.heads
  {
    k in q.disk.heads && (q.disk.heads[k] == p.disk.heads[k] || p.disk.heads[k].sequence < q.disk.heads[k].sequence)
  }

  ghost predicate Forward(p: Publisher, q: Publisher) {
    && (forall id :: id in p.disk.records ==> RecordForward(p, q, id))
    && (forall k :: k in p.disk.heads ==> HeadForward(p, q, k))
  }

  lemma SameRowsForward(p: Publisher, q: Publisher)
    requires q.disk.records == p.disk.records && q.disk.heads == p.disk.heads
    ensures Forward(p, q)
  {
  }

  lemma OwnRowForward(p: Publisher, q: Publisher, state: State)
    requires !p.at.Idle? && p.at.id in p.disk.records && Unresolved(p.disk.records[p.at.id])
    requires q.disk.records == SetState(p.disk, p.at.id, state).records
    requires forall k :: k in p.disk.heads ==> HeadForward(p, q, k)
    ensures Forward(p, q)
  {
    forall id | id in p.disk.records ensures RecordForward(p, q, id) {
    }
  }

  lemma RowStepForward(p: Publisher, s: Step)
    requires Sound(p) && Apply(p, s).Some? && (s.NoteUncertain? || s.Finish? || s.Reject? || s.Resolve?)
    ensures Forward(p, Apply(p, s).value)
  {
    HeadsAreOlder(p.disk, p.at, p.at.id);
    NeverStale(p.disk, p.at, p.at.id);
    hide Sound, HeadSound, RecordSound;
    var state := if s.NoteUncertain? then Uncertain else if s.Reject? then Rejected else Committed;
    OwnRowForward(p, Apply(p, s).value, state);
  }

  lemma ProposeForward(p: Publisher, s: Step)
    requires Apply(p, s).Some? && s.Commit?
    ensures Forward(p, Apply(p, s).value)
  {
    hide MaxSequence, HasUnresolved;
    var q := Apply(p, s).value;
    forall id | id in p.disk.records ensures RecordForward(p, q, id) {
    }
  }

  lemma StepForward(p: Publisher, s: Step)
    requires Sound(p) && Apply(p, s).Some?
    ensures Forward(p, Apply(p, s).value)
  {
    if s.Commit? {
      ProposeForward(p, s);
      hide Apply;
    } else if s.NoteUncertain? || s.Finish? || s.Reject? || s.Resolve? {
      RowStepForward(p, s);
      hide Apply;
    } else {
      SameRowsForward(p, Apply(p, s).value);
      hide Apply;
    }
  }

  // ---------------------------------------------------------------- whole runs

  ghost predicate Run(ps: seq<Publisher>, ss: seq<Step>) {
    && |ps| == |ss| + 1 && ps[0] == START
    && (forall i {:trigger ss[i]} :: 0 <= i < |ss| ==> Apply(ps[i], ss[i]) == Some(ps[i + 1]))
  }

  /**
   With a crash possible between any two steps: at most one unresolved publication, holding the highest
   sequence; heads name committed, durable records; at most one result.
   */
  lemma {:induction false} RunSound(ps: seq<Publisher>, ss: seq<Step>, i: nat)
    requires Run(ps, ss) && i < |ps|
    ensures Sound(ps[i])
  {
    if i == 0 {
      StartSound();
    } else {
      RunSound(ps, ss, i - 1);
      assert Apply(ps[i - 1], ss[i - 1]) == Some(ps[i]);
      hide Apply;
      StepKeeps(ps[i - 1], ss[i - 1]);
    }
  }

  /** At most one result is ever committed, over the whole history of the attempt. */
  lemma OneResultEver(ps: seq<Publisher>, ss: seq<Step>, i: nat, j: nat, id: Id, other: Id)
    requires Run(ps, ss) && i <= j < |ps|
    requires id in ps[i].disk.records && ps[i].disk.records[id].kind == Result && ps[i].disk.records[id].state == Committed
    requires other in ps[j].disk.records && ps[j].disk.records[other].kind == Result
      && ps[j].disk.records[other].state == Committed
    ensures id == other
  {
    CommittedForever(ps, ss, i, j, id);
    RunSound(ps, ss, j);
    assert RecordSound(ps[j].disk, id) && RecordSound(ps[j].disk, other);
  }

  /** A verdict, once given, and everything else about the record, never changes. */
  lemma {:induction false} CommittedForever(ps: seq<Publisher>, ss: seq<Step>, i: nat, j: nat, id: Id)
    requires Run(ps, ss) && i <= j < |ps| && id in ps[i].disk.records && !Unresolved(ps[i].disk.records[id])
    ensures id in ps[j].disk.records && ps[j].disk.records[id] == ps[i].disk.records[id]
    decreases j - i
  {
    if i < j {
      CommittedForever(ps, ss, i, j - 1, id);
      RunSound(ps, ss, j - 1);
      assert Apply(ps[j - 1], ss[j - 1]) == Some(ps[j]);
      hide Apply;
      StepForward(ps[j - 1], ss[j - 1]);
      assert RecordForward(ps[j - 1], ps[j], id);
    }
  }

  /** Head sequences grow strictly whenever they change, over any stretch of a run. */
  lemma {:induction false} HeadsAdvance(ps: seq<Publisher>, ss: seq<Step>, i: nat, j: nat, k: Kind)
    requires Run(ps, ss) && i <= j < |ps| && k in ps[i].disk.heads
    ensures HeadForward(ps[i], ps[j], k)
    decreases j - i
  {
    if i < j {
      HeadsAdvance(ps, ss, i, j - 1, k);
      RunSound(ps, ss, j - 1);
      assert Apply(ps[j - 1], ss[j - 1]) == Some(ps[j]);
      hide Apply;
      StepForward(ps[j - 1], ss[j - 1]);
      assert HeadForward(ps[j - 1], ps[j], k);
    }
  }

  /** `read_head` always finds the selected descriptor, whole and with the recorded digest. */
  lemma HeadReadable(ps: seq<Publisher>, ss: seq<Step>, i: nat, k: Kind)
    requires Run(ps, ss) && i < |ps| && k in ps[i].disk.heads
    ensures var d := ps[i].disk;
      d.heads[k].publication in d.records && Durable(d, d.heads[k].publication)
  {
    RunSound(ps, ss, i);
    assert HeadSound(ps[i].disk, k);
    assert RecordSound(ps[i].disk, ps[i].disk.heads[k].publication);
  }

  // ---------------------------------------------------------------- the publisher as it runs

  /** A `commit` that runs to its end; `durable` is whether the descriptor and its directory synced. */
  function Published(d: Disk, id: Id, kind: Kind, payload: Id, sha: Id, durable: bool): Option<Disk> {
    var proposed :- Propose(d, id, kind, payload, sha);
    if durable then Some(Select(proposed.(files := d.files[id := sha], synced := d.synced + {id}), id))
    else Some(SetState(proposed, id, Uncertain))
  }

  lemma ProposeShape(d: Disk, id: Id, kind: Kind, payload: Id, sha: Id)
    requires Propose(d, id, kind, payload, sha).Some?
    ensures var d' := Propose(d, id, kind, payload, sha).value;
      && id !in d.records && !HasUnresolved(d) && (kind == Result ==> Result !in d.heads)
      && id in d'.records && d' == d.(records := d.records[id := d'.records[id]])
      && d'.records[id] == Record(kind, d'.records[id].sequence, payload, sha, Pending)
      && forall other :: other in d.records ==> d.records[other].sequence < d'.records[id].sequence
  {
    hide MaxSequence;
  }

  lemma PublishedSound(d: Disk, id: Id, kind: Kind, payload: Id, sha: Id, durable: bool)
    requires Sound(Publisher(d, Idle))
    ensures var done := Published(d, id, kind, payload, sha, durable);
      done.Some? ==> Sound(Publisher(done.value, Idle)) && id in done.value.records
  {
    var proposed := Propose(d, id, kind, payload, sha);
    if proposed.Some? {
      ProposeKeeps(d, id, kind, payload, sha);
      ProposeShape(d, id, kind, payload, sha);
      hide Propose;
      if durable {
        StepKeeps(Publisher(proposed.value, Writing(id)), Sync);
        SelectKeeps(Apply(Publisher(proposed.value, Writing(id)), Sync).value.disk, Written(id), id);
      } else {
        MarkKeeps(proposed.value, id, Writing(id), Uncertain);
      }
      hide Sound;
    }
  }

  /**
   What a finished `commit` means: refused exactly while something is unresolved, the identifier is taken, or
   a result is already selected; otherwise the new record is the newest, and it is the head if it is durable.
   */
  lemma PublishedMeans(d: Disk, id: Id, kind: Kind, payload: Id, sha: Id, durable: bool)
    ensures var done := Published(d, id, kind, payload, sha, durable);
      && (done.None? <==> id in d.records || HasUnresolved(d) || (kind == Result && Result in d.heads))
      && (done.Some? ==>
            && id in done.value.records
            && var row := done.value.records[id];
            && done.value.records == d.records[id := row]
            && row.kind == kind && row.payload == payload && row.sha == sha
            && (forall other :: other in d.records ==> d.records[other].sequence < row.sequence)
            && row.state == (if durable then Committed else Uncertain)
            && done.value.heads == (if durable then d.heads[kind := Head(id, row.sequence)] else d.heads))
  {
    if Propose(d, id, kind, payload, sha).Some? {
      ProposeShape(d, id, kind, payload, sha);
      hide Propose, MaxSequence;
    }
  }

  /** One attempt's publisher between requests; its methods are the operations when nothing dies. */
  class NativePublisher {
    var disk: Disk

    ghost predicate Valid()
      reads this
    {
      Sound(Publisher(disk, Idle))
    }

    constructor ()
      ensures Valid() && disk == START.disk
    {
      disk := START.disk;
      new;
      StartSound();
    }

    /** `commit`: propose, write and sync the descriptor, select the head. */
    method Commit(id: Id, kind: Kind, payload: Id, sha: Id, durable: bool) returns (state: Option<State>)
      requires Valid()
      modifies this
      ensures Valid()
      ensures Published(old(disk), id, kind, payload, sha, durable) == if state.Some? then Some(disk) else None
      ensures state.None? ==> disk == old(disk)
      ensures state.Some? ==> StateOf(disk, id) == state
    {
      hide MaxSequence;
      var proposed := Propose(disk, id, kind, payload, sha);
      PublishedSound(disk, id, kind, payload, sha, durable);
      hide Sound, Propose;
      if proposed.None? {
        return None;
      }
      disk := proposed.value;
      if !durable {
        disk := SetState(disk, id, Uncertain);
        return Some(Uncertain);
      }
      disk := disk.(files := disk.files[id := sha], synced := disk.synced + {id});
      disk := Select(disk, id);
      return Some(Committed);
    }

    /** `reconcile`: decides the original operation, or leaves it undecided; no new identifier or sequence. */
    method Reconcile(id: Id, readable: bool) returns (state: Option<State>)
      requires Valid()
      modifies this
      ensures Valid()
      ensures state == StateOf(disk, id) && disk.records.Keys == old(disk.records.Keys)
      ensures forall other :: other in old(disk.records) && other != id ==> disk.records[other] == old(disk.records)[other]
      ensures id in old(disk.records) && Unresolved(old(disk.records)[id]) ==>
        var row := old(disk.records)[id];
        if id !in old(disk.files) then state == Some(Rejected) && disk.heads == old(disk.heads)
        else if readable && old(disk.files)[id] == row.sha
        then state == Some(Committed) && disk.heads == old(disk.heads)[row.kind := Head(id, row.sequence)]
        else disk == old(disk)
      ensures id !in old(disk.records) || !Unresolved(old(disk.records)[id]) ==> disk == old(disk)
    {
      if id !in disk.records || !Unresolved(disk.records[id]) {
        return StateOf(disk, id);
      }
      NeverStale(disk, Idle, id);
      if id !in disk.files {
        MarkKeeps(disk, id, Idle, Rejected);
        disk := SetState(disk, id, Rejected);
        return Some(Rejected);
      }
      if !readable || disk.files[id] != disk.records[id].sha {
        return Some(disk.records[id].state);
      }
      StepKeeps(Publisher(disk, Idle), Step.Reconcile(id));
      disk := disk.(synced := disk.synced + {id});
      SelectKeeps(disk, Deciding(id), id);
      disk := Select(disk, id);
      return Some(Committed);
    }
  }
}
