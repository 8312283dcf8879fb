/**
 Resumable immutable uploads (src/artifacts.rs). Files are inodes with names: a partial upload and a published
 blob can be two names of one inode. A crash can tear an append or an abort anywhere.
 */
module Artifacts {
  import opened Options

  type Id = nat
  type Byte = x: int | 0 <= x < 256
  type Bytes = seq<Byte>

  const CHUNK_LIMIT: nat := 1024 * 1024

  /** An upload is identified by what it declares; its name on disk is the digest of exactly this. */
  datatype Upload = Upload(assignment: Id, generation: nat, sha: Id, size: nat)

  /** Inode contents, and the three kinds of names. */
  datatype Store = Store(inodes: map<Id, Bytes>, declared: set<Upload>, partials: map<Upload, Id>, blobs: map<Id, Id>)

  const EMPTY := Store(map[], {}, map[], map[])

  predicate IsPrefix(x: Bytes, y: Bytes) {
    |x| <= |y| && y[..|x|] == x
  }

  function Content(s: Store, inode: Id): Bytes {
    if inode in s.inodes then s.inodes[inode] else []
  }

  function Partial(s: Store, u: Upload): Bytes {
    if u in s.partials then Content(s, s.partials[u]) else []
  }

  function Blob(s: Store, sha: Id): Bytes {
    if sha in s.blobs then Content(s, s.blobs[sha]) else []
  }

  // ---------------------------------------------------------------- operations

  /** `inode` is the number a new file would get; `room` says whether the quota admits a new upload. */
  function Begin(s: Store, u: Upload, maximum: nat, room: bool, inode: Id): Option<(Store, nat)> {
    if u.size > maximum || (u !in s.declared && !room) || inode in s.inodes then None else
    var named := s.(declared := s.declared + {u});
    var ready := if u in s.partials then named
                 else named.(inodes := s.inodes[inode := []], partials := s.partials[u := inode]);
    if |Partial(ready, u)| > u.size then None else Some((ready, |Partial(ready, u)|))
  }

  /** A retry must repeat bytes already held; anything else extends the end, and only up to the declared size. */
  function Append(s: Store, u: Upload, offset: nat, data: Bytes): Option<(Store, nat)> {
    if u !in s.declared || u !in s.partials || |data| > CHUNK_LIMIT then None else
    var held := Partial(s, u);
    if offset > |held| || offset + |data| > u.size then None
    else if offset < |held| || data == [] then
      if offset + |data| <= |held| && held[offset..offset + |data|] == data then Some((s, |held|)) else None
    else Some((Extend(s, u, data), offset + |data|))
  }

  function Extend(s: Store, u: Upload, data: Bytes): Store {
    if u in s.partials then s.(inodes := s.inodes[s.partials[u] := Partial(s, u) + data]) else s
  }

  /** The process died inside `write_all`: some prefix of the chunk reached the file. */
  function TornAppend(s: Store, u: Upload, offset: nat, data: Bytes, written: nat): Store {
    if written <= |data| && Append(s, u, offset, data).Some? && offset == |Partial(s, u)|
    then Extend(s, u, data[..written]) else s
  }

  /** Complete, intact bytes get a second, permanent name; an existing blob must verify instead. */
  function Publish(s: Store, digest: Bytes -> Id, u: Upload): Option<Store> {
    if u !in s.declared || u !in s.partials || |Partial(s, u)| != u.size || digest(Partial(s, u)) != u.sha then None
    else if u.sha in s.blobs then
      if |Blob(s, u.sha)| == u.size && digest(Blob(s, u.sha)) == u.sha then Some(s) else None
    else Some(s.(blobs := s.blobs[u.sha := s.partials[u]]))
  }

  /** Two unlinks; a crash can separate them. */
  function AbortPartial(s: Store, u: Upload): Store {
    if u in s.declared then s.(partials := s.partials - {u}) else s
  }

  function Abort(s: Store, u: Upload): Option<Store> {
    if u in s.declared then Some(AbortPartial(s, u).(declared := s.declared - {u})) else None
  }

  // ---------------------------------------------------------------- invariant

  /** Names resolve, no two uploads share a file, a file that is also a blob is complete, and blobs have their digest. */
  ghost predicate WellLaid(s: Store, digest: Bytes -> Id) {
    && (forall u :: u in s.partials ==> s.partials[u] in s.inodes)
    && (forall sha :: sha in s.blobs ==> s.blobs[sha] in s.inodes)
    && (forall u, v :: u in s.partials && v in s.partials && u != v ==> s.partials[u] != s.partials[v])
    && (forall u, sha :: u in s.partials && sha in s.blobs && s.partials[u] == s.blobs[sha] ==>
          |s.inodes[s.partials[u]]| == u.size)
    && (forall sha :: sha in s.blobs ==> digest(s.inodes[s.blobs[sha]]) == sha)
  }

  /** With honest senders: partial files are prefixes of their sources, and blobs are whole ones. */
  ghost predicate Sound(s: Store, digest: Bytes -> Id, source: Upload -> Bytes) {
    && WellLaid(s, digest)
    && (forall u :: u in s.partials ==> IsPrefix(s.inodes[s.partials[u]], source(u)))
    && (forall sha :: sha in s.blobs ==> IsWhole(s.inodes[s.blobs[sha]], sha, source))
  }

  /** The content is the entire byte string of some upload declared under that digest. */
  ghost predicate IsWhole(content: Bytes, sha: Id, source: Upload -> Bytes) {
    exists u: Upload :: u.sha == sha && source(u) == content
  }

  /** Every sender uploads one fixed byte string of the size it declares. */
  ghost predicate Declares(source: Upload -> Bytes) {
    forall u: Upload :: |source(u)| == u.size
  }

  // ---------------------------------------------------------------- events

  datatype Event =
    | DoBegin(u: Upload, maximum: nat, room: bool, inode: Id)
    | DoAppend(u: Upload, offset: nat, data: Bytes)
    | DieInAppend(u: Upload, offset: nat, data: Bytes, written: nat)
    | DoPublish(u: Upload)
    | DoAbort(u: Upload)
    | DieInAbort(u: Upload)

  /** Each chunk is a slice of the one byte string its sender uploads. */
  ghost predicate Honest(e: Event, source: Upload -> Bytes) {
    (e.DoAppend? || e.DieInAppend?) ==>
      e.offset + |e.data| <= |source(e.u)|
      && source(e.u)[e.offset..e.offset + |e.data|] == e.data
  }

  function Apply(s: Store, digest: Bytes -> Id, e: Event): Store {
    match e
    case DoBegin(u, maximum, room, inode) =>
      var r := Begin(s, u, maximum, room, inode); if r.Some? then r.value.0 else s
    case DoAppend(u, offset, data) => var r := Append(s, u, offset, data); if r.Some? then r.value.0 else s
    case DieInAppend(u, offset, data, written) => TornAppend(s, u, offset, data, written)
    case DoPublish(u) => var r := Publish(s, digest, u); if r.Some? then r.value else s
    case DoAbort(u) => var r := Abort(s, u); if r.Some? then r.value else s
    case DieInAbort(u) => AbortPartial(s, u)
  }

  /** What one event may do to stored bytes. */
  ghost predicate Preserves(s: Store, s': Store) {
    && (forall sha :: sha in s.blobs ==> sha in s'.blobs && Blob(s', sha) == Blob(s, sha))
    && (forall u :: u in s.partials && u in s'.partials && s'.partials[u] == s.partials[u] ==>
          IsPrefix(Partial(s, u), Partial(s', u)))
  }

  lemma SliceExtends(held: Bytes, whole: Bytes, data: Bytes, written: nat)
    requires IsPrefix(held, whole) && |held| + |data| <= |whole| && whole[|held|..|held| + |data|] == data
    requires written <= |data|
    ensures IsPrefix(held + data[..written], whole)
  {
    assert whole[..|held| + written] == held + data[..written];
  }

  /** Appending the next bytes of the source extends one partial and touches no blob. */
  lemma ExtendKeeps(s: Store, digest: Bytes -> Id, source: Upload -> Bytes, u: Upload, data: Bytes, written: nat)
    requires Sound(s, digest, source) && u in s.partials && |source(u)| == u.size
    requires data != [] && written <= |data| && |Partial(s, u)| + |data| <= u.size
    requires source(u)[|Partial(s, u)|..|Partial(s, u)| + |data|] == data
    ensures Sound(Extend(s, u, data[..written]), digest, source) && Preserves(s, Extend(s, u, data[..written]))
  {
    SliceExtends(Partial(s, u), source(u), data, written);
    assert forall sha :: sha in s.blobs ==> s.blobs[sha] != s.partials[u];
  }

  lemma AppendKeeps(s: Store, digest: Bytes -> Id, source: Upload -> Bytes, u: Upload, offset: nat, data: Bytes)
    requires Sound(s, digest, source) && Declares(source) && Honest(DoAppend(u, offset, data), source)
    requires Append(s, u, offset, data).Some?
    ensures var (s', end) := Append(s, u, offset, data).value;
      Sound(s', digest, source) && Preserves(s, s') && end == |Partial(s', u)|
  {
    if offset == |Partial(s, u)| && data != [] {
      ExtendKeeps(s, digest, source, u, data, |data|);
      assert data[..|data|] == data;
    }
  }

  lemma TornKeeps(s: Store, digest: Bytes -> Id, source: Upload -> Bytes, u: Upload, offset: nat, data: Bytes, written: nat)
    requires Sound(s, digest, source) && Declares(source) && Honest(DoAppend(u, offset, data), source)
    ensures Sound(TornAppend(s, u, offset, data, written), digest, source)
    ensures Preserves(s, TornAppend(s, u, offset, data, written))
  {
    if written <= |data| && Append(s, u, offset, data).Some? && offset == |Partial(s, u)| {
      if data == [] {
        assert data[..written] == [] && Partial(s, u) + data[..written] == Partial(s, u);
        assert Extend(s, u, data[..written]).inodes == s.inodes;
        RedeclareKeeps(s, digest, source, s.declared);
      } else {
        ExtendKeeps(s, digest, source, u, data, written);
      }
    }
  }

  /** A published blob is the whole byte string. */
  lemma PublishKeeps(s: Store, digest: Bytes -> Id, source: Upload -> Bytes, u: Upload)
    requires Sound(s, digest, source) && Declares(source) && Publish(s, digest, u).Some?
    ensures var s' := Publish(s, digest, u).value;
      && Sound(s', digest, source) && Preserves(s, s')
      && u.sha in s'.blobs && digest(Blob(s', u.sha)) == u.sha && |Blob(s', u.sha)| == u.size
      && (u.sha !in s.blobs ==> Blob(s', u.sha) == source(u))
  {
    assert Partial(s, u) == source(u);
    assert IsWhole(Partial(s, u), u.sha, source);
  }

  lemma RedeclareKeeps(s: Store, digest: Bytes -> Id, source: Upload -> Bytes, declared: set<Upload>)
    requires Sound(s, digest, source)
    ensures Sound(s.(declared := declared), digest, source) && Preserves(s, s.(declared := declared))
  {
  }

  lemma NewPartialKeeps(s: Store, digest: Bytes -> Id, source: Upload -> Bytes, u: Upload, inode: Id)
    requires Sound(s, digest, source) && u !in s.partials && inode !in s.inodes
    ensures var s' := s.(inodes := s.inodes[inode := []], partials := s.partials[u := inode]);
      Sound(s', digest, source) && Preserves(s, s')
  {
  }

  lemma PreservesTransitive(a: Store, b: Store, c: Store)
    requires Preserves(a, b) && Preserves(b, c)
    requires forall u :: u in a.partials ==> u in b.partials && b.partials[u] == a.partials[u]
    ensures Preserves(a, c)
  {
  }

  lemma BeginKeeps(s: Store, digest: Bytes -> Id, source: Upload -> Bytes, u: Upload, maximum: nat, room: bool, inode: Id)
    requires Sound(s, digest, source) && Begin(s, u, maximum, room, inode).Some?
    ensures var (s', offset) := Begin(s, u, maximum, room, inode).value;
      Sound(s', digest, source) && Preserves(s, s') && offset == |Partial(s', u)|
  {
    var named := s.(declared := s.declared + {u});
    RedeclareKeeps(s, digest, source, s.declared + {u});
    if u !in s.partials {
      NewPartialKeeps(named, digest, source, u, inode);
      PreservesTransitive(s, named, Begin(s, u, maximum, room, inode).value.0);
      hide Preserves, Sound;
    } else {
      hide Preserves, Sound;
    }
  }

  lemma AbortKeeps(s: Store, digest: Bytes -> Id, source: Upload -> Bytes, u: Upload)
    requires Sound(s, digest, source)
    ensures Sound(AbortPartial(s, u), digest, source) && Preserves(s, AbortPartial(s, u))
    ensures Abort(s, u).Some? ==> Sound(Abort(s, u).value, digest, source) && Preserves(s, Abort(s, u).value)
  {
    DropKeeps(s, digest, source, u, s.declared);
    DropKeeps(s, digest, source, u, s.declared - {u});
    RedeclareKeeps(s, digest, source, s.declared);
    hide Preserves, Sound;
  }

  lemma DropKeeps(s: Store, digest: Bytes -> Id, source: Upload -> Bytes, u: Upload, declared: set<Upload>)
    requires Sound(s, digest, source)
    ensures var s' := s.(partials := s.partials - {u}, declared := declared);
      Sound(s', digest, source) && Preserves(s, s')
  {
  }

  lemma ApplyKeeps(s: Store, digest: Bytes -> Id, source: Upload -> Bytes, e: Event)
    requires Sound(s, digest, source) && Declares(source) && Honest(e, source)
    ensures Sound(Apply(s, digest, e), digest, source) && Preserves(s, Apply(s, digest, e))
  {
    RedeclareKeeps(s, digest, source, s.declared);
    hide Preserves, Begin, Append, TornAppend, Publish, Abort, AbortPartial;
    match e {
      case DoBegin(u, maximum, room, inode) =>
        if Begin(s, u, maximum, room, inode).Some? {
          BeginKeeps(s, digest, source, u, maximum, room, inode);
        }
      case DoAppend(u, offset, data) =>
        if Append(s, u, offset, data).Some? {
          AppendKeeps(s, digest, source, u, offset, data);
        }
      case DieInAppend(u, offset, data, written) => TornKeeps(s, digest, source, u, offset, data, written);
      case DoPublish(u) =>
        if Publish(s, digest, u).Some? {
          PublishKeeps(s, digest, source, u);
        }
      case DoAbort(u) => AbortKeeps(s, digest, source, u);
      case DieInAbort(u) => AbortKeeps(s, digest, source, u);
    }
  }

  // ---------------------------------------------------------------- whole runs

  function Replay(digest: Bytes -> Id, es: seq<Event>): Store {
    if es == [] then EMPTY else Apply(Replay(digest, es[..|es| - 1]), digest, es[|es| - 1])
  }

  ghost predicate AllHonest(es: seq<Event>, source: Upload -> Bytes) {
    Declares(source) && forall i :: 0 <= i < |es| ==> Honest(es[i], source)
  }

  /** After any run of retries, delayed chunks, aborts and crashes, every partial file is a prefix of its source. */
  lemma {:induction false} RunSound(digest: Bytes -> Id, source: Upload -> Bytes, es: seq<Event>)
    requires AllHonest(es, source)
    ensures Sound(Replay(digest, es), digest, source)
    ensures forall u :: u in Replay(digest, es).partials ==> IsPrefix(Partial(Replay(digest, es), u), source(u))
  {
    if es != [] {
      RunSound(digest, source, es[..|es| - 1]);
      ApplyKeeps(Replay(digest, es[..|es| - 1]), digest, source, es[|es| - 1]);
      hide Apply;
    }
  }

  lemma {:induction false} BlobsForever(digest: Bytes -> Id, source: Upload -> Bytes, es: seq<Event>, i: nat, sha: Id)
    requires AllHonest(es, source) && i <= |es| && sha in Replay(digest, es[..i]).blobs
    ensures sha in Replay(digest, es).blobs && Blob(Replay(digest, es), sha) == Blob(Replay(digest, es[..i]), sha)
    decreases |es|
  {
    if i == |es| {
      assert es[..i] == es;
    } else {
      var n := |es| - 1;
      assert es[..n][..i] == es[..i];
      BlobsForever(digest, source, es[..n], i, sha);
      RunSound(digest, source, es[..n]);
      ApplyKeeps(Replay(digest, es[..n]), digest, source, es[n]);
      hide Apply, Sound;
    }
  }

  /** Digests identify sources among the uploads in play. */
  ghost predicate NoCollision(source: Upload -> Bytes, sha: Id) {
    forall u: Upload, v: Upload :: u.sha == sha && v.sha == sha ==> source(u) == source(v)
  }

  /** Once a publication succeeds, the blob is the sender's whole byte string, from then on and for ever. */
  lemma PublishedIsWhole(digest: Bytes -> Id, source: Upload -> Bytes, es: seq<Event>, i: nat, u: Upload)
    requires AllHonest(es, source) && i < |es| && es[i] == DoPublish(u) && NoCollision(source, u.sha)
    requires Publish(Replay(digest, es[..i]), digest, u).Some?
    ensures u.sha in Replay(digest, es).blobs && Blob(Replay(digest, es), u.sha) == source(u)
  {
    assert es[..i + 1][..i] == es[..i];
    var s := Replay(digest, es[..i]);
    RunSound(digest, source, es[..i]);
    PublishKeeps(s, digest, source, u);
    WholeIsSource(Apply(s, digest, es[i]), digest, source, u);
    BlobsForever(digest, source, es, i + 1, u.sha);
    hide Publish, Sound;
  }

  lemma WholeIsSource(s: Store, digest: Bytes -> Id, source: Upload -> Bytes, u: Upload)
    requires Sound(s, digest, source) && NoCollision(source, u.sha) && u.sha in s.blobs
    ensures Blob(s, u.sha) == source(u)
  {
    assert IsWhole(s.inodes[s.blobs[u.sha]], u.sha, source);
  }

  // ---------------------------------------------------------------- the store as it runs

  /** The coordinator's artifact directory. */
  class ArtifactStore {
    const digest: Bytes -> Id
    const maximum: nat
    var inodes: map<Id, Bytes>
    var declared: set<Upload>
    var partials: map<Upload, Id>
    var blobs: map<Id, Id>

    function Disk(): Store
      reads this
    {
      Store(inodes, declared, partials, blobs)
    }

    ghost predicate Valid()
      reads this
    {
      WellLaid(Disk(), digest)
    }

    constructor (digest: Bytes -> Id, maximum: nat)
      ensures Valid() && this.digest == digest && this.maximum == maximum && Disk() == EMPTY
    {
      this.digest, this.maximum := digest, maximum;
      inodes, declared, partials, blobs := map[], {}, map[], map[];
    }

    /** Answers where to resume; a new upload starts empty and an old one keeps its bytes. */
    method BeginUpload(u: Upload, room: bool, inode: Id) returns (offset: Option<nat>)
      requires Valid()
      modifies this
      ensures Valid()
      ensures match Begin(old(Disk()), u, maximum, room, inode)
        case None => offset == None
        case Some(r) => offset == Some(r.1) && Disk() == r.0
      ensures blobs == old(blobs) && forall i :: i in old(inodes) ==> i in inodes && inodes[i] == old(inodes)[i]
      ensures forall sha :: sha in blobs ==> Blob(Disk(), sha) == old(Blob(Disk(), sha))
      ensures offset.Some? ==>
        && u in declared && u in partials && |Partial(Disk(), u)| == offset.value <= u.size
        && Partial(Disk(), u) == old(Partial(Disk(), u))
    {
      if u.size > maximum || (u !in declared && !room) || inode in inodes {
        return None;
      }
      declared := declared + {u};
      if u !in partials {
        inodes := inodes[inode := []];
        partials := partials[u := inode];
      }
      var held := Partial(Disk(), u);
      return if |held| > u.size then None else Some(|held|);
    }

    /**
     An acknowledged chunk lies in the file at its offset, the bytes held before are still there, the answer
     is the file's length, nothing went past the chunk or the declared size, and no other file and no blob
     changed. An acknowledged chunk can be sent again and is acknowledged with the same answer.
     */
    method AppendChunk(u: Upload, offset: nat, data: Bytes) returns (end: Option<nat>)
      requires Valid()
      modifies this`inodes
      ensures Valid()
      ensures forall sha :: sha in blobs ==> Blob(Disk(), sha) == old(Blob(Disk(), sha))
      ensures forall v :: v in partials && v != u ==> Partial(Disk(), v) == old(Partial(Disk(), v))
      ensures end.Some? ==> var file, was := Partial(Disk(), u), old(Partial(Disk(), u));
        && |file| == end.value && IsPrefix(was, file)
        && |file| == (if |was| < offset + |data| then offset + |data| else |was|)
        && offset + |data| <= |file| && file[offset..offset + |data|] == data
        && (|was| < |file| ==> |file| <= u.size)
        && Append(Disk(), u, offset, data) == Some((Disk(), end.value))
      ensures match Append(old(Disk()), u, offset, data)
        case None => end == None && Disk() == old(Disk())
        case Some(r) => end == Some(r.1) && Disk() == r.0
    {
      if u !in declared || u !in partials || |data| > CHUNK_LIMIT {
        return None;
      }
      var held := Partial(Disk(), u);
      if offset > |held| || offset + |data| > u.size {
        return None;
      }
      if offset < |held| || data == [] {
        if offset + |data| <= |held| && held[offset..offset + |data|] == data {
          return Some(|held|);
        }
        return None;
      }
      inodes := inodes[partials[u] := held + data];
      return Some(offset + |data|);
    }

    /**
     Success means a blob of the declared size and digest under the declared name, and if it is new, the
     uploaded bytes themselves; blobs already there keep their bytes.
     */
    method PublishUpload(u: Upload) returns (ok: bool)
      requires Valid()
      modifies this`blobs
      ensures Valid()
      ensures forall sha :: sha in old(blobs) ==> sha in blobs && Blob(Disk(), sha) == old(Blob(Disk(), sha))
      ensures blobs.Keys == if ok then old(blobs).Keys + {u.sha} else old(blobs).Keys
      ensures ok ==> |Blob(Disk(), u.sha)| == u.size && digest(Blob(Disk(), u.sha)) == u.sha
      ensures ok && u.sha !in old(blobs) ==> Blob(Disk(), u.sha) == Partial(Disk(), u)
      ensures Publish(old(Disk()), digest, u) == if ok then Some(Disk()) else None
      ensures !ok ==> Disk() == old(Disk())
    {
      if u !in declared || u !in partials || |Partial(Disk(), u)| != u.size || digest(Partial(Disk(), u)) != u.sha {
        return false;
      }
      if u.sha in blobs {
        return |Blob(Disk(), u.sha)| == u.size && digest(Blob(Disk(), u.sha)) == u.sha;
      }
      blobs := blobs[u.sha := partials[u]];
      return true;
    }
  }

  /**
   The agent's loop: begin, send slices from wherever the store stands, check every acknowledgement, commit.
   `bite` is how many bytes one read returns.
   */
  method SendFile(store: ArtifactStore, u: Upload, file: Bytes, room: bool, inode: Id, bite: nat) returns (ok: bool)
    requires store.Valid() && 0 < bite <= CHUNK_LIMIT && u.size == |file| && u.sha == store.digest(file)
    requires u in store.partials ==> IsPrefix(Partial(store.Disk(), u), file)
    requires inode !in store.inodes
    modifies store
    ensures store.Valid()
    ensures forall sha :: sha in old(store.blobs) ==>
              sha in store.blobs && Blob(store.Disk(), sha) == old(Blob(store.Disk(), sha))
    ensures ok ==> u.sha in store.blobs && store.digest(Blob(store.Disk(), u.sha)) == u.sha
                   && |Blob(store.Disk(), u.sha)| == |file|
    ensures ok && u.sha !in old(store.blobs) ==> Blob(store.Disk(), u.sha) == file
  {
    hide Begin, Append, Publish, WellLaid, Blob;
    ghost var blobs := store.blobs;
    var begun := store.BeginUpload(u, room, inode);
    if begun.None? {
      return false;
    }
    var offset := begun.value;
    while offset < |file|
      invariant store.Valid() && u in store.declared && u in store.partials && store.blobs == blobs
      invariant forall sha :: sha in blobs ==> Blob(store.Disk(), sha) == old(Blob(store.Disk(), sha))
      invariant offset <= |file| && Partial(store.Disk(), u) == file[..offset]
    {
      var n := if |file| - offset < bite then |file| - offset else bite;
      var ack := store.AppendChunk(u, offset, file[offset..offset + n]);
      if ack != Some(offset + n) {
        return false;
      }
      assert file[..offset] + file[offset..offset + n] == file[..offset + n];
      offset := offset + n;
    }
    assert file[..offset] == file;
    ok := store.PublishUpload(u);
  }
}
