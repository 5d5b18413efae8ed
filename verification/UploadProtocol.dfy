/**
 The resumable upload protocol as a transition system over Redis, S3 and the database. A chunk request is split at
 its UploadPart call and a finalize request at each of its outside calls, so that requests interleave; everything
 else is atomic. S3 calls may be refused, or take effect with the reply lost.
 */
module UploadProtocol {
  import opened FileFormat

  type UserId = nat
  type UploadId = nat
  type S3Id = nat
  type StorageKey = nat
  type FileId = nat
  type RequestId = nat
  /** Milliseconds. */
  type Time = nat

  const UPLOAD_META_TTL: nat := 86400 * 1000
  const INCOMPLETE_UPLOAD_STALE: nat := 60 * 60 * 1000
  const DEFAULT_MAX_FILE_SIZE: nat := 2 * 1024 * 1024 * 1024 - 1
  const ADMIN_MAX_FILE_SIZE: nat := 50 * 1024 * 1024 * 1024
  const DEFAULT_FILE_QUOTA: nat := 2 * 1024 * 1024 * 1024
  const ADMIN_FILE_QUOTA: nat := 50 * 1024 * 1024 * 1024

  /** What stays fixed: the cap on active uploads, the user rows, and which user has the admin limits. */
  datatype Config = Config(cap: nat, users: set<UserId>, admins: set<UserId>)

  function MaxFileSize(c: Config, u: UserId): nat {
    if u in c.admins then ADMIN_MAX_FILE_SIZE else DEFAULT_MAX_FILE_SIZE
  }

  function QuotaLimit(c: Config, u: UserId): nat {
    if u in c.admins then ADMIN_FILE_QUOTA else DEFAULT_FILE_QUOTA
  }

  // ----------------------------------------------------------------- state

  datatype UploadMeta = UploadMeta(
    totalChunks: nat,
    nextExpectedChunk: nat,
    fileSize: nat,
    storageKey: StorageKey,
    s3UploadId: S3Id,
    parts: seq<nat>,
    createdAt: Time,
    updatedAt: Time
  )

  datatype MetaEntry = MetaEntry(meta: UploadMeta, expiresAt: Time)
  datatype ActiveSet = ActiveSet(ids: set<UploadId>, expiresAt: Time)
  datatype StorageIndex = StorageIndex(user: UserId, uploadId: UploadId, expiresAt: Time)

  datatype Part = Part(size: int, modified: Time)
  datatype Multipart = Multipart(key: StorageKey, initiated: Time, parts: map<nat, Part>)

  /** `from` is history: the multipart upload the row was made from. */
  datatype FileRow = FileRow(id: FileId, owner: UserId, storageName: StorageKey, size: nat, from: S3Id)

  /** History: what each S3 upload id was created for. */
  datatype Upload = Upload(user: UserId, uploadId: UploadId, key: StorageKey, fileSize: nat)

  /** A chunk request between its metadata refresh and the reply of UploadPart. */
  datatype ChunkRequest = ChunkRequest(user: UserId, uploadId: UploadId, meta: UploadMeta)

  /** How far a finalize request has come: before Complete, after it, after the size check, after the row. */
  datatype Phase = Started | Assembled | Checked | Recorded

  datatype FinalizeRequest = FinalizeRequest(user: UserId, uploadId: UploadId, meta: UploadMeta, phase: Phase)

  datatype State = State(
    now: Time,
    metas: map<(UserId, UploadId), MetaEntry>,
    active: map<UserId, ActiveSet>,
    index: map<S3Id, StorageIndex>,
    open: map<S3Id, Multipart>,
    objects: map<StorageKey, int>,
    rows: seq<FileRow>,
    chunking: map<RequestId, ChunkRequest>,
    finalizing: map<RequestId, FinalizeRequest>,
    // history
    uploads: map<S3Id, Upload>,
    completed: set<S3Id>,
    lost: set<S3Id>
  )

  const INITIAL: State := State(0, map[], map[], map[], map[], map[], [], map[], map[], map[], {}, {})

  /** An S3 call: acknowledged, refused without effect, or carried out with the reply lost. */
  datatype Call = Acked | Refused | Unheard

  datatype Reply = Accepted | Rejected

  // ------------------------------------------------------------ primitives

  function Ids(s: State, u: UserId): set<UploadId> {
    if u in s.active then s.active[u].ids else {}
  }

  /** releaseActiveUpload */
  function Release(s: State, u: UserId, id: UploadId): State {
    if u in s.active then s.(active := s.active[u := s.active[u].(ids := s.active[u].ids - {id})]) else s
  }

  /** All Redis traces of one upload are removed. */
  function Forget(s: State, u: UserId, id: UploadId, s3: S3Id): State {
    Release(s.(metas := s.metas - {(u, id)}, index := s.index - {s3}), u, id)
  }

  /** AbortMultipartUpload; a closed upload id is refused. */
  function Abort(s: State, s3: S3Id, call: Call): State {
    if s3 !in s.open || call.Refused? then s
    else if call.Acked? then s.(open := s.open - {s3})
    else s.(open := s.open - {s3}, lost := s.lost + {s3})
  }

  predicate AbortSucceeds(s: State, s3: S3Id, call: Call) {
    s3 in s.open && call.Acked?
  }

  /** Abort an upload and, only if that succeeds, forget it. */
  function Drop(s: State, u: UserId, id: UploadId, s3: S3Id, call: Call): State {
    if AbortSucceeds(s, s3, call) then Abort(Forget(s, u, id, s3), s3, call) else Abort(s, s3, call)
  }

  /** refreshUploadState: one MULTI that renews the metadata, the active set and the reverse index. */
  function Refresh(s: State, u: UserId, id: UploadId, meta: UploadMeta): State {
    var expiry := s.now + UPLOAD_META_TTL;
    var s3 := meta.s3UploadId;
    s.(metas := s.metas[(u, id) := MetaEntry(meta, expiry)],
       active := if u in s.active then s.active[u := s.active[u].(expiresAt := expiry)] else s.active,
       index := if s3 in s.index then s.index[s3 := s.index[s3].(expiresAt := expiry)] else s.index)
  }

  function StorePart(s: State, s3: S3Id, number: nat, size: int): State
    requires s3 in s.open
  {
    s.(open := s.open[s3 := s.open[s3].(parts := s.open[s3].parts[number := Part(size, s.now)])])
  }

  // ------------------------------------------------------- making room

  /** An active upload with metadata. */
  datatype Candidate = Candidate(uploadId: UploadId, meta: UploadMeta)

  function Candidates(s: State, u: UserId, order: seq<UploadId>): seq<Candidate> {
    if order == [] then []
    else (if (u, order[0]) in s.metas then [Candidate(order[0], s.metas[(u, order[0])].meta)] else [])
         + Candidates(s, u, order[1..])
  }

  function InsertByAge(c: Candidate, sorted: seq<Candidate>): seq<Candidate> {
    if sorted == [] || c.meta.createdAt <= sorted[0].meta.createdAt then [c] + sorted
    else [sorted[0]] + InsertByAge(c, sorted[1..])
  }

  /** The stable sort by creation time. */
  function SortByAge(cs: seq<Candidate>): seq<Candidate> {
    if cs == [] then [] else InsertByAge(cs[0], SortByAge(cs[1..]))
  }

  /** Ids whose metadata is gone leave the active set. */
  function DropStale(s: State, u: UserId): State {
    if u in s.active then
      s.(active := s.active[u := s.active[u].(ids := set id | id in s.active[u].ids && (u, id) in s.metas)])
    else s
  }

  /** Evicts the victims in turn; stops at the first whose abort fails. */
  function EvictAll(s: State, u: UserId, victims: seq<Candidate>, calls: S3Id -> Call): (State, bool)
    decreases |victims|
  {
    if victims == [] then (s, true)
    else
      var c := victims[0];
      var s' := Drop(s, u, c.uploadId, c.meta.s3UploadId, calls(c.meta.s3UploadId));
      if AbortSucceeds(s, c.meta.s3UploadId, calls(c.meta.s3UploadId)) then EvictAll(s', u, victims[1..], calls)
      else (s', false)
  }

  /** The oldest uploads that must go to leave room for one more. */
  function Victims(c: Config, s: State, u: UserId, order: seq<UploadId>): seq<Candidate> {
    var sorted := SortByAge(Candidates(s, u, order));
    var excess := |sorted| - c.cap + 1;
    if 0 < excess <= |sorted| then sorted[..excess] else []
  }

  /** makeRoomForActiveUpload; `order` is how SMEMBERS lists the active set. */
  function MakeRoom(c: Config, s: State, u: UserId, order: seq<UploadId>, calls: S3Id -> Call): (State, bool) {
    if |order| < c.cap then (s, true)
    else EvictAll(DropStale(s, u), u, Victims(c, s, u, order), calls)
  }

  // ------------------------------------------------------------ operations

  /** The ids an init draws at random. */
  datatype FreshIds = FreshIds(uploadId: UploadId, s3: S3Id, key: StorageKey)

  /** The recorded bytes of a user. */
  function Usage(rows: seq<FileRow>, u: UserId): nat {
    if rows == [] then 0
    else (if rows[0].owner == u then rows[0].size else 0) + Usage(rows[1..], u)
  }

  /** The rows that satisfy neither deletion criterion. */
  function RowsWithout(rows: seq<FileRow>, gone: FileRow -> bool): seq<FileRow> {
    if rows == [] then []
    else (if gone(rows[0]) then [] else [rows[0]]) + RowsWithout(rows[1..], gone)
  }

  /** SADD and EXPIRE. */
  function Reserve(s: State, u: UserId, id: UploadId): State {
    s.(active := s.active[u := ActiveSet(Ids(s, u) + {id}, s.now + UPLOAD_META_TTL)])
  }

  predicate InitAllowed(c: Config, s: State, u: UserId, fileSize: nat, totalChunks: int, live: bool, lockFree: bool) {
    && live
    && totalChunks == ChunkCount(fileSize)
    && u in c.users
    && fileSize <= MaxFileSize(c, u)
    && Usage(s.rows, u) + fileSize <= QuotaLimit(c, u)
    && lockFree
  }

  /** CreateMultipartUpload. */
  function Create(s: State, u: UserId, fileSize: nat, ids: FreshIds): State {
    s.(open := s.open[ids.s3 := Multipart(ids.key, s.now, map[])],
       uploads := s.uploads[ids.s3 := Upload(u, ids.uploadId, ids.key, fileSize)])
  }

  /** The metadata and the reverse index of a new upload. */
  function Track(s: State, u: UserId, fileSize: nat, ids: FreshIds): State {
    var meta := UploadMeta(ChunkCount(fileSize), 0, fileSize, ids.key, ids.s3, [], s.now, s.now);
    s.(metas := s.metas[(u, ids.uploadId) := MetaEntry(meta, s.now + UPLOAD_META_TTL)],
       index := s.index[ids.s3 := StorageIndex(u, ids.uploadId, s.now + UPLOAD_META_TTL)])
  }

  /** initializeUpload; `calls` decides the aborts of evicted uploads, `undo` the abort on the error path. */
  function Init(c: Config, s: State, u: UserId, fileSize: nat, totalChunks: int, live: bool, lockFree: bool, ids: FreshIds,
                create: Call, order: seq<UploadId>, calls: S3Id -> Call, undo: Call): (State, Reply)
  {
    if !InitAllowed(c, s, u, fileSize, totalChunks, live, lockFree) || create.Refused? then (s, Rejected)
    else if create.Unheard? then (Create(s, u, fileSize, ids), Rejected)
    else
      var room := MakeRoom(c, Track(Create(s, u, fileSize, ids), u, fileSize, ids), u, order, calls);
      if room.1 then (Reserve(room.0, u, ids.uploadId), Accepted)
      else (Abort(Forget(room.0, u, ids.uploadId, ids.s3), ids.s3, undo), Rejected)
  }

  /** handleChunk up to its UploadPart call. */
  function BeginChunk(s: State, u: UserId, id: UploadId, chunkIndex: int, size: int, req: RequestId): (State, Reply) {
    if (u, id) !in s.metas then (s, Rejected)
    else
      var meta := s.metas[(u, id)].meta;
      if chunkIndex != meta.nextExpectedChunk || chunkIndex >= meta.totalChunks
         || size != ScheduledChunkSize(meta.fileSize, meta.totalChunks, chunkIndex) then (s, Rejected)
      else
        var meta' := meta.(updatedAt := s.now);
        (Refresh(s, u, id, meta').(chunking := s.chunking[req := ChunkRequest(u, id, meta')]), Accepted)
  }

  /** handleChunk from its UploadPart call on; `late` is the abort of a part that came after a cancellation. */
  function FinishChunk(s: State, req: RequestId, put: Call, late: Call): (State, Reply)
    requires req in s.chunking
  {
    var r := s.chunking[req];
    var s3 := r.meta.s3UploadId;
    var rest := s.(chunking := s.chunking - {req});
    if s3 !in s.open || put.Refused? then (rest, Rejected)
    else
      var number := r.meta.nextExpectedChunk + 1;
      var stored := StorePart(rest, s3, number, ScheduledChunkSize(r.meta.fileSize, r.meta.totalChunks, r.meta.nextExpectedChunk));
      if put.Unheard? then (stored, Rejected)
      else if (r.user, r.uploadId) !in s.metas then (Abort(stored, s3, late), Rejected)
      else
        (Refresh(stored, r.user, r.uploadId,
                 r.meta.(parts := r.meta.parts + [number], nextExpectedChunk := number, updatedAt := s.now)),
         Accepted)
  }

  /** finalizeUpload up to its Complete call. */
  function StartFinalize(s: State, u: UserId, id: UploadId, totalChunks: int, live: bool, req: RequestId): (State, Reply) {
    if !live || (u, id) !in s.metas then (s, Rejected)
    else
      var meta := s.metas[(u, id)].meta;
      if |meta.parts| != meta.totalChunks || totalChunks != meta.totalChunks then (s, Rejected)
      else (s.(finalizing := s.finalizing[req := FinalizeRequest(u, id, meta, Started)]), Accepted)
  }

  /** The error path: the upload is aborted, or the object deleted if there is one, and everything is forgotten. */
  function FailFinalize(s: State, req: RequestId, cleanup: Call): State
    requires req in s.finalizing
  {
    var r := s.finalizing[req];
    var forgotten := Forget(s.(finalizing := s.finalizing - {req}), r.user, r.uploadId, r.meta.s3UploadId);
    if r.phase.Started? then Abort(forgotten, r.meta.s3UploadId, cleanup)
    else if cleanup.Refused? then forgotten
    else forgotten.(objects := forgotten.objects - {r.meta.storageKey})
  }

  function Advance(s: State, req: RequestId, phase: Phase): State
    requires req in s.finalizing
  {
    s.(finalizing := s.finalizing[req := s.finalizing[req].(phase := phase)])
  }

  /** The size of the object S3 assembles from parts 1..n. */
  function AssembledSize(parts: map<nat, Part>, n: nat): int
    requires forall p :: 1 <= p <= n ==> p in parts
  {
    if n == 0 then 0 else AssembledSize(parts, n - 1) + parts[n].size
  }

  predicate HasParts(parts: map<nat, Part>, n: nat) {
    forall p :: 1 <= p <= n ==> p in parts
  }

  /** S3 closes the upload and makes the object. */
  function Assemble(s: State, s3: S3Id, n: nat): State
    requires s3 in s.open && HasParts(s.open[s3].parts, n)
  {
    s.(open := s.open - {s3},
       objects := s.objects[s.open[s3].key := AssembledSize(s.open[s3].parts, n)],
       completed := s.completed + {s3})
  }

  /** CompleteMultipartUpload lists the parts of the metadata; a closed upload or a missing part is refused. */
  function CompleteStep(s: State, req: RequestId, complete: Call, cleanup: Call): State
    requires req in s.finalizing
  {
    var r := s.finalizing[req];
    var s3 := r.meta.s3UploadId;
    if s3 !in s.open || complete.Refused? || !HasParts(s.open[s3].parts, |r.meta.parts|) then FailFinalize(s, req, cleanup)
    else
      var assembled := Assemble(s, s3, |r.meta.parts|);
      if complete.Acked? then Advance(assembled, req, Assembled) else FailFinalize(assembled, req, cleanup)
  }

  predicate SizeConfirmed(s: State, meta: UploadMeta) {
    && meta.storageKey in s.objects
    && ExpectedEncryptedSize(meta.fileSize) == Success(s.objects[meta.storageKey])
  }

  /** HeadObject and the size check. */
  function HeadStep(s: State, req: RequestId, head: Call, cleanup: Call): State
    requires req in s.finalizing
  {
    if !head.Acked? || !SizeConfirmed(s, s.finalizing[req].meta) then FailFinalize(s, req, cleanup)
    else Advance(s, req, Checked)
  }

  predicate RecordAllowed(c: Config, s: State, u: UserId, fileSize: nat) {
    u in c.users && fileSize <= MaxFileSize(c, u) && Usage(s.rows, u) + fileSize <= QuotaLimit(c, u)
  }

  /** The transaction that locks the user row, checks the limits and creates the file row. */
  function CommitStep(c: Config, s: State, req: RequestId, id: FileId, dbOk: bool, cleanup: Call): State
    requires req in s.finalizing
  {
    var r := s.finalizing[req];
    if !dbOk || !RecordAllowed(c, s, r.user, r.meta.fileSize) then FailFinalize(s, req, cleanup)
    else
      Advance(s.(rows := s.rows + [FileRow(id, r.user, r.meta.storageKey, r.meta.fileSize, r.meta.s3UploadId)]), req, Recorded)
  }

  /** The cleanup after a row was recorded. */
  function CleanupStep(s: State, req: RequestId): State
    requires req in s.finalizing
  {
    var r := s.finalizing[req];
    Forget(s.(finalizing := s.finalizing - {req}), r.user, r.uploadId, r.meta.s3UploadId)
  }

  /** cancelUpload */
  function Cancel(s: State, u: UserId, id: UploadId, call: Call): State {
    if (u, id) !in s.metas then Release(s, u, id)
    else Drop(s, u, id, s.metas[(u, id)].meta.s3UploadId, call)
  }

  function OwnedBy(u: UserId): FileRow -> bool {
    (r: FileRow) => r.owner == u
  }

  function HasId(id: FileId): FileRow -> bool {
    (r: FileRow) => r.id == id
  }

  /** The objects of the rows to delete. */
  function ObjectsOf(rows: seq<FileRow>, gone: FileRow -> bool): set<StorageKey> {
    set r | r in rows && gone(r) :: r.storageName
  }

  /** deleteFileInternal */
  function DeleteFile(s: State, id: FileId, call: Call): State {
    var keys := ObjectsOf(s.rows, HasId(id));
    s.(rows := RowsWithout(s.rows, HasId(id)),
       objects := if call.Refused? then s.objects else s.objects - keys)
  }

  /** abortRedisBackedUploads and deleteRedisKeys for one upload; its reverse index stays behind. */
  function ClearMeta(s: State, u: UserId, id: UploadId, calls: S3Id -> Call): State {
    if (u, id) !in s.metas then s
    else
      var s3 := s.metas[(u, id)].meta.s3UploadId;
      Abort(s.(metas := s.metas - {(u, id)}), s3, calls(s3))
  }

  function ClearMetas(s: State, u: UserId, ids: seq<UploadId>, calls: S3Id -> Call): State
    decreases |ids|
  {
    if ids == [] then s else ClearMetas(ClearMeta(s, u, ids[0], calls), u, ids[1..], calls)
  }

  /** clearUserData of the admin service; `stuck` are objects whose deletion fails. */
  function AdminClear(s: State, u: UserId, ids: seq<UploadId>, stuck: set<StorageKey>, calls: S3Id -> Call): State {
    var keys := ObjectsOf(s.rows, OwnedBy(u)) - stuck;
    var emptied := s.(rows := RowsWithout(s.rows, OwnedBy(u)), objects := s.objects - keys);
    ClearMetas(emptied, u, ids, calls).(active := s.active - {u})
  }

  function LiveMetas(metas: map<(UserId, UploadId), MetaEntry>, now: Time): map<(UserId, UploadId), MetaEntry> {
    map k | k in metas && now < metas[k].expiresAt :: metas[k]
  }

  function LiveSets(active: map<UserId, ActiveSet>, now: Time): map<UserId, ActiveSet> {
    map u | u in active && now < active[u].expiresAt :: active[u]
  }

  function LiveIndexes(index: map<S3Id, StorageIndex>, now: Time): map<S3Id, StorageIndex> {
    map x | x in index && now < index[x].expiresAt :: index[x]
  }

  /** Time passes and Redis expires what is due. */
  function Tick(s: State, dt: nat): State {
    var now := s.now + dt;
    s.(now := now, metas := LiveMetas(s.metas, now), active := LiveSets(s.active, now), index := LiveIndexes(s.index, now))
  }

  // ---------------------------------------------------------------- sweep

  predicate Tracked(s: State, s3: S3Id) {
    s3 in s.index && (s.index[s3].user, s.index[s3].uploadId) in s.metas
  }

  /** The latest time storage knows of an upload: its initiation or the modification of a part. */
  ghost function StoredActivity(m: Multipart): (t: Time)
    ensures m.initiated <= t && forall p :: p in m.parts ==> m.parts[p].modified <= t
    ensures t == m.initiated || exists p :: p in m.parts && m.parts[p].modified == t
    decreases |m.parts|
  {
    if m.parts == map[] then m.initiated
    else
      var p :| p in m.parts;
      var rest := StoredActivity(m.(parts := m.parts - {p}));
      assert forall q :: q in m.parts && q != p ==> q in m.parts - {p} && (m.parts - {p})[q] == m.parts[q];
      if m.parts[p].modified <= rest then rest else m.parts[p].modified
  }

  /** getMultipartLastActivity: the tracked time, else the latest time storage knows. */
  ghost function LastActivity(s: State, s3: S3Id): Time
    requires s3 in s.open
  {
    if Tracked(s, s3) then s.metas[(s.index[s3].user, s.index[s3].uploadId)].meta.updatedAt else StoredActivity(s.open[s3])
  }

  /** How storage behaves during one sweep: uploads whose parts cannot be listed, and the replies to aborts. */
  datatype SweepEnv = SweepEnv(cutoff: int, unreadable: set<S3Id>, calls: S3Id -> Call)

  /** The upload was idle past the cutoff, as far as its activity could be read. */
  ghost predicate Idle(s: State, s3: S3Id, env: SweepEnv) {
    s3 in s.open && (Tracked(s, s3) || s3 !in env.unreadable) && LastActivity(s, s3) <= env.cutoff
  }

  /** The upload is idle and its abort is acknowledged. */
  ghost predicate Swept(s: State, s3: S3Id, env: SweepEnv) {
    Idle(s, s3, env) && env.calls(s3).Acked?
  }

  ghost predicate SweptUnheard(s: State, s3: S3Id, env: SweepEnv) {
    Idle(s, s3, env) && env.calls(s3).Unheard?
  }

  /** removeTrackedUploadState */
  function RemoveTracked(s: State, s3: S3Id): State {
    if s3 in s.index then Forget(s, s.index[s3].user, s.index[s3].uploadId, s3) else s
  }

  /** One listed upload of cleanupStaleMultipartUploads. */
  ghost function SweepOne(s: State, s3: S3Id, env: SweepEnv): State {
    if Swept(s, s3, env) then Abort(RemoveTracked(s, s3), s3, Acked)
    else if SweptUnheard(s, s3, env) then Abort(s, s3, Unheard)
    else s
  }

  ghost function SweepAll(s: State, listed: seq<S3Id>, env: SweepEnv): State
    decreases |listed|
  {
    if listed == [] then s else SweepAll(SweepOne(s, listed[0], env), listed[1..], env)
  }

  // ----------------------------------------------------------------- runs

  datatype Event =
    | InitEvent(u: UserId, fileSize: nat, totalChunks: int, live: bool, lockFree: bool, ids: FreshIds, create: Call,
                order: seq<UploadId>, calls: S3Id -> Call, undo: Call)
    | BeginChunkEvent(u: UserId, id: UploadId, chunkIndex: int, size: int, req: RequestId)
    | FinishChunkEvent(req: RequestId, put: Call, late: Call)
    | StartFinalizeEvent(u: UserId, id: UploadId, totalChunks: int, live: bool, req: RequestId)
    | CompleteEvent(req: RequestId, complete: Call, cleanup: Call)
    | HeadEvent(req: RequestId, head: Call, cleanup: Call)
    | CommitEvent(req: RequestId, file: FileId, dbOk: bool, cleanup: Call)
    | CleanupEvent(req: RequestId)
    | CancelEvent(u: UserId, id: UploadId, call: Call)
    | DeleteFileEvent(file: FileId, call: Call)
    | AdminClearEvent(u: UserId, listed: seq<UploadId>, stuck: set<StorageKey>, calls: S3Id -> Call)
    | SweepEvent(listing: seq<S3Id>, env: SweepEnv)
    | TickEvent(dt: nat)

  /** `order` lists a set without repetition. */
  ghost predicate Lists<T(!new)>(order: seq<T>, elements: set<T>) {
    && (forall x :: x in order <==> x in elements)
    && forall i, j :: 0 <= i < j < |order| ==> order[i] != order[j]
  }

  ghost predicate FreshFor(s: State, ids: FreshIds) {
    && ids.s3 !in s.uploads
    && forall x :: x in s.uploads ==> s.uploads[x].uploadId != ids.uploadId && s.uploads[x].key != ids.key
  }

  /** What the environment guarantees: random ids are new, listings are listings, requests run in order. */
  ghost predicate Enabled(s: State, e: Event) {
    match e
    case InitEvent(u, fileSize, _, _, _, ids, _, order, _, _) => 1 <= fileSize && FreshFor(s, ids) && Lists(order, Ids(s, u))
    case BeginChunkEvent(u, id, _, _, req) =>
      req !in s.chunking && forall q :: q in s.chunking ==> (s.chunking[q].user, s.chunking[q].uploadId) != (u, id)
    case FinishChunkEvent(req, _, _) => req in s.chunking
    case StartFinalizeEvent(_, _, _, _, req) => req !in s.finalizing
    case CompleteEvent(req, _, _) => req in s.finalizing && s.finalizing[req].phase.Started?
    case HeadEvent(req, _, _) => req in s.finalizing && s.finalizing[req].phase.Assembled?
    case CommitEvent(req, file, _, _) =>
      req in s.finalizing && s.finalizing[req].phase.Checked? && forall r :: r in s.rows ==> r.id != file
    case CleanupEvent(req) => req in s.finalizing && s.finalizing[req].phase.Recorded?
    case AdminClearEvent(u, listed, _, _) => forall id :: (u, id) in s.metas ==> id in listed
    case _ => true
  }

  ghost function Step(c: Config, s: State, e: Event): State
    requires e.FinishChunkEvent? ==> e.req in s.chunking
    requires e.CompleteEvent? || e.HeadEvent? || e.CommitEvent? || e.CleanupEvent? ==> e.req in s.finalizing
  {
    match e
    case InitEvent(u, fileSize, totalChunks, live, lockFree, ids, create, order, calls, undo) =>
      Init(c, s, u, fileSize, totalChunks, live, lockFree, ids, create, order, calls, undo).0
    case BeginChunkEvent(u, id, chunkIndex, size, req) => BeginChunk(s, u, id, chunkIndex, size, req).0
    case FinishChunkEvent(req, put, late) => FinishChunk(s, req, put, late).0
    case StartFinalizeEvent(u, id, totalChunks, live, req) => StartFinalize(s, u, id, totalChunks, live, req).0
    case CompleteEvent(req, complete, cleanup) => CompleteStep(s, req, complete, cleanup)
    case HeadEvent(req, head, cleanup) => HeadStep(s, req, head, cleanup)
    case CommitEvent(req, file, dbOk, cleanup) => CommitStep(c, s, req, file, dbOk, cleanup)
    case CleanupEvent(req) => CleanupStep(s, req)
    case CancelEvent(u, id, call) => Cancel(s, u, id, call)
    case DeleteFileEvent(file, call) => DeleteFile(s, file, call)
    case AdminClearEvent(u, listed, stuck, calls) => AdminClear(s, u, listed, stuck, calls)
    case SweepEvent(listing, env) => SweepAll(s, listing, env)
    case TickEvent(dt) => Tick(s, dt)
  }

  /** `states` is a run: it starts empty and each event was enabled where it happened. */
  ghost predicate IsRun(c: Config, events: seq<Event>, states: seq<State>) {
    && |states| == |events| + 1
    && states[0] == INITIAL
    && forall i :: 0 <= i < |events| ==> Enabled(states[i], events[i]) && states[i + 1] == Step(c, states[i], events[i])
  }
}
