/** What every reachable state of the upload protocol satisfies. */
module UploadSafety {
  import opened FileFormat
  import opened UploadProtocol

  /** 1, 2, ..., n */
  function PartNumbers(n: nat): (r: seq<nat>)
    ensures |r| == n && forall i :: 0 <= i < n ==> r[i] == i + 1
  {
    seq(n, i => i + 1)
  }

  /** Each upload was created once, for its own upload id and object, within the owner's size limit. */
  ghost predicate UploadsOk(c: Config, s: State) {
    && (forall x :: x in s.uploads ==> 1 <= s.uploads[x].fileSize <= MaxFileSize(c, s.uploads[x].user) && s.uploads[x].user in c.users)
    && (forall x, y :: x in s.uploads && y in s.uploads && x != y ==>
          s.uploads[x].uploadId != s.uploads[y].uploadId && s.uploads[x].key != s.uploads[y].key)
  }

  /** The metadata describes the upload it was created for, with parts 1..nextExpectedChunk. */
  ghost predicate Describes(s: State, u: UserId, id: UploadId, meta: UploadMeta) {
    && meta.s3UploadId in s.uploads
    && s.uploads[meta.s3UploadId] == Upload(u, id, meta.storageKey, meta.fileSize)
    && meta.totalChunks == ChunkCount(meta.fileSize)
    && meta.nextExpectedChunk <= meta.totalChunks
    && meta.parts == PartNumbers(meta.nextExpectedChunk)
  }

  /** While the upload is open, S3 holds the first n parts. */
  ghost predicate Stored(s: State, s3: S3Id, n: nat) {
    s3 in s.open ==> HasParts(s.open[s3].parts, n)
  }

  ghost predicate MetaOk(s: State, k: (UserId, UploadId))
    requires k in s.metas
  {
    var e := s.metas[k];
    var s3 := e.meta.s3UploadId;
    && Describes(s, k.0, k.1, e.meta)
    && Stored(s, s3, e.meta.nextExpectedChunk)
    && (s3 in s.open <==> s3 !in s.lost && s3 !in s.completed)
    && s3 in s.index && s.index[s3].user == k.0 && s.index[s3].uploadId == k.1
    && s.now < e.expiresAt <= s.index[s3].expiresAt
  }

  ghost predicate IndexOk(s: State, x: S3Id)
    requires x in s.index
  {
    x in s.uploads && s.uploads[x].user == s.index[x].user && s.uploads[x].uploadId == s.index[x].uploadId
  }

  /** Every stored part has the length its number is scheduled for. */
  ghost predicate OpenOk(s: State, x: S3Id)
    requires x in s.open
  {
    && x in s.uploads && x !in s.lost && x !in s.completed
    && s.open[x].key == s.uploads[x].key
    && forall p :: p in s.open[x].parts ==> PartOk(s.uploads[x].fileSize, p, s.open[x].parts[p])
  }

  ghost predicate PartOk(fileSize: nat, number: nat, part: Part) {
    1 <= number <= ChunkCount(fileSize) && part.size == ScheduledChunkSize(fileSize, ChunkCount(fileSize), number - 1)
  }

  ghost predicate ChunkingOk(s: State, q: RequestId)
    requires q in s.chunking
  {
    var r := s.chunking[q];
    && Describes(s, r.user, r.uploadId, r.meta)
    && r.meta.nextExpectedChunk < r.meta.totalChunks
    && Stored(s, r.meta.s3UploadId, r.meta.nextExpectedChunk)
    && ((r.user, r.uploadId) in s.metas ==> s.metas[(r.user, r.uploadId)].meta == r.meta)
    && forall q' :: q' in s.chunking && q' != q ==> (s.chunking[q'].user, s.chunking[q'].uploadId) != (r.user, r.uploadId)
  }

  ghost predicate FinalizingOk(s: State, q: RequestId)
    requires q in s.finalizing
  {
    var r := s.finalizing[q];
    var s3 := r.meta.s3UploadId;
    && Describes(s, r.user, r.uploadId, r.meta)
    && r.meta.nextExpectedChunk == r.meta.totalChunks
    && Stored(s, s3, r.meta.totalChunks)
    && (!r.phase.Started? ==> s3 in s.completed)
    && (r.phase.Assembled? || r.phase.Checked? ==>
          && SizeConfirmed(s, r.meta)
          && (forall row :: row in s.rows ==> row.from != s3))
    && (!r.phase.Started? ==> forall q' :: q' in s.finalizing && q' != q && !s.finalizing[q'].phase.Started? ==>
          s.finalizing[q'].meta.s3UploadId != s3)
  }

  /** A row stems from one completed upload, and its object has exactly the expected encrypted size. */
  ghost predicate RowOk(s: State, row: FileRow) {
    && row.from in s.completed && row.from in s.uploads
    && s.uploads[row.from].user == row.owner && s.uploads[row.from].key == row.storageName && s.uploads[row.from].fileSize == row.size
    && row.storageName in s.objects
    && ExpectedEncryptedSize(row.size) == Success(s.objects[row.storageName])
  }

  ghost predicate RowsOk(s: State) {
    && (forall row :: row in s.rows ==> RowOk(s, row))
    && forall i, j :: 0 <= i < j < |s.rows| ==> s.rows[i].from != s.rows[j].from && s.rows[i].id != s.rows[j].id
  }

  ghost predicate AllMetas(s: State) {
    forall k :: k in s.metas ==> MetaOk(s, k)
  }

  ghost predicate AllIndexes(s: State) {
    forall x :: x in s.index ==> IndexOk(s, x)
  }

  ghost predicate AllOpen(s: State) {
    forall x :: x in s.open ==> OpenOk(s, x)
  }

  ghost predicate AllChunking(s: State) {
    forall q :: q in s.chunking ==> ChunkingOk(s, q)
  }

  ghost predicate AllFinalizing(s: State) {
    forall q :: q in s.finalizing ==> FinalizingOk(s, q)
  }

  ghost predicate HistoryOk(s: State) {
    s.completed <= s.uploads.Keys && s.lost <= s.uploads.Keys
  }

  ghost predicate Core(c: Config, s: State) {
    UploadsOk(c, s) && AllMetas(s) && AllIndexes(s) && AllOpen(s) && AllChunking(s) && AllFinalizing(s) && RowsOk(s) && HistoryOk(s)
  }

  // -------------------------------------------------- updates that only remove

  ghost predicate SubMap<K(!new), V>(a: map<K, V>, b: map<K, V>) {
    forall k :: k in a ==> k in b && a[k] == b[k]
  }

  /**
   t has no more than s: some metadata, indexes, open uploads, requests and objects are gone. What stays keeps what
   it relies on, and an upload that was closed under its metadata is one whose abort went unheard.
   */
  ghost predicate Shrunk(s: State, t: State) {
    && t.now == s.now && t.uploads == s.uploads && t.completed == s.completed && t.rows == s.rows
    && SubMap(t.metas, s.metas) && SubMap(t.index, s.index) && SubMap(t.open, s.open)
    && SubMap(t.chunking, s.chunking) && SubMap(t.finalizing, s.finalizing) && SubMap(t.objects, s.objects)
    && s.lost <= t.lost <= s.lost + s.open.Keys
    && (forall x :: x in t.open ==> x !in t.lost)
    && (forall k :: k in t.metas ==> KeepsBacking(s, t, t.metas[k].meta.s3UploadId))
    && (forall row :: row in s.rows ==> row.storageName in s.objects ==> row.storageName in t.objects)
    && (forall q :: q in t.finalizing && (t.finalizing[q].phase.Assembled? || t.finalizing[q].phase.Checked?) ==>
          KeepsObject(s, t, t.finalizing[q].meta.storageKey))
  }

  ghost predicate KeepsBacking(s: State, t: State, s3: S3Id) {
    (s3 in s.index ==> s3 in t.index) && (s3 in s.open ==> s3 in t.open || s3 in t.lost)
  }

  ghost predicate KeepsObject(s: State, t: State, key: StorageKey) {
    key in s.objects ==> key in t.objects
  }

  lemma ShrunkMetas(s: State, t: State)
    requires AllMetas(s) && Shrunk(s, t)
    ensures AllMetas(t)
  {
    forall k | k in t.metas
      ensures MetaOk(t, k)
    {
      assert MetaOk(s, k);
      assert KeepsBacking(s, t, t.metas[k].meta.s3UploadId);
    }
  }

  lemma ShrunkOpen(s: State, t: State)
    requires AllOpen(s) && AllIndexes(s) && Shrunk(s, t)
    ensures AllOpen(t) && AllIndexes(t)
  {
    forall x | x in t.open
      ensures OpenOk(t, x)
    {
      assert OpenOk(s, x);
    }
    forall x | x in t.index
      ensures IndexOk(t, x)
    {
      assert IndexOk(s, x);
    }
  }

  lemma ShrunkChunking(s: State, t: State)
    requires AllChunking(s) && Shrunk(s, t)
    ensures AllChunking(t)
  {
    forall q | q in t.chunking
      ensures ChunkingOk(t, q)
    {
      assert ChunkingOk(s, q);
    }
  }

  lemma ShrunkFinalizing(s: State, t: State)
    requires AllFinalizing(s) && Shrunk(s, t)
    ensures AllFinalizing(t)
  {
    forall q | q in t.finalizing
      ensures FinalizingOk(t, q)
    {
      assert FinalizingOk(s, q);
    }
  }

  lemma ShrunkRows(s: State, t: State)
    requires RowsOk(s) && Shrunk(s, t)
    ensures RowsOk(t)
  {
    forall row | row in t.rows
      ensures RowOk(t, row)
    {
      assert RowOk(s, row);
    }
  }

  lemma ShrunkKeepsCore(c: Config, s: State, t: State)
    requires Core(c, s) && Shrunk(s, t)
    ensures Core(c, t)
  {
    ShrunkMetas(s, t);
    ShrunkOpen(s, t);
    ShrunkChunking(s, t);
    ShrunkFinalizing(s, t);
    ShrunkRows(s, t);
    assert s.open.Keys <= s.uploads.Keys by {
      forall x | x in s.open
        ensures x in s.uploads
      {
        assert OpenOk(s, x);
      }
    }
  }

  /** The metadata of an upload lies under the user and id the upload was created for. */
  lemma MetaHome(s: State, k: (UserId, UploadId))
    requires AllMetas(s) && k in s.metas
    ensures var x := s.metas[k].meta.s3UploadId;
            x in s.uploads && s.uploads[x].user == k.0 && s.uploads[x].uploadId == k.1 && s.uploads[x].key == s.metas[k].meta.storageKey
  {
    assert MetaOk(s, k);
  }

  ghost predicate BelongsTo(s: State, s3: S3Id, u: UserId, id: UploadId) {
    s3 in s.uploads && s.uploads[s3].user == u && s.uploads[s3].uploadId == id
  }

  /** Only the upload's own metadata refers to it. */
  lemma ForgottenUpload(s: State, u: UserId, id: UploadId, s3: S3Id)
    requires AllMetas(s) && BelongsTo(s, s3, u, id)
    ensures forall k :: k in s.metas && k != (u, id) ==> s.metas[k].meta.s3UploadId != s3
  {
    forall k | k in s.metas && k != (u, id)
      ensures s.metas[k].meta.s3UploadId != s3
    {
      MetaHome(s, k);
    }
  }

  lemma ForgetShrinks(s: State, u: UserId, id: UploadId, s3: S3Id)
    requires AllMetas(s) && AllOpen(s) && BelongsTo(s, s3, u, id)
    ensures Shrunk(s, Forget(s, u, id, s3))
    ensures Unreferenced(Forget(s, u, id, s3), s3)
  {
    ForgottenUpload(s, u, id, s3);
    SelfShrunk(s);
  }

  lemma ForgetKeepsCore(c: Config, s: State, u: UserId, id: UploadId, s3: S3Id)
    requires Core(c, s) && BelongsTo(s, s3, u, id)
    ensures Core(c, Forget(s, u, id, s3))
    ensures Unreferenced(Forget(s, u, id, s3), s3)
  {
    ForgetShrinks(s, u, id, s3);
    ShrunkKeepsCore(c, s, Forget(s, u, id, s3));
  }

  ghost predicate Unreferenced(s: State, s3: S3Id) {
    forall k :: k in s.metas ==> s.metas[k].meta.s3UploadId != s3
  }

  lemma AbortShrinks(s: State, s3: S3Id, call: Call)
    requires AllOpen(s)
    requires call.Acked? ==> Unreferenced(s, s3)
    ensures Shrunk(s, Abort(s, s3, call))
  {
    SelfShrunk(s);
  }

  /** An acknowledged abort needs its metadata gone; an unheard one does not. */
  lemma AbortKeepsCore(c: Config, s: State, s3: S3Id, call: Call)
    requires Core(c, s)
    requires call.Acked? ==> Unreferenced(s, s3)
    ensures Core(c, Abort(s, s3, call))
  {
    AbortShrinks(s, s3, call);
    ShrunkKeepsCore(c, s, Abort(s, s3, call));
  }

  /** The core invariant does not look at the active sets. */
  lemma ActiveIrrelevant(c: Config, s: State, active: map<UserId, ActiveSet>)
    requires Core(c, s)
    ensures Core(c, s.(active := active))
  {
    SelfShrunk(s);
    assert Shrunk(s, s.(active := active));
    ShrunkKeepsCore(c, s, s.(active := active));
  }

  lemma ReleaseKeepsCore(c: Config, s: State, u: UserId, id: UploadId)
    requires Core(c, s)
    ensures Core(c, Release(s, u, id))
  {
    ActiveIrrelevant(c, s, Release(s, u, id).active);
  }

  lemma SelfShrunk(s: State)
    requires AllOpen(s)
    ensures Shrunk(s, s)
  {
    forall x | x in s.open
      ensures x !in s.lost
    {
      assert OpenOk(s, x);
    }
  }

  lemma DropKeepsCore(c: Config, s: State, u: UserId, id: UploadId, s3: S3Id, call: Call)
    requires Core(c, s) && BelongsTo(s, s3, u, id)
    ensures Core(c, Drop(s, u, id, s3, call))
  {
    if AbortSucceeds(s, s3, call) {
      ForgetKeepsCore(c, s, u, id, s3);
      AbortKeepsCore(c, Forget(s, u, id, s3), s3, call);
    } else if s3 in s.open {
      AbortKeepsCore(c, s, s3, call);
    }
  }

  lemma CancelKeepsCore(c: Config, s: State, u: UserId, id: UploadId, call: Call)
    requires Core(c, s)
    ensures Core(c, Cancel(s, u, id, call))
  {
    if (u, id) in s.metas {
      MetaHome(s, (u, id));
      DropKeepsCore(c, s, u, id, s.metas[(u, id)].meta.s3UploadId, call);
    } else {
      ReleaseKeepsCore(c, s, u, id);
    }
  }

  /** Each victim belongs to the user. */
  ghost predicate VictimsOk(s: State, u: UserId, victims: seq<Candidate>) {
    forall v :: v in victims ==> BelongsTo(s, v.meta.s3UploadId, u, v.uploadId)
  }

  lemma {:induction false} EvictAllKeepsCore(c: Config, s: State, u: UserId, victims: seq<Candidate>, calls: S3Id -> Call)
    requires Core(c, s) && VictimsOk(s, u, victims)
    ensures Core(c, EvictAll(s, u, victims, calls).0)
    decreases |victims|
  {
    if victims != [] {
      var v := victims[0];
      DropKeepsCore(c, s, u, v.uploadId, v.meta.s3UploadId, calls(v.meta.s3UploadId));
      if AbortSucceeds(s, v.meta.s3UploadId, calls(v.meta.s3UploadId)) {
        EvictAllKeepsCore(c, Drop(s, u, v.uploadId, v.meta.s3UploadId, calls(v.meta.s3UploadId)), u, victims[1..], calls);
      }
    }
  }

  lemma {:induction false} SortKeepsMembers(cs: seq<Candidate>)
    ensures |SortByAge(cs)| == |cs|
    ensures forall v :: v in SortByAge(cs) <==> v in cs
  {
    if cs != [] {
      SortKeepsMembers(cs[1..]);
      InsertKeepsMembers(cs[0], SortByAge(cs[1..]));
      assert cs == [cs[0]] + cs[1..];
    }
  }

  lemma {:induction false} InsertKeepsMembers(v: Candidate, sorted: seq<Candidate>)
    ensures |InsertByAge(v, sorted)| == |sorted| + 1
    ensures forall w :: w in InsertByAge(v, sorted) <==> w == v || w in sorted
  {
    if sorted != [] && v.meta.createdAt > sorted[0].meta.createdAt {
      InsertKeepsMembers(v, sorted[1..]);
      assert sorted == [sorted[0]] + sorted[1..];
    }
  }

  /** The candidates are the listed ids that have metadata. */
  lemma {:induction false} CandidatesAre(s: State, u: UserId, order: seq<UploadId>)
    ensures forall v :: v in Candidates(s, u, order) <==>
              v.uploadId in order && (u, v.uploadId) in s.metas && v.meta == s.metas[(u, v.uploadId)].meta
  {
    if order != [] {
      CandidatesAre(s, u, order[1..]);
      assert order == [order[0]] + order[1..];
    }
  }

  lemma VictimsBelong(c: Config, s: State, u: UserId, order: seq<UploadId>)
    requires AllMetas(s)
    ensures VictimsOk(s, u, Victims(c, s, u, order))
    ensures forall v :: v in Victims(c, s, u, order) ==> v.uploadId in order
  {
    CandidatesAre(s, u, order);
    SortKeepsMembers(Candidates(s, u, order));
    forall v | v in Victims(c, s, u, order)
      ensures BelongsTo(s, v.meta.s3UploadId, u, v.uploadId) && v.uploadId in order
    {
      assert v in SortByAge(Candidates(s, u, order));
      MetaHome(s, (u, v.uploadId));
    }
  }

  lemma MakeRoomKeepsCore(c: Config, s: State, u: UserId, order: seq<UploadId>, calls: S3Id -> Call)
    requires Core(c, s)
    ensures Core(c, MakeRoom(c, s, u, order, calls).0)
  {
    if |order| >= c.cap {
      ActiveIrrelevant(c, s, DropStale(s, u).active);
      VictimsBelong(c, s, u, order);
      EvictAllKeepsCore(c, DropStale(s, u), u, Victims(c, s, u, order), calls);
    }
  }

  // ------------------------------------------------------- initialisation

  lemma CreateKeepsCore(c: Config, s: State, u: UserId, fileSize: nat, ids: FreshIds)
    requires Core(c, s) && FreshFor(s, ids)
    requires 1 <= fileSize <= MaxFileSize(c, u) && u in c.users
    ensures Core(c, Create(s, u, fileSize, ids))
  {
    var t := Create(s, u, fileSize, ids);
    CreateMetas(s, u, fileSize, ids);
    CreateRequests(s, u, fileSize, ids);
    forall x | x in t.open
      ensures OpenOk(t, x)
    {
      if x != ids.s3 {
        assert OpenOk(s, x);
      }
    }
    forall x | x in t.index
      ensures IndexOk(t, x)
    {
      assert IndexOk(s, x);
    }
    forall row | row in t.rows
      ensures RowOk(t, row)
    {
      assert RowOk(s, row);
    }
  }

  lemma CreateMetas(s: State, u: UserId, fileSize: nat, ids: FreshIds)
    requires AllMetas(s) && FreshFor(s, ids)
    ensures AllMetas(Create(s, u, fileSize, ids))
  {
    var t := Create(s, u, fileSize, ids);
    forall k | k in t.metas
      ensures MetaOk(t, k)
    {
      assert MetaOk(s, k);
    }
  }

  lemma CreateRequests(s: State, u: UserId, fileSize: nat, ids: FreshIds)
    requires AllChunking(s) && AllFinalizing(s) && FreshFor(s, ids)
    ensures AllChunking(Create(s, u, fileSize, ids)) && AllFinalizing(Create(s, u, fileSize, ids))
  {
    var t := Create(s, u, fileSize, ids);
    forall q | q in t.chunking
      ensures ChunkingOk(t, q)
    {
      assert ChunkingOk(s, q);
    }
    forall q | q in t.finalizing
      ensures FinalizingOk(t, q)
    {
      assert FinalizingOk(s, q);
    }
  }
}
