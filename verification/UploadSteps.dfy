/** Each event of the upload protocol keeps the core invariant. */
module UploadSteps {
  import opened FileFormat
  import opened UploadProtocol
  import opened UploadSafety

  // ------------------------------------------------------- initialisation

  lemma TrackKeepsCore(c: Config, s: State, u: UserId, fileSize: nat, ids: FreshIds)
    requires Core(c, s) && FreshFor(s, ids)
    requires 1 <= fileSize <= MaxFileSize(c, u) && u in c.users
    ensures Core(c, Track(Create(s, u, fileSize, ids), u, fileSize, ids))
  {
    var created := Create(s, u, fileSize, ids);
    CreateKeepsCore(c, s, u, fileSize, ids);
    var t := Track(created, u, fileSize, ids);
    TrackMetas(created, u, fileSize, ids, s);
    TrackRequests(created, u, fileSize, ids, s);
    forall x | x in t.open
      ensures OpenOk(t, x)
    {
      assert OpenOk(created, x);
    }
    forall x | x in t.index
      ensures IndexOk(t, x)
    {
      if x != ids.s3 {
        assert IndexOk(created, x);
      }
    }
    forall row | row in t.rows
      ensures RowOk(t, row)
    {
      assert RowOk(created, row);
    }
  }

  lemma TrackMetas(created: State, u: UserId, fileSize: nat, ids: FreshIds, s: State)
    requires AllMetas(created) && created == Create(s, u, fileSize, ids) && FreshFor(s, ids) && HistoryOk(s) && AllMetas(s)
    ensures AllMetas(Track(created, u, fileSize, ids))
  {
    var t := Track(created, u, fileSize, ids);
    forall k | k in t.metas
      ensures MetaOk(t, k)
    {
      if k != (u, ids.uploadId) {
        MetaHome(s, k);
        assert MetaOk(created, k);
      }
    }
  }

  lemma TrackRequests(created: State, u: UserId, fileSize: nat, ids: FreshIds, s: State)
    requires AllChunking(created) && AllFinalizing(created) && AllChunking(s)
    requires created == Create(s, u, fileSize, ids) && FreshFor(s, ids)
    ensures AllChunking(Track(created, u, fileSize, ids)) && AllFinalizing(Track(created, u, fileSize, ids))
  {
    var t := Track(created, u, fileSize, ids);
    forall q | q in t.chunking
      ensures ChunkingOk(t, q)
    {
      assert ChunkingOk(s, q);
      assert ChunkingOk(created, q);
    }
    forall q | q in t.finalizing
      ensures FinalizingOk(t, q)
    {
      assert FinalizingOk(created, q);
    }
  }

  lemma ReserveKeepsCore(c: Config, s: State, u: UserId, id: UploadId)
    requires Core(c, s)
    ensures Core(c, Reserve(s, u, id))
  {
    ActiveIrrelevant(c, s, Reserve(s, u, id).active);
  }

  lemma {:induction false} EvictAllKeepsUploads(s: State, u: UserId, victims: seq<Candidate>, calls: S3Id -> Call)
    ensures var t := EvictAll(s, u, victims, calls).0;
            t.uploads == s.uploads && t.now == s.now && t.rows == s.rows
    decreases |victims|
  {
    if victims != [] {
      var v := victims[0];
      var s' := Drop(s, u, v.uploadId, v.meta.s3UploadId, calls(v.meta.s3UploadId));
      if AbortSucceeds(s, v.meta.s3UploadId, calls(v.meta.s3UploadId)) {
        EvictAllKeepsUploads(s', u, victims[1..], calls);
      }
    }
  }

  lemma InitKeepsCore(c: Config, s: State, u: UserId, fileSize: nat, totalChunks: int, live: bool, lockFree: bool, ids: FreshIds,
                      create: Call, order: seq<UploadId>, calls: S3Id -> Call, undo: Call)
    requires Core(c, s) && FreshFor(s, ids) && 1 <= fileSize
    ensures Core(c, Init(c, s, u, fileSize, totalChunks, live, lockFree, ids, create, order, calls, undo).0)
  {
    if InitAllowed(c, s, u, fileSize, totalChunks, live, lockFree) && !create.Refused? {
      CreateKeepsCore(c, s, u, fileSize, ids);
      if create.Acked? {
        TrackKeepsCore(c, s, u, fileSize, ids);
        var tracked := Track(Create(s, u, fileSize, ids), u, fileSize, ids);
        MakeRoomKeepsCore(c, tracked, u, order, calls);
        var room := MakeRoom(c, tracked, u, order, calls);
        EvictAllKeepsUploads(DropStale(tracked, u), u, Victims(c, tracked, u, order), calls);
        if room.1 {
          ReserveKeepsCore(c, room.0, u, ids.uploadId);
        } else {
          ForgetKeepsCore(c, room.0, u, ids.uploadId, ids.s3);
          AbortKeepsCore(c, Forget(room.0, u, ids.uploadId, ids.s3), ids.s3, undo);
        }
      }
    }
  }

  // --------------------------------------------------------------- chunks

  /** Renewing the metadata of an upload that is still tracked. */
  lemma RefreshMetas(s: State, u: UserId, id: UploadId, meta: UploadMeta)
    requires AllMetas(s) && (u, id) in s.metas
    requires Describes(s, u, id, meta) && Stored(s, meta.s3UploadId, meta.nextExpectedChunk)
    requires meta.s3UploadId == s.metas[(u, id)].meta.s3UploadId
    ensures AllMetas(Refresh(s, u, id, meta))
  {
    var t := Refresh(s, u, id, meta);
    assert MetaOk(s, (u, id));
    forall k | k in t.metas
      ensures MetaOk(t, k)
    {
      assert MetaOk(s, k);
    }
  }

  lemma RefreshOthers(s: State, u: UserId, id: UploadId, meta: UploadMeta)
    requires AllOpen(s) && AllIndexes(s) && AllFinalizing(s) && RowsOk(s)
    ensures var t := Refresh(s, u, id, meta);
            AllOpen(t) && AllIndexes(t) && AllFinalizing(t) && RowsOk(t)
  {
    var t := Refresh(s, u, id, meta);
    forall x | x in t.open
      ensures OpenOk(t, x)
    {
      assert OpenOk(s, x);
    }
    forall x | x in t.index
      ensures IndexOk(t, x)
    {
      assert IndexOk(s, x);
    }
    forall q | q in t.finalizing
      ensures FinalizingOk(t, q)
    {
      assert FinalizingOk(s, q);
    }
    forall row | row in t.rows
      ensures RowOk(t, row)
    {
      assert RowOk(s, row);
    }
  }

  lemma BeginChunkRequests(s: State, u: UserId, id: UploadId, req: RequestId, meta: UploadMeta)
    requires AllChunking(s) && req !in s.chunking
    requires forall q :: q in s.chunking ==> (s.chunking[q].user, s.chunking[q].uploadId) != (u, id)
    requires Describes(s, u, id, meta) && meta.nextExpectedChunk < meta.totalChunks
    requires Stored(s, meta.s3UploadId, meta.nextExpectedChunk)
    ensures AllChunking(Refresh(s, u, id, meta).(chunking := s.chunking[req := ChunkRequest(u, id, meta)]))
  {
    var t := Refresh(s, u, id, meta).(chunking := s.chunking[req := ChunkRequest(u, id, meta)]);
    forall q | q in t.chunking
      ensures ChunkingOk(t, q)
    {
      if q != req {
        assert ChunkingOk(s, q);
      }
    }
  }

  lemma BeginChunkKeepsCore(c: Config, s: State, u: UserId, id: UploadId, chunkIndex: int, size: int, req: RequestId)
    requires Core(c, s) && Enabled(s, BeginChunkEvent(u, id, chunkIndex, size, req))
    ensures Core(c, BeginChunk(s, u, id, chunkIndex, size, req).0)
  {
    if BeginChunk(s, u, id, chunkIndex, size, req).1.Accepted? {
      assert MetaOk(s, (u, id));
      var meta := s.metas[(u, id)].meta.(updatedAt := s.now);
      RefreshMetas(s, u, id, meta);
      RefreshOthers(s, u, id, meta);
      BeginChunkRequests(s, u, id, req, meta);
      ChunkingIrrelevant(c, Refresh(s, u, id, meta), s.chunking[req := ChunkRequest(u, id, meta)]);
    }
  }

  /** Only ChunkingOk looks at the chunk requests. */
  lemma ChunkingIrrelevant(c: Config, s: State, chunking: map<RequestId, ChunkRequest>)
    requires UploadsOk(c, s) && AllMetas(s) && AllIndexes(s) && AllOpen(s) && AllFinalizing(s) && RowsOk(s) && HistoryOk(s)
    requires AllChunking(s.(chunking := chunking))
    ensures Core(c, s.(chunking := chunking))
  {
    var t := s.(chunking := chunking);
    forall k | k in t.metas
      ensures MetaOk(t, k)
    {
      assert MetaOk(s, k);
    }
    forall x | x in t.open
      ensures OpenOk(t, x)
    {
      assert OpenOk(s, x);
    }
    forall x | x in t.index
      ensures IndexOk(t, x)
    {
      assert IndexOk(s, x);
    }
    forall q | q in t.finalizing
      ensures FinalizingOk(t, q)
    {
      assert FinalizingOk(s, q);
    }
    forall row | row in t.rows
      ensures RowOk(t, row)
    {
      assert RowOk(s, row);
    }
  }

  /** A part of the scheduled size can always be stored. */
  lemma StorePartKeepsCore(c: Config, s: State, s3: S3Id, number: nat, size: int)
    requires Core(c, s) && s3 in s.open && PartOk(s.uploads[s3].fileSize, number, Part(size, s.now))
    ensures Core(c, StorePart(s, s3, number, size))
    ensures HasParts(s.open[s3].parts, number - 1) ==> HasParts(StorePart(s, s3, number, size).open[s3].parts, number)
  {
    var t := StorePart(s, s3, number, size);
    StorePartRequests(s, s3, number, size);
    forall k | k in t.metas
      ensures MetaOk(t, k)
    {
      assert MetaOk(s, k);
    }
    forall x | x in t.open
      ensures OpenOk(t, x)
    {
      assert OpenOk(s, x);
    }
    forall x | x in t.index
      ensures IndexOk(t, x)
    {
      assert IndexOk(s, x);
    }
    forall row | row in t.rows
      ensures RowOk(t, row)
    {
      assert RowOk(s, row);
    }
  }

  lemma StorePartRequests(s: State, s3: S3Id, number: nat, size: int)
    requires AllChunking(s) && AllFinalizing(s) && s3 in s.open
    ensures AllChunking(StorePart(s, s3, number, size)) && AllFinalizing(StorePart(s, s3, number, size))
  {
    var t := StorePart(s, s3, number, size);
    forall q | q in t.chunking
      ensures ChunkingOk(t, q)
    {
      assert ChunkingOk(s, q);
    }
    forall q | q in t.finalizing
      ensures FinalizingOk(t, q)
    {
      assert FinalizingOk(s, q);
    }
  }

  lemma RemoveChunkingKeepsCore(c: Config, s: State, req: RequestId)
    requires Core(c, s)
    ensures Core(c, s.(chunking := s.chunking - {req}))
  {
    SelfShrunk(s);
    ShrunkKeepsCore(c, s, s.(chunking := s.chunking - {req}));
  }

  /** After the part arrived, the metadata moves on by one chunk. */
  lemma AdvanceMetaKeepsCore(c: Config, s: State, u: UserId, id: UploadId, meta: UploadMeta)
    requires Core(c, s) && (u, id) in s.metas && s.metas[(u, id)].meta == meta
    requires meta.nextExpectedChunk < meta.totalChunks && Stored(s, meta.s3UploadId, meta.nextExpectedChunk + 1)
    requires forall q :: q in s.chunking ==> (s.chunking[q].user, s.chunking[q].uploadId) != (u, id)
    ensures var n := meta.nextExpectedChunk + 1;
            Core(c, Refresh(s, u, id, meta.(parts := meta.parts + [n], nextExpectedChunk := n, updatedAt := s.now)))
  {
    var n := meta.nextExpectedChunk + 1;
    var meta' := meta.(parts := meta.parts + [n], nextExpectedChunk := n, updatedAt := s.now);
    assert MetaOk(s, (u, id));
    assert meta'.parts == PartNumbers(n);
    RefreshMetas(s, u, id, meta');
    RefreshOthers(s, u, id, meta');
    var t := Refresh(s, u, id, meta');
    RefreshChunking(s, u, id, meta');
  }

  lemma RefreshChunking(s: State, u: UserId, id: UploadId, meta: UploadMeta)
    requires AllChunking(s)
    requires forall q :: q in s.chunking ==> (s.chunking[q].user, s.chunking[q].uploadId) != (u, id)
    ensures AllChunking(Refresh(s, u, id, meta))
  {
    var t := Refresh(s, u, id, meta);
    forall q | q in t.chunking
      ensures ChunkingOk(t, q)
    {
      assert ChunkingOk(s, q);
    }
  }

  /** Without its metadata, an upload is referenced by nobody. */
  lemma UntrackedUnreferenced(s: State, u: UserId, id: UploadId, s3: S3Id)
    requires AllMetas(s) && BelongsTo(s, s3, u, id) && (u, id) !in s.metas
    ensures Unreferenced(s, s3)
  {
    ForgottenUpload(s, u, id, s3);
  }

  /** The part of a chunk request is stored under the next number, with its scheduled size. */
  lemma ChunkStored(c: Config, s: State, req: RequestId)
    requires Core(c, s) && req in s.chunking && s.chunking[req].meta.s3UploadId in s.open
    ensures var r := s.chunking[req];
            var rest := s.(chunking := s.chunking - {req});
            var number := r.meta.nextExpectedChunk + 1;
            var size := ScheduledChunkSize(r.meta.fileSize, r.meta.totalChunks, r.meta.nextExpectedChunk);
            var stored := StorePart(rest, r.meta.s3UploadId, number, size);
            && Core(c, rest) && Core(c, stored)
            && Stored(stored, r.meta.s3UploadId, number)
            && BelongsTo(stored, r.meta.s3UploadId, r.user, r.uploadId)
  {
    var r := s.chunking[req];
    assert ChunkingOk(s, req);
    var rest := s.(chunking := s.chunking - {req});
    RemoveChunkingKeepsCore(c, s, req);
    StorePartKeepsCore(c, rest, r.meta.s3UploadId, r.meta.nextExpectedChunk + 1,
                       ScheduledChunkSize(r.meta.fileSize, r.meta.totalChunks, r.meta.nextExpectedChunk));
  }

  lemma OnlyRequestOf(s: State, req: RequestId)
    requires AllChunking(s) && req in s.chunking
    ensures var r := s.chunking[req];
            && r.meta.nextExpectedChunk < r.meta.totalChunks
            && ((r.user, r.uploadId) in s.metas ==> s.metas[(r.user, r.uploadId)].meta == r.meta)
            && forall q :: q in s.chunking - {req} ==> (s.chunking[q].user, s.chunking[q].uploadId) != (r.user, r.uploadId)
  {
    assert ChunkingOk(s, req);
  }

  /** The reply of UploadPart: a cancelled upload is aborted once more, otherwise the metadata moves on. */
  lemma AcknowledgedPartKeepsCore(c: Config, stored: State, r: ChunkRequest, late: Call)
    requires Core(c, stored) && BelongsTo(stored, r.meta.s3UploadId, r.user, r.uploadId)
    requires Stored(stored, r.meta.s3UploadId, r.meta.nextExpectedChunk + 1) && r.meta.nextExpectedChunk < r.meta.totalChunks
    requires (r.user, r.uploadId) in stored.metas ==> stored.metas[(r.user, r.uploadId)].meta == r.meta
    requires forall q :: q in stored.chunking ==> (stored.chunking[q].user, stored.chunking[q].uploadId) != (r.user, r.uploadId)
    ensures Core(c, AfterReply(stored, r, late))
  {
    if (r.user, r.uploadId) !in stored.metas {
      UntrackedUnreferenced(stored, r.user, r.uploadId, r.meta.s3UploadId);
      AbortKeepsCore(c, stored, r.meta.s3UploadId, late);
    } else {
      AdvanceMetaKeepsCore(c, stored, r.user, r.uploadId, r.meta);
    }
  }

  /** The state after the part of a request was stored. */
  function AfterPart(s: State, req: RequestId): State
    requires req in s.chunking && s.chunking[req].meta.s3UploadId in s.open
  {
    var r := s.chunking[req];
    StorePart(s.(chunking := s.chunking - {req}), r.meta.s3UploadId, r.meta.nextExpectedChunk + 1,
              ScheduledChunkSize(r.meta.fileSize, r.meta.totalChunks, r.meta.nextExpectedChunk))
  }

  /** The state after its reply. */
  function AfterReply(stored: State, r: ChunkRequest, late: Call): State {
    var n := r.meta.nextExpectedChunk + 1;
    if (r.user, r.uploadId) !in stored.metas then Abort(stored, r.meta.s3UploadId, late)
    else Refresh(stored, r.user, r.uploadId, r.meta.(parts := r.meta.parts + [n], nextExpectedChunk := n, updatedAt := stored.now))
  }

  lemma FinishChunkCases(s: State, req: RequestId, put: Call, late: Call)
    requires req in s.chunking
    ensures var t := FinishChunk(s, req, put, late).0;
            var s3 := s.chunking[req].meta.s3UploadId;
            if s3 !in s.open || put.Refused? then t == s.(chunking := s.chunking - {req})
            else if put.Unheard? then t == AfterPart(s, req)
            else t == AfterReply(AfterPart(s, req), s.chunking[req], late)
  {
  }

  lemma FinishChunkKeepsCore(c: Config, s: State, req: RequestId, put: Call, late: Call)
    requires Core(c, s) && req in s.chunking
    ensures Core(c, FinishChunk(s, req, put, late).0)
  {
    FinishChunkCases(s, req, put, late);
    RemoveChunkingKeepsCore(c, s, req);
    if s.chunking[req].meta.s3UploadId in s.open && !put.Refused? {
      ArrivedPartKeepsCore(c, s, req, late);
    }
  }

  lemma ArrivedPartKeepsCore(c: Config, s: State, req: RequestId, late: Call)
    requires Core(c, s) && req in s.chunking && s.chunking[req].meta.s3UploadId in s.open
    ensures Core(c, AfterPart(s, req))
    ensures Core(c, AfterReply(AfterPart(s, req), s.chunking[req], late))
  {
    ChunkStored(c, s, req);
    OnlyRequestOf(s, req);
    AcknowledgedPartKeepsCore(c, AfterPart(s, req), s.chunking[req], late);
  }

  // ------------------------------------------------------------- finalize

  lemma StartFinalizeKeepsCore(c: Config, s: State, u: UserId, id: UploadId, totalChunks: int, live: bool, req: RequestId)
    requires Core(c, s) && req !in s.finalizing
    ensures Core(c, StartFinalize(s, u, id, totalChunks, live, req).0)
  {
    if StartFinalize(s, u, id, totalChunks, live, req).1.Accepted? {
      var r := FinalizeRequest(u, id, s.metas[(u, id)].meta, Started);
      assert MetaOk(s, (u, id));
      var t := s.(finalizing := s.finalizing[req := r]);
      forall q | q in t.finalizing
        ensures FinalizingOk(t, q)
      {
        if q != req {
          assert FinalizingOk(s, q);
        }
      }
      FinalizingIrrelevant(c, s, t.finalizing);
    }
  }

  /** Only FinalizingOk looks at the finalize requests. */
  lemma FinalizingIrrelevant(c: Config, s: State, finalizing: map<RequestId, FinalizeRequest>)
    requires UploadsOk(c, s) && AllMetas(s) && AllIndexes(s) && AllOpen(s) && AllChunking(s) && RowsOk(s) && HistoryOk(s)
    requires AllFinalizing(s.(finalizing := finalizing))
    ensures Core(c, s.(finalizing := finalizing))
  {
    var t := s.(finalizing := finalizing);
    forall k | k in t.metas
      ensures MetaOk(t, k)
    {
      assert MetaOk(s, k);
    }
    forall x | x in t.open
      ensures OpenOk(t, x)
    {
      assert OpenOk(s, x);
    }
    forall x | x in t.index
      ensures IndexOk(t, x)
    {
      assert IndexOk(s, x);
    }
    forall q | q in t.chunking
      ensures ChunkingOk(t, q)
    {
      assert ChunkingOk(s, q);
    }
    forall row | row in t.rows
      ensures RowOk(t, row)
    {
      assert RowOk(s, row);
    }
  }

  lemma RemoveFinalizingKeepsCore(c: Config, s: State, req: RequestId)
    requires Core(c, s)
    ensures Core(c, s.(finalizing := s.finalizing - {req}))
  {
    SelfShrunk(s);
    ShrunkKeepsCore(c, s, s.(finalizing := s.finalizing - {req}));
  }

  lemma FinalizingHome(s: State, req: RequestId)
    requires AllFinalizing(s) && req in s.finalizing
    ensures var r := s.finalizing[req];
            BelongsTo(s, r.meta.s3UploadId, r.user, r.uploadId) && s.uploads[r.meta.s3UploadId].key == r.meta.storageKey
  {
    assert FinalizingOk(s, req);
  }

  /** The object of a request past Complete belongs to no row yet. */
  lemma OwnObjectUnrecorded(c: Config, s: State, req: RequestId)
    requires UploadsOk(c, s) && AllFinalizing(s) && RowsOk(s)
    requires req in s.finalizing && (s.finalizing[req].phase.Assembled? || s.finalizing[req].phase.Checked?)
    ensures forall row :: row in s.rows ==> row.storageName != s.finalizing[req].meta.storageKey
  {
    assert FinalizingOk(s, req);
    forall row | row in s.rows
      ensures row.storageName != s.finalizing[req].meta.storageKey
    {
      assert RowOk(s, row);
    }
  }

  /** The deleted object belongs to no row and to no other request past Complete. */
  lemma DeleteOwnObject(c: Config, s: State, req: RequestId)
    requires UploadsOk(c, s) && AllFinalizing(s) && RowsOk(s) && AllOpen(s)
    requires req in s.finalizing && (s.finalizing[req].phase.Assembled? || s.finalizing[req].phase.Checked?)
    ensures var t := s.(finalizing := s.finalizing - {req});
            Shrunk(t, t.(objects := t.objects - {s.finalizing[req].meta.storageKey}))
  {
    var key := s.finalizing[req].meta.storageKey;
    OwnObjectUnrecorded(c, s, req);
    assert FinalizingOk(s, req);
    forall q | q in s.finalizing && q != req && !s.finalizing[q].phase.Started?
      ensures s.finalizing[q].meta.storageKey != key
    {
      assert FinalizingOk(s, q);
    }
    SelfShrunk(s);
  }

  lemma FailFinalizeKeepsCore(c: Config, s: State, req: RequestId, cleanup: Call)
    requires Core(c, s) && req in s.finalizing && !s.finalizing[req].phase.Recorded?
    ensures Core(c, FailFinalize(s, req, cleanup))
  {
    var r := s.finalizing[req];
    var rest := s.(finalizing := s.finalizing - {req});
    FinalizingHome(s, req);
    RemoveFinalizingKeepsCore(c, s, req);
    if r.phase.Started? || cleanup.Refused? {
      ForgetKeepsCore(c, rest, r.user, r.uploadId, r.meta.s3UploadId);
      AbortKeepsCore(c, Forget(rest, r.user, r.uploadId, r.meta.s3UploadId), r.meta.s3UploadId, cleanup);
    } else {
      DeleteOwnObject(c, s, req);
      var emptied := rest.(objects := rest.objects - {r.meta.storageKey});
      ShrunkKeepsCore(c, rest, emptied);
      ForgetKeepsCore(c, emptied, r.user, r.uploadId, r.meta.s3UploadId);
    }
  }

  lemma CleanupKeepsCore(c: Config, s: State, req: RequestId)
    requires Core(c, s) && req in s.finalizing
    ensures Core(c, CleanupStep(s, req))
  {
    var r := s.finalizing[req];
    FinalizingHome(s, req);
    RemoveFinalizingKeepsCore(c, s, req);
    ForgetKeepsCore(c, s.(finalizing := s.finalizing - {req}), r.user, r.uploadId, r.meta.s3UploadId);
  }

  /** The parts of a full upload add up to its scheduled size. */
  lemma {:induction false} AssembledIsScheduled(fileSize: nat, parts: map<nat, Part>, n: nat)
    requires HasParts(parts, n)
    requires forall p :: p in parts ==> PartOk(fileSize, p, parts[p])
    ensures AssembledSize(parts, n) == ScheduledTotal(fileSize, ChunkCount(fileSize), n)
  {
    if n > 0 {
      AssembledIsScheduled(fileSize, parts, n - 1);
      assert PartOk(fileSize, n, parts[n]);
    }
  }

  /** What S3 assembles for a finalize request has exactly the size the Head check asks for. */
  lemma AssembledAsExpected(c: Config, s: State, req: RequestId)
    requires Core(c, s) && req in s.finalizing && s.finalizing[req].meta.s3UploadId in s.open
    ensures var r := s.finalizing[req];
            var upload := s.open[r.meta.s3UploadId];
            && |r.meta.parts| == r.meta.totalChunks && HasParts(upload.parts, r.meta.totalChunks)
            && upload.key == r.meta.storageKey
            && ExpectedEncryptedSize(r.meta.fileSize) == Success(AssembledSize(upload.parts, r.meta.totalChunks))
  {
    var r := s.finalizing[req];
    var x := r.meta.s3UploadId;
    assert FinalizingOk(s, req);
    assert OpenOk(s, x);
    assert s.uploads[x].fileSize == r.meta.fileSize;
    assert r.meta.fileSize <= MAX_PLAINTEXT_FILE_SIZE;
    AssembledIsScheduled(r.meta.fileSize, s.open[x].parts, r.meta.totalChunks);
    ScheduleMeetsExpectedSize(r.meta.fileSize);
  }

  /** No row and no request past Complete knows an upload that is still open. */
  lemma OpenIsUnused(s: State, s3: S3Id)
    requires AllOpen(s) && AllFinalizing(s) && RowsOk(s) && s3 in s.open
    ensures forall row :: row in s.rows ==> row.from != s3
    ensures forall q :: q in s.finalizing && !s.finalizing[q].phase.Started? ==> s.finalizing[q].meta.s3UploadId != s3
  {
    assert OpenOk(s, s3);
    forall row | row in s.rows
      ensures row.from != s3
    {
      assert RowOk(s, row);
    }
    forall q | q in s.finalizing && !s.finalizing[q].phase.Started?
      ensures s.finalizing[q].meta.s3UploadId != s3
    {
      assert FinalizingOk(s, q);
    }
  }

  lemma AssembleRows(c: Config, s: State, s3: S3Id, n: nat)
    requires UploadsOk(c, s) && AllOpen(s) && AllFinalizing(s) && RowsOk(s) && s3 in s.open && HasParts(s.open[s3].parts, n)
    ensures RowsOk(Assemble(s, s3, n))
  {
    OpenIsUnused(s, s3);
    assert OpenOk(s, s3);
    var t := Assemble(s, s3, n);
    forall row | row in t.rows
      ensures RowOk(t, row)
    {
      assert RowOk(s, row);
      assert row.storageName != s.open[s3].key;
    }
  }

  lemma AssembleRequests(c: Config, s: State, s3: S3Id, n: nat)
    requires UploadsOk(c, s) && AllOpen(s) && AllFinalizing(s) && RowsOk(s) && AllChunking(s)
    requires s3 in s.open && HasParts(s.open[s3].parts, n)
    ensures AllFinalizing(Assemble(s, s3, n)) && AllChunking(Assemble(s, s3, n))
  {
    OpenIsUnused(s, s3);
    assert OpenOk(s, s3);
    var t := Assemble(s, s3, n);
    forall q | q in t.finalizing
      ensures FinalizingOk(t, q)
    {
      assert FinalizingOk(s, q);
    }
    forall q | q in t.chunking
      ensures ChunkingOk(t, q)
    {
      assert ChunkingOk(s, q);
    }
  }

  lemma AssembleOthers(s: State, s3: S3Id, n: nat)
    requires AllMetas(s) && AllOpen(s) && AllIndexes(s) && s3 in s.open && HasParts(s.open[s3].parts, n)
    ensures var t := Assemble(s, s3, n);
            AllMetas(t) && AllOpen(t) && AllIndexes(t)
  {
    var t := Assemble(s, s3, n);
    forall k | k in t.metas
      ensures MetaOk(t, k)
    {
      assert MetaOk(s, k);
    }
    forall x | x in t.open
      ensures OpenOk(t, x)
    {
      assert OpenOk(s, x);
    }
    forall x | x in t.index
      ensures IndexOk(t, x)
    {
      assert IndexOk(s, x);
    }
  }

  lemma AssembleKeepsCore(c: Config, s: State, s3: S3Id, n: nat)
    requires Core(c, s) && s3 in s.open && HasParts(s.open[s3].parts, n)
    ensures Core(c, Assemble(s, s3, n))
  {
    assert OpenOk(s, s3);
    AssembleRows(c, s, s3, n);
    AssembleRequests(c, s, s3, n);
    AssembleOthers(s, s3, n);
  }

  /** A request moves past Complete with its object in place. */
  lemma AdvanceKeepsCore(c: Config, s: State, req: RequestId, phase: Phase)
    requires Core(c, s) && req in s.finalizing
    requires s.finalizing[req].meta.s3UploadId in s.completed && SizeConfirmed(s, s.finalizing[req].meta)
    requires phase.Assembled? || phase.Checked?
    requires forall row :: row in s.rows ==> row.from != s.finalizing[req].meta.s3UploadId
    requires forall q :: q in s.finalizing && q != req && !s.finalizing[q].phase.Started? ==>
               s.finalizing[q].meta.s3UploadId != s.finalizing[req].meta.s3UploadId
    ensures Core(c, Advance(s, req, phase))
  {
    var t := Advance(s, req, phase);
    forall q | q in t.finalizing
      ensures FinalizingOk(t, q)
    {
      assert FinalizingOk(s, q);
      assert FinalizingOk(s, req);
    }
    FinalizingIrrelevant(c, s, t.finalizing);
  }

  lemma CompleteKeepsCore(c: Config, s: State, req: RequestId, complete: Call, cleanup: Call)
    requires Core(c, s) && req in s.finalizing && s.finalizing[req].phase.Started?
    ensures Core(c, CompleteStep(s, req, complete, cleanup))
  {
    var r := s.finalizing[req];
    var s3 := r.meta.s3UploadId;
    if s3 !in s.open || complete.Refused? || !HasParts(s.open[s3].parts, |r.meta.parts|) {
      FailFinalizeKeepsCore(c, s, req, cleanup);
    } else {
      AssembledAsExpected(c, s, req);
      OpenIsUnused(s, s3);
      AssembleKeepsCore(c, s, s3, |r.meta.parts|);
      var assembled := Assemble(s, s3, |r.meta.parts|);
      if complete.Acked? {
        AdvanceKeepsCore(c, assembled, req, Assembled);
      } else {
        FailFinalizeKeepsCore(c, assembled, req, cleanup);
      }
    }
  }

  lemma HeadKeepsCore(c: Config, s: State, req: RequestId, head: Call, cleanup: Call)
    requires Core(c, s) && req in s.finalizing && s.finalizing[req].phase.Assembled?
    ensures Core(c, HeadStep(s, req, head, cleanup))
  {
    if !head.Acked? || !SizeConfirmed(s, s.finalizing[req].meta) {
      FailFinalizeKeepsCore(c, s, req, cleanup);
    } else {
      assert FinalizingOk(s, req);
      AdvanceKeepsCore(c, s, req, Checked);
    }
  }

  function NewRow(s: State, req: RequestId, id: FileId): FileRow
    requires req in s.finalizing
  {
    var r := s.finalizing[req];
    FileRow(id, r.user, r.meta.storageKey, r.meta.fileSize, r.meta.s3UploadId)
  }

  lemma CommitRows(s: State, req: RequestId, id: FileId)
    requires AllFinalizing(s) && RowsOk(s) && req in s.finalizing && s.finalizing[req].phase.Checked?
    requires forall row :: row in s.rows ==> row.id != id
    ensures RowsOk(s.(rows := s.rows + [NewRow(s, req, id)]))
  {
    assert FinalizingOk(s, req);
    var t := s.(rows := s.rows + [NewRow(s, req, id)]);
    forall row | row in t.rows
      ensures RowOk(t, row)
    {
      if row in s.rows {
        assert RowOk(s, row);
      }
    }
    forall i, j | 0 <= i < j < |t.rows|
      ensures t.rows[i].from != t.rows[j].from && t.rows[i].id != t.rows[j].id
    {
      assert t.rows[i] in s.rows;
      if j < |s.rows| {
        assert t.rows[j] == s.rows[j];
      }
    }
  }

  lemma CommitRequests(s: State, req: RequestId, id: FileId)
    requires AllFinalizing(s) && req in s.finalizing && s.finalizing[req].phase.Checked?
    ensures AllFinalizing(Advance(s.(rows := s.rows + [NewRow(s, req, id)]), req, Recorded))
  {
    assert FinalizingOk(s, req);
    var t := Advance(s.(rows := s.rows + [NewRow(s, req, id)]), req, Recorded);
    forall q | q in t.finalizing
      ensures FinalizingOk(t, q)
    {
      assert FinalizingOk(s, q);
    }
  }

  /** Only RowOk and FinalizingOk look at the rows. */
  lemma RowsIrrelevant(s: State, rows: seq<FileRow>)
    requires AllMetas(s) && AllIndexes(s) && AllOpen(s) && AllChunking(s)
    ensures var t := s.(rows := rows);
            AllMetas(t) && AllIndexes(t) && AllOpen(t) && AllChunking(t)
  {
    var t := s.(rows := rows);
    forall k | k in t.metas
      ensures MetaOk(t, k)
    {
      assert MetaOk(s, k);
    }
    forall x | x in t.open
      ensures OpenOk(t, x)
    {
      assert OpenOk(s, x);
    }
    forall x | x in t.index
      ensures IndexOk(t, x)
    {
      assert IndexOk(s, x);
    }
    forall q | q in t.chunking
      ensures ChunkingOk(t, q)
    {
      assert ChunkingOk(s, q);
    }
  }

  lemma CommitKeepsCore(c: Config, s: State, req: RequestId, id: FileId, dbOk: bool, cleanup: Call)
    requires Core(c, s) && Enabled(s, CommitEvent(req, id, dbOk, cleanup))
    ensures Core(c, CommitStep(c, s, req, id, dbOk, cleanup))
  {
    var r := s.finalizing[req];
    if !dbOk || !RecordAllowed(c, s, r.user, r.meta.fileSize) {
      FailFinalizeKeepsCore(c, s, req, cleanup);
    } else {
      CommitRows(s, req, id);
      CommitRequests(s, req, id);
      var recorded := s.(rows := s.rows + [NewRow(s, req, id)]);
      RowsIrrelevant(s, recorded.rows);
      FinalizingIrrelevant(c, recorded, Advance(recorded, req, Recorded).finalizing);
    }
  }

  // ------------------------------------------------------------- deletion

  lemma {:induction false} RowsWithoutIs(rows: seq<FileRow>, gone: FileRow -> bool)
    ensures forall row :: row in RowsWithout(rows, gone) <==> row in rows && !gone(row)
    ensures |RowsWithout(rows, gone)| <= |rows|
  {
    if rows != [] {
      RowsWithoutIs(rows[1..], gone);
      assert rows == [rows[0]] + rows[1..];
    }
  }

  ghost predicate DistinctRows(rows: seq<FileRow>) {
    forall i, j :: 0 <= i < j < |rows| ==> rows[i].from != rows[j].from && rows[i].id != rows[j].id
  }

  lemma {:induction false} RowsWithoutDistinct(rows: seq<FileRow>, gone: FileRow -> bool)
    requires DistinctRows(rows)
    ensures DistinctRows(RowsWithout(rows, gone))
  {
    if rows != [] {
      RowsWithoutDistinct(rows[1..], gone);
      RowsWithoutIs(rows[1..], gone);
      var kept := RowsWithout(rows[1..], gone);
      if !gone(rows[0]) {
        forall j | 0 <= j < |kept|
          ensures kept[j].from != rows[0].from && kept[j].id != rows[0].id
        {
          assert kept[j] in rows[1..];
        }
      }
    }
  }

  /** Deleting rows together with objects that only they use. */
  lemma DeleteRowsKeepsCore(c: Config, s: State, gone: FileRow -> bool, keys: set<StorageKey>)
    requires Core(c, s)
    requires forall key :: key in keys ==> exists row :: row in s.rows && gone(row) && row.storageName == key
    ensures Core(c, s.(rows := RowsWithout(s.rows, gone), objects := s.objects - keys))
  {
    var t := s.(rows := RowsWithout(s.rows, gone), objects := s.objects - keys);
    RowsWithoutIs(s.rows, gone);
    RowsWithoutDistinct(s.rows, gone);
    DeletedRowsRows(c, s, gone, keys);
    DeletedRowsRequests(c, s, gone, keys);
    RowsIrrelevant(s, t.rows);
    ObjectsIrrelevant(s.(rows := t.rows), t.objects);
  }

  lemma ObjectsIrrelevant(s: State, objects: map<StorageKey, int>)
    requires AllMetas(s) && AllIndexes(s) && AllOpen(s) && AllChunking(s)
    ensures var t := s.(objects := objects);
            AllMetas(t) && AllIndexes(t) && AllOpen(t) && AllChunking(t)
  {
    var t := s.(objects := objects);
    forall k | k in t.metas
      ensures MetaOk(t, k)
    {
      assert MetaOk(s, k);
    }
    forall x | x in t.open
      ensures OpenOk(t, x)
    {
      assert OpenOk(s, x);
    }
    forall x | x in t.index
      ensures IndexOk(t, x)
    {
      assert IndexOk(s, x);
    }
    forall q | q in t.chunking
      ensures ChunkingOk(t, q)
    {
      assert ChunkingOk(s, q);
    }
  }

  /** Rows of distinct uploads have distinct objects. */
  lemma RowKeysDistinct(c: Config, s: State, a: FileRow, b: FileRow)
    requires UploadsOk(c, s) && RowsOk(s) && a in s.rows && b in s.rows && a.storageName == b.storageName
    ensures a == b
  {
    assert RowOk(s, a) && RowOk(s, b);
    var i :| 0 <= i < |s.rows| && s.rows[i] == a;
    var j :| 0 <= j < |s.rows| && s.rows[j] == b;
  }

  lemma DeletedRowsRows(c: Config, s: State, gone: FileRow -> bool, keys: set<StorageKey>)
    requires UploadsOk(c, s) && RowsOk(s)
    requires forall key :: key in keys ==> exists row :: row in s.rows && gone(row) && row.storageName == key
    ensures RowsOk(s.(rows := RowsWithout(s.rows, gone), objects := s.objects - keys))
  {
    var t := s.(rows := RowsWithout(s.rows, gone), objects := s.objects - keys);
    RowsWithoutIs(s.rows, gone);
    RowsWithoutDistinct(s.rows, gone);
    forall row | row in t.rows
      ensures RowOk(t, row)
    {
      assert RowOk(s, row);
      if row.storageName in keys {
        var other :| other in s.rows && gone(other) && other.storageName == row.storageName;
        RowKeysDistinct(c, s, row, other);
      }
    }
  }

  lemma DeletedRowsRequests(c: Config, s: State, gone: FileRow -> bool, keys: set<StorageKey>)
    requires UploadsOk(c, s) && RowsOk(s) && AllFinalizing(s)
    requires forall key :: key in keys ==> exists row :: row in s.rows && gone(row) && row.storageName == key
    ensures AllFinalizing(s.(rows := RowsWithout(s.rows, gone), objects := s.objects - keys))
  {
    var t := s.(rows := RowsWithout(s.rows, gone), objects := s.objects - keys);
    RowsWithoutIs(s.rows, gone);
    forall q | q in t.finalizing
      ensures FinalizingOk(t, q)
    {
      assert FinalizingOk(s, q);
      if s.finalizing[q].phase.Assembled? || s.finalizing[q].phase.Checked? {
        OwnObjectUnrecorded(c, s, q);
      }
    }
  }

  lemma DeleteFileKeepsCore(c: Config, s: State, id: FileId, call: Call)
    requires Core(c, s)
    ensures Core(c, DeleteFile(s, id, call))
  {
    var gone := HasId(id);
    var keys := ObjectsOf(s.rows, HasId(id));
    forall key | key in keys
      ensures exists row :: row in s.rows && gone(row) && row.storageName == key
    {
      var row :| row in s.rows && gone(row) && row.storageName == key;
    }
    DeleteRowsKeepsCore(c, s, gone, keys);
    DeleteRowsKeepsCore(c, s, gone, {});
    assert s.objects - {} == s.objects;
  }

  lemma RemoveMetaKeepsCore(c: Config, s: State, u: UserId, id: UploadId)
    requires Core(c, s) && (u, id) in s.metas
    ensures Core(c, s.(metas := s.metas - {(u, id)}))
    ensures Unreferenced(s.(metas := s.metas - {(u, id)}), s.metas[(u, id)].meta.s3UploadId)
  {
    MetaHome(s, (u, id));
    ForgottenUpload(s, u, id, s.metas[(u, id)].meta.s3UploadId);
    SelfShrunk(s);
    ShrunkKeepsCore(c, s, s.(metas := s.metas - {(u, id)}));
  }

  lemma ClearMetaKeepsCore(c: Config, s: State, u: UserId, id: UploadId, calls: S3Id -> Call)
    requires Core(c, s)
    ensures Core(c, ClearMeta(s, u, id, calls))
  {
    if (u, id) in s.metas {
      var s3 := s.metas[(u, id)].meta.s3UploadId;
      RemoveMetaKeepsCore(c, s, u, id);
      AbortKeepsCore(c, s.(metas := s.metas - {(u, id)}), s3, calls(s3));
    }
  }

  lemma {:induction false} ClearMetasKeepsCore(c: Config, s: State, u: UserId, ids: seq<UploadId>, calls: S3Id -> Call)
    requires Core(c, s)
    ensures Core(c, ClearMetas(s, u, ids, calls))
    decreases |ids|
  {
    if ids != [] {
      ClearMetaKeepsCore(c, s, u, ids[0], calls);
      ClearMetasKeepsCore(c, ClearMeta(s, u, ids[0], calls), u, ids[1..], calls);
    }
  }

  lemma AdminClearKeepsCore(c: Config, s: State, u: UserId, ids: seq<UploadId>, stuck: set<StorageKey>, calls: S3Id -> Call)
    requires Core(c, s)
    ensures Core(c, AdminClear(s, u, ids, stuck, calls))
  {
    var gone := OwnedBy(u);
    var keys := ObjectsOf(s.rows, OwnedBy(u)) - stuck;
    forall key | key in keys
      ensures exists row :: row in s.rows && gone(row) && row.storageName == key
    {
      var row :| row in s.rows && gone(row) && row.storageName == key;
    }
    DeleteRowsKeepsCore(c, s, gone, keys);
    var emptied := s.(rows := RowsWithout(s.rows, gone), objects := s.objects - keys);
    ClearMetasKeepsCore(c, emptied, u, ids, calls);
    var cleared := ClearMetas(emptied, u, ids, calls);
    ActiveIrrelevant(c, cleared, cleared.active - {u});
  }

  // ------------------------------------------------------- sweep and time

  lemma SweepOneKeepsCore(c: Config, s: State, s3: S3Id, env: SweepEnv)
    requires Core(c, s)
    ensures Core(c, SweepOne(s, s3, env))
  {
    if Swept(s, s3, env) {
      assert OpenOk(s, s3);
      if s3 in s.index {
        assert IndexOk(s, s3);
        ForgetKeepsCore(c, s, s.index[s3].user, s.index[s3].uploadId, s3);
      } else {
        UnindexedUnreferenced(s, s3);
      }
      AbortKeepsCore(c, RemoveTracked(s, s3), s3, Acked);
    } else if SweptUnheard(s, s3, env) {
      AbortKeepsCore(c, s, s3, Unheard);
    }
  }

  lemma UnindexedUnreferenced(s: State, s3: S3Id)
    requires AllMetas(s) && s3 !in s.index
    ensures Unreferenced(s, s3)
  {
    forall k | k in s.metas
      ensures s.metas[k].meta.s3UploadId != s3
    {
      assert MetaOk(s, k);
    }
  }

  lemma {:induction false} SweepAllKeepsCore(c: Config, s: State, listed: seq<S3Id>, env: SweepEnv)
    requires Core(c, s)
    ensures Core(c, SweepAll(s, listed, env))
    decreases |listed|
  {
    if listed != [] {
      SweepOneKeepsCore(c, s, listed[0], env);
      SweepAllKeepsCore(c, SweepOne(s, listed[0], env), listed[1..], env);
    }
  }

  lemma TickMetas(s: State, dt: nat)
    requires AllMetas(s)
    ensures AllMetas(Tick(s, dt))
  {
    var t := Tick(s, dt);
    forall k | k in t.metas
      ensures MetaOk(t, k)
    {
      assert MetaOk(s, k);
    }
  }

  lemma TickOthers(s: State, dt: nat)
    requires AllOpen(s) && AllIndexes(s) && RowsOk(s)
    ensures AllOpen(Tick(s, dt)) && AllIndexes(Tick(s, dt)) && RowsOk(Tick(s, dt))
  {
    var t := Tick(s, dt);
    forall x | x in t.open
      ensures OpenOk(t, x)
    {
      assert OpenOk(s, x);
    }
    forall x | x in t.index
      ensures IndexOk(t, x)
    {
      assert IndexOk(s, x);
    }
    forall row | row in t.rows
      ensures RowOk(t, row)
    {
      assert RowOk(s, row);
    }
  }

  lemma TickRequests(s: State, dt: nat)
    requires AllChunking(s) && AllFinalizing(s)
    ensures AllChunking(Tick(s, dt)) && AllFinalizing(Tick(s, dt))
  {
    var t := Tick(s, dt);
    forall q | q in t.chunking
      ensures ChunkingOk(t, q)
    {
      assert ChunkingOk(s, q);
    }
    forall q | q in t.finalizing
      ensures FinalizingOk(t, q)
    {
      assert FinalizingOk(s, q);
    }
  }

  lemma TickKeepsCore(c: Config, s: State, dt: nat)
    requires Core(c, s)
    ensures Core(c, Tick(s, dt))
  {
    TickMetas(s, dt);
    TickOthers(s, dt);
    TickRequests(s, dt);
  }

  // ----------------------------------------------------------------- runs

  lemma StepKeepsCore(c: Config, s: State, e: Event)
    requires Core(c, s) && Enabled(s, e)
    ensures Core(c, Step(c, s, e))
  {
    match e
    case InitEvent(u, fileSize, totalChunks, live, lockFree, ids, create, order, calls, undo) =>
      InitKeepsCore(c, s, u, fileSize, totalChunks, live, lockFree, ids, create, order, calls, undo);
    case BeginChunkEvent(u, id, chunkIndex, size, req) => BeginChunkKeepsCore(c, s, u, id, chunkIndex, size, req);
    case FinishChunkEvent(req, put, late) => FinishChunkKeepsCore(c, s, req, put, late);
    case StartFinalizeEvent(u, id, totalChunks, live, req) => StartFinalizeKeepsCore(c, s, u, id, totalChunks, live, req);
    case CompleteEvent(req, complete, cleanup) => CompleteKeepsCore(c, s, req, complete, cleanup);
    case HeadEvent(req, head, cleanup) => HeadKeepsCore(c, s, req, head, cleanup);
    case CommitEvent(req, file, dbOk, cleanup) => CommitKeepsCore(c, s, req, file, dbOk, cleanup);
    case CleanupEvent(req) => CleanupKeepsCore(c, s, req);
    case CancelEvent(u, id, call) => CancelKeepsCore(c, s, u, id, call);
    case DeleteFileEvent(file, call) => DeleteFileKeepsCore(c, s, file, call);
    case AdminClearEvent(u, listed, stuck, calls) => AdminClearKeepsCore(c, s, u, listed, stuck, calls);
    case SweepEvent(listing, env) => SweepAllKeepsCore(c, s, listing, env);
    case TickEvent(dt) => TickKeepsCore(c, s, dt);
  }

  /** In every state of every run the core invariant holds. */
  lemma {:induction false} RunKeepsCore(c: Config, events: seq<Event>, states: seq<State>, i: nat)
    requires IsRun(c, events, states) && i <= |events|
    ensures Core(c, states[i])
  {
    if i > 0 {
      RunKeepsCore(c, events, states, i - 1);
      StepKeepsCore(c, states[i - 1], events[i - 1]);
    }
  }
}
