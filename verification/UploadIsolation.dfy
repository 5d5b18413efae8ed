/** What one request, cancellation or deletion does to uploads other than its own: nothing. */
module UploadIsolation {
  import opened FileFormat
  import opened UploadProtocol
  import opened UploadSafety
  import opened UploadSteps
  import opened ActiveUploads
  import opened UploadGuarantees

  /** Upload x was created for this user, and for this upload id. */
  ghost predicate IsOf(s: State, x: S3Id, u: UserId) {
    x in s.uploads && s.uploads[x].user == u
  }

  ghost predicate Is(s: State, x: S3Id, u: UserId, id: UploadId) {
    IsOf(s, x, u) && s.uploads[x].uploadId == id
  }

  /** The event is about upload x. Only an initialisation, which may evict, and an admin's clearing reach further than one upload. */
  ghost predicate Touches(s: State, e: Event, x: S3Id) {
    match e
    case InitEvent(u, _, _, _, _, ids, _, _, _, _) => x == ids.s3 || IsOf(s, x, u)
    case BeginChunkEvent(u, id, _, _, _) => Is(s, x, u, id)
    case FinishChunkEvent(req, _, _) => req in s.chunking && s.chunking[req].meta.s3UploadId == x
    case StartFinalizeEvent(_, _, _, _, _) => false
    case CompleteEvent(req, _, _) => req in s.finalizing && s.finalizing[req].meta.s3UploadId == x
    case HeadEvent(req, _, _) => req in s.finalizing && s.finalizing[req].meta.s3UploadId == x
    case CommitEvent(req, _, _, _) => req in s.finalizing && s.finalizing[req].meta.s3UploadId == x
    case CleanupEvent(req) => req in s.finalizing && s.finalizing[req].meta.s3UploadId == x
    case CancelEvent(u, id, _) => Is(s, x, u, id)
    case DeleteFileEvent(_, _) => false
    case AdminClearEvent(u, _, _, _) => IsOf(s, x, u)
    case SweepEvent(listing, _) => x in listing
    case TickEvent(_) => true
  }

  // ---------------------------------------------------------- primitives

  /** The tracked name of x, if it has one, is not (u, id). */
  ghost predicate NotNamed(s: State, x: S3Id, u: UserId, id: UploadId) {
    x in s.index ==> (s.index[x].user, s.index[x].uploadId) != (u, id)
  }

  ghost predicate NotOf(s: State, x: S3Id, u: UserId) {
    x in s.index ==> s.index[x].user != u
  }

  lemma NameOf(s: State, x: S3Id, u: UserId, id: UploadId)
    requires AllIndexes(s)
    ensures !Is(s, x, u, id) ==> NotNamed(s, x, u, id)
    ensures !IsOf(s, x, u) ==> NotOf(s, x, u) && NotNamed(s, x, u, id)
  {
    if x in s.index {
      assert IndexOk(s, x);
    }
  }

  lemma SameTwice(s: State, t: State, r: State, x: S3Id)
    requires SameFor(s, t, x) && SameFor(t, r, x)
    ensures SameFor(s, r, x)
  {
  }

  /** Only what Redis and storage hold of uploads matters. */
  lemma SameTables(s: State, t: State, x: S3Id)
    requires t.open == s.open && t.index == s.index && t.metas == s.metas && t.active == s.active
    ensures SameFor(s, t, x)
  {
  }

  lemma ReleaseOthers(s: State, u: UserId, id: UploadId, x: S3Id)
    requires NotNamed(s, x, u, id)
    ensures SameFor(s, Release(s, u, id), x)
  {
  }

  lemma ForgetOthers(s: State, u: UserId, id: UploadId, s3: S3Id, x: S3Id)
    requires x != s3 && NotNamed(s, x, u, id)
    ensures SameFor(s, Forget(s, u, id, s3), x)
  {
    var t := s.(metas := s.metas - {(u, id)}, index := s.index - {s3});
    assert SameFor(s, t, x);
    ReleaseOthers(t, u, id, x);
  }

  lemma DropOthers(s: State, u: UserId, id: UploadId, s3: S3Id, call: Call, x: S3Id)
    requires x != s3 && NotNamed(s, x, u, id)
    ensures SameFor(s, Drop(s, u, id, s3, call), x)
  {
    ForgetOthers(s, u, id, s3, x);
    AbortOthers(Forget(s, u, id, s3), s3, call, x);
    AbortOthers(s, s3, call, x);
  }

  lemma RefreshLeaves(s: State, u: UserId, id: UploadId, meta: UploadMeta, x: S3Id)
    requires x != meta.s3UploadId && NotNamed(s, x, u, id)
    ensures SameFor(s, Refresh(s, u, id, meta), x)
  {
  }

  /** Different uploads have different names. */
  lemma OtherName(c: Config, s: State, u: UserId, id: UploadId, meta: UploadMeta, x: S3Id)
    requires UploadsOk(c, s) && AllIndexes(s) && Describes(s, u, id, meta) && x != meta.s3UploadId
    ensures NotNamed(s, x, u, id) && !Is(s, x, u, id)
  {
    NameOf(s, x, u, id);
  }

  // -------------------------------------------------------------- chunks

  lemma BeginChunkOthers(c: Config, s: State, u: UserId, id: UploadId, chunkIndex: int, size: int, req: RequestId, x: S3Id)
    requires Core(c, s) && !Is(s, x, u, id)
    ensures SameFor(s, BeginChunk(s, u, id, chunkIndex, size, req).0, x)
  {
    NameOf(s, x, u, id);
    if (u, id) in s.metas {
      assert MetaOk(s, (u, id));
    }
    BegunOthers(s, u, id, chunkIndex, size, req, x);
  }

  lemma BegunOthers(s: State, u: UserId, id: UploadId, chunkIndex: int, size: int, req: RequestId, x: S3Id)
    requires NotNamed(s, x, u, id) && ((u, id) in s.metas ==> s.metas[(u, id)].meta.s3UploadId != x)
    ensures SameFor(s, BeginChunk(s, u, id, chunkIndex, size, req).0, x)
  {
    if (u, id) in s.metas {
      RefreshLeaves(s, u, id, s.metas[(u, id)].meta.(updatedAt := s.now), x);
    }
  }

  lemma FinishChunkOthers(c: Config, s: State, req: RequestId, put: Call, late: Call, x: S3Id)
    requires Core(c, s) && req in s.chunking && s.chunking[req].meta.s3UploadId != x
    ensures SameFor(s, FinishChunk(s, req, put, late).0, x)
  {
    var r := s.chunking[req];
    assert ChunkingOk(s, req);
    OtherName(c, s, r.user, r.uploadId, r.meta, x);
    FinishChunkCases(s, req, put, late);
    SameTables(s, s.(chunking := s.chunking - {req}), x);
    if r.meta.s3UploadId in s.open {
      AfterPartOthers(s, req, x);
      AfterReplyOthers(AfterPart(s, req), r, late, x);
      SameTwice(s, AfterPart(s, req), AfterReply(AfterPart(s, req), r, late), x);
    }
  }

  lemma AfterPartOthers(s: State, req: RequestId, x: S3Id)
    requires req in s.chunking && s.chunking[req].meta.s3UploadId in s.open && x != s.chunking[req].meta.s3UploadId
    ensures SameFor(s, AfterPart(s, req), x)
    ensures AfterPart(s, req).index == s.index
  {
  }

  lemma AfterReplyOthers(s: State, r: ChunkRequest, late: Call, x: S3Id)
    requires x != r.meta.s3UploadId && NotNamed(s, x, r.user, r.uploadId)
    ensures SameFor(s, AfterReply(s, r, late), x)
  {
    var n := r.meta.nextExpectedChunk + 1;
    AbortOthers(s, r.meta.s3UploadId, late, x);
    RefreshLeaves(s, r.user, r.uploadId, r.meta.(parts := r.meta.parts + [n], nextExpectedChunk := n, updatedAt := s.now), x);
  }

  // ------------------------------------------------------------ finalizing

  lemma FailFinalizeOthers(s: State, req: RequestId, cleanup: Call, x: S3Id)
    requires req in s.finalizing
    requires x != s.finalizing[req].meta.s3UploadId && NotNamed(s, x, s.finalizing[req].user, s.finalizing[req].uploadId)
    ensures SameFor(s, FailFinalize(s, req, cleanup), x)
  {
    var r := s.finalizing[req];
    var rest := s.(finalizing := s.finalizing - {req});
    var forgotten := Forget(rest, r.user, r.uploadId, r.meta.s3UploadId);
    var aborted := Abort(forgotten, r.meta.s3UploadId, cleanup);
    SameTables(s, rest, x);
    ForgetOthers(rest, r.user, r.uploadId, r.meta.s3UploadId, x);
    SameTwice(s, rest, forgotten, x);
    AbortOthers(forgotten, r.meta.s3UploadId, cleanup, x);
    SameTwice(s, forgotten, aborted, x);
    var deleted := forgotten.(objects := forgotten.objects - {r.meta.storageKey});
    SameTables(forgotten, deleted, x);
    SameTwice(s, forgotten, deleted, x);
    FailFinalizeCases(s, req, cleanup);
  }

  lemma FailFinalizeCases(s: State, req: RequestId, cleanup: Call)
    requires req in s.finalizing
    ensures var r := s.finalizing[req];
            var forgotten := Forget(s.(finalizing := s.finalizing - {req}), r.user, r.uploadId, r.meta.s3UploadId);
            var t := FailFinalize(s, req, cleanup);
            || t == Abort(forgotten, r.meta.s3UploadId, cleanup)
            || t == forgotten
            || t == forgotten.(objects := forgotten.objects - {r.meta.storageKey})
  {
  }

  lemma CompleteOthers(s: State, req: RequestId, complete: Call, cleanup: Call, x: S3Id)
    requires req in s.finalizing
    requires x != s.finalizing[req].meta.s3UploadId && NotNamed(s, x, s.finalizing[req].user, s.finalizing[req].uploadId)
    ensures SameFor(s, CompleteStep(s, req, complete, cleanup), x)
  {
    var r := s.finalizing[req];
    var s3 := r.meta.s3UploadId;
    FailFinalizeOthers(s, req, cleanup, x);
    if s3 in s.open && HasParts(s.open[s3].parts, |r.meta.parts|) {
      var assembled := Assemble(s, s3, |r.meta.parts|);
      AssembleLeaves(s, s3, |r.meta.parts|, x);
      AssembledOthers(s, assembled, req, cleanup, x);
    }
  }

  lemma AssembledOthers(s: State, assembled: State, req: RequestId, cleanup: Call, x: S3Id)
    requires req in assembled.finalizing && SameFor(s, assembled, x)
    requires var r := assembled.finalizing[req]; x != r.meta.s3UploadId && NotNamed(assembled, x, r.user, r.uploadId)
    ensures SameFor(s, FailFinalize(assembled, req, cleanup), x) && SameFor(s, Advance(assembled, req, Assembled), x)
  {
    FailFinalizeOthers(assembled, req, cleanup, x);
    SameTwice(s, assembled, FailFinalize(assembled, req, cleanup), x);
    SameTables(assembled, Advance(assembled, req, Assembled), x);
    SameTwice(s, assembled, Advance(assembled, req, Assembled), x);
  }

  lemma AssembleLeaves(s: State, s3: S3Id, n: nat, x: S3Id)
    requires s3 in s.open && HasParts(s.open[s3].parts, n) && x != s3
    ensures SameFor(s, Assemble(s, s3, n), x)
    ensures Assemble(s, s3, n).index == s.index && Assemble(s, s3, n).finalizing == s.finalizing
  {
  }

  lemma HeadOthers(s: State, req: RequestId, head: Call, cleanup: Call, x: S3Id)
    requires req in s.finalizing
    requires x != s.finalizing[req].meta.s3UploadId && NotNamed(s, x, s.finalizing[req].user, s.finalizing[req].uploadId)
    ensures SameFor(s, HeadStep(s, req, head, cleanup), x)
  {
    FailFinalizeOthers(s, req, cleanup, x);
    SameTables(s, Advance(s, req, Checked), x);
  }

  lemma CommitOthers(c: Config, s: State, req: RequestId, id: FileId, dbOk: bool, cleanup: Call, x: S3Id)
    requires req in s.finalizing
    requires x != s.finalizing[req].meta.s3UploadId && NotNamed(s, x, s.finalizing[req].user, s.finalizing[req].uploadId)
    ensures SameFor(s, CommitStep(c, s, req, id, dbOk, cleanup), x)
  {
    FailFinalizeOthers(s, req, cleanup, x);
    SameTables(s, Advance(s.(rows := s.rows + [NewRow(s, req, id)]), req, Recorded), x);
  }

  lemma CleanupOthers(s: State, req: RequestId, x: S3Id)
    requires req in s.finalizing
    requires x != s.finalizing[req].meta.s3UploadId && NotNamed(s, x, s.finalizing[req].user, s.finalizing[req].uploadId)
    ensures SameFor(s, CleanupStep(s, req), x)
  {
    var r := s.finalizing[req];
    var rest := s.(finalizing := s.finalizing - {req});
    SameTables(s, rest, x);
    ForgetOthers(rest, r.user, r.uploadId, r.meta.s3UploadId, x);
    SameTwice(s, rest, CleanupStep(s, req), x);
  }

  lemma FinalizingName(c: Config, s: State, req: RequestId, x: S3Id)
    requires Core(c, s) && req in s.finalizing && x != s.finalizing[req].meta.s3UploadId
    ensures NotNamed(s, x, s.finalizing[req].user, s.finalizing[req].uploadId)
  {
    assert FinalizingOk(s, req);
    OtherName(c, s, s.finalizing[req].user, s.finalizing[req].uploadId, s.finalizing[req].meta, x);
  }

  // ----------------------------------------------- initialising, clearing

  lemma {:induction false} EvictAllOthers(s: State, u: UserId, victims: seq<Candidate>, calls: S3Id -> Call, x: S3Id)
    requires NotOf(s, x, u) && forall v :: v in victims ==> v.meta.s3UploadId != x
    ensures SameFor(s, EvictAll(s, u, victims, calls).0, x)
    decreases |victims|
  {
    if victims != [] {
      var v := victims[0];
      var y := v.meta.s3UploadId;
      var next := Drop(s, u, v.uploadId, y, calls(y));
      assert v in victims;
      DropOthers(s, u, v.uploadId, y, calls(y), x);
      if AbortSucceeds(s, y, calls(y)) {
        EvictAllOthers(next, u, victims[1..], calls, x);
        SameTwice(s, next, EvictAll(next, u, victims[1..], calls).0, x);
      }
    }
  }

  /** Every record of the user is of another upload than x. */
  ghost predicate NoneTracks(s: State, u: UserId, x: S3Id) {
    forall id :: (u, id) in s.metas ==> s.metas[(u, id)].meta.s3UploadId != x
  }

  lemma NoneTracksOther(s: State, u: UserId, x: S3Id)
    requires AllMetas(s) && !IsOf(s, x, u)
    ensures NoneTracks(s, u, x)
  {
    forall id | (u, id) in s.metas
      ensures s.metas[(u, id)].meta.s3UploadId != x
    {
      assert MetaOk(s, (u, id));
    }
  }

  lemma {:induction false} CandidatesTracked(s: State, u: UserId, order: seq<UploadId>, v: Candidate)
    requires v in Candidates(s, u, order)
    ensures (u, v.uploadId) in s.metas && s.metas[(u, v.uploadId)].meta == v.meta
  {
    if order != [] && v in Candidates(s, u, order[1..]) {
      CandidatesTracked(s, u, order[1..], v);
    }
  }

  lemma VictimTracked(c: Config, s: State, u: UserId, order: seq<UploadId>, v: Candidate)
    requires v in Victims(c, s, u, order)
    ensures (u, v.uploadId) in s.metas && s.metas[(u, v.uploadId)].meta == v.meta
  {
    SortKeepsMembers(Candidates(s, u, order));
    assert v in SortByAge(Candidates(s, u, order));
    CandidatesTracked(s, u, order, v);
  }

  lemma DropStaleOthers(s: State, u: UserId, x: S3Id)
    requires NotOf(s, x, u)
    ensures SameFor(s, DropStale(s, u), x) && NotOf(DropStale(s, u), x, u)
  {
  }

  lemma MakeRoomOthers(c: Config, s: State, u: UserId, order: seq<UploadId>, calls: S3Id -> Call, x: S3Id)
    requires NotOf(s, x, u) && NoneTracks(s, u, x)
    ensures SameFor(s, MakeRoom(c, s, u, order, calls).0, x)
  {
    var stale := DropStale(s, u);
    var victims := Victims(c, s, u, order);
    DropStaleOthers(s, u, x);
    forall v | v in victims
      ensures v.meta.s3UploadId != x
    {
      VictimTracked(c, s, u, order, v);
    }
    EvictAllOthers(stale, u, victims, calls, x);
    SameTwice(s, stale, EvictAll(stale, u, victims, calls).0, x);
  }

  lemma InitOthers(c: Config, s: State, u: UserId, fileSize: nat, totalChunks: int, live: bool, lockFree: bool, ids: FreshIds,
                   create: Call, order: seq<UploadId>, calls: S3Id -> Call, undo: Call, x: S3Id)
    requires Core(c, s) && x != ids.s3 && !IsOf(s, x, u)
    ensures SameFor(s, Init(c, s, u, fileSize, totalChunks, live, lockFree, ids, create, order, calls, undo).0, x)
  {
    NameOf(s, x, u, ids.uploadId);
    NoneTracksOther(s, u, x);
    var created := Create(s, u, fileSize, ids);
    var tracked := Track(created, u, fileSize, ids);
    TrackOthers(s, u, fileSize, ids, x);
    MakeRoomOthers(c, tracked, u, order, calls, x);
    var room := MakeRoom(c, tracked, u, order, calls).0;
    SameTwice(s, tracked, room, x);
    ReserveOthers(room, u, ids.uploadId, x);
    UndoOthers(room, u, ids, undo, x);
    InitCases(c, s, u, fileSize, totalChunks, live, lockFree, ids, create, order, calls, undo);
    SameTwice(s, room, Reserve(room, u, ids.uploadId), x);
    SameTwice(s, room, Abort(Forget(room, u, ids.uploadId, ids.s3), ids.s3, undo), x);
  }

  lemma TrackOthers(s: State, u: UserId, fileSize: nat, ids: FreshIds, x: S3Id)
    requires x != ids.s3 && NotOf(s, x, u) && NoneTracks(s, u, x)
    ensures SameFor(s, Create(s, u, fileSize, ids), x)
    ensures var tracked := Track(Create(s, u, fileSize, ids), u, fileSize, ids);
            SameFor(s, tracked, x) && NotOf(tracked, x, u) && NoneTracks(tracked, u, x)
  {
  }

  lemma ReserveOthers(s: State, u: UserId, id: UploadId, x: S3Id)
    requires NotOf(s, x, u)
    ensures SameFor(s, Reserve(s, u, id), x)
  {
  }

  lemma UndoOthers(s: State, u: UserId, ids: FreshIds, undo: Call, x: S3Id)
    requires x != ids.s3 && NotOf(s, x, u)
    ensures SameFor(s, Abort(Forget(s, u, ids.uploadId, ids.s3), ids.s3, undo), x)
  {
    var forgotten := Forget(s, u, ids.uploadId, ids.s3);
    ForgetOthers(s, u, ids.uploadId, ids.s3, x);
    AbortOthers(forgotten, ids.s3, undo, x);
    SameTwice(s, forgotten, Abort(forgotten, ids.s3, undo), x);
  }

  lemma {:induction false} ClearMetasOthers(s: State, u: UserId, ids: seq<UploadId>, calls: S3Id -> Call, x: S3Id)
    requires NotOf(s, x, u) && NoneTracks(s, u, x)
    ensures var t := ClearMetas(s, u, ids, calls);
            SameFor(s, t, x) && SameFor(s, t.(active := t.active - {u}), x)
    decreases |ids|
  {
    if ids != [] {
      var next := ClearMeta(s, u, ids[0], calls);
      ClearMetaOthers(s, u, ids[0], calls, x);
      ClearMetasOthers(next, u, ids[1..], calls, x);
      var t := ClearMetas(next, u, ids[1..], calls);
      SameTwice(s, next, t, x);
      SameTwice(s, next, t.(active := t.active - {u}), x);
    }
  }

  lemma ClearMetaOthers(s: State, u: UserId, id: UploadId, calls: S3Id -> Call, x: S3Id)
    requires NotOf(s, x, u) && NoneTracks(s, u, x)
    ensures var t := ClearMeta(s, u, id, calls);
            SameFor(s, t, x) && NotOf(t, x, u) && NoneTracks(t, u, x)
  {
    if (u, id) in s.metas {
      var y := s.metas[(u, id)].meta.s3UploadId;
      var removed := s.(metas := s.metas - {(u, id)});
      RemovedMetaOthers(s, u, id, x);
      AbortFields(removed, y, calls(y));
      AbortOthers(removed, y, calls(y), x);
      SameTwice(s, removed, Abort(removed, y, calls(y)), x);
    }
  }

  lemma RemovedMetaOthers(s: State, u: UserId, id: UploadId, x: S3Id)
    requires NotOf(s, x, u) && NoneTracks(s, u, x)
    ensures var t := s.(metas := s.metas - {(u, id)});
            SameFor(s, t, x) && NoneTracks(t, u, x)
  {
  }

  lemma AdminClearOthers(s: State, u: UserId, ids: seq<UploadId>, stuck: set<StorageKey>, calls: S3Id -> Call, x: S3Id)
    requires NotOf(s, x, u) && NoneTracks(s, u, x)
    ensures SameFor(s, AdminClear(s, u, ids, stuck, calls), x)
  {
    var keys := ObjectsOf(s.rows, OwnedBy(u)) - stuck;
    var emptied := s.(rows := RowsWithout(s.rows, OwnedBy(u)), objects := s.objects - keys);
    ClearMetasOthers(emptied, u, ids, calls, x);
  }

  lemma ClearingOthers(c: Config, s: State, u: UserId, ids: seq<UploadId>, stuck: set<StorageKey>, calls: S3Id -> Call, x: S3Id)
    requires Core(c, s) && !IsOf(s, x, u)
    ensures SameFor(s, AdminClear(s, u, ids, stuck, calls), x)
  {
    NameOf(s, x, u, 0);
    NoneTracksOther(s, u, x);
    AdminClearOthers(s, u, ids, stuck, calls, x);
  }

  lemma CancelOthers(c: Config, s: State, u: UserId, id: UploadId, call: Call, x: S3Id)
    requires Core(c, s) && !Is(s, x, u, id)
    ensures SameFor(s, Cancel(s, u, id, call), x)
  {
    NameOf(s, x, u, id);
    if (u, id) in s.metas {
      assert MetaOk(s, (u, id));
      DropOthers(s, u, id, s.metas[(u, id)].meta.s3UploadId, call, x);
    } else {
      ReleaseOthers(s, u, id, x);
    }
  }

  // -------------------------------------------------------------- all steps

  /**
   Whatever happens, an upload that the event is not about stays exactly as it was: its multipart upload with all parts,
   its reverse index, its metadata and its place in the active set.
   */
  lemma OthersUntouched(c: Config, s: State, e: Event, x: S3Id)
    requires Core(c, s) && Enabled(s, e) && !Touches(s, e, x)
    ensures SameFor(s, Step(c, s, e), x)
  {
    match e
    case InitEvent(_, _, _, _, _, _, _, _, _, _) => UploadingOthers(c, s, e, x);
    case BeginChunkEvent(_, _, _, _, _) => UploadingOthers(c, s, e, x);
    case FinishChunkEvent(_, _, _) => UploadingOthers(c, s, e, x);
    case CompleteEvent(_, _, _) => FinalizingOthers(c, s, e, x);
    case HeadEvent(_, _, _) => FinalizingOthers(c, s, e, x);
    case CommitEvent(_, _, _, _) => FinalizingOthers(c, s, e, x);
    case CleanupEvent(_) => FinalizingOthers(c, s, e, x);
    case TickEvent(_) =>
    case _ => RemovingOthers(c, s, e, x);
  }

  lemma UploadingOthers(c: Config, s: State, e: Event, x: S3Id)
    requires Core(c, s) && Enabled(s, e) && !Touches(s, e, x)
    requires e.InitEvent? || e.BeginChunkEvent? || e.FinishChunkEvent?
    ensures SameFor(s, Step(c, s, e), x)
  {
    match e
    case InitEvent(u, fileSize, totalChunks, live, lockFree, ids, create, order, calls, undo) =>
      InitOthers(c, s, u, fileSize, totalChunks, live, lockFree, ids, create, order, calls, undo, x);
    case BeginChunkEvent(u, id, chunkIndex, size, req) => BeginChunkOthers(c, s, u, id, chunkIndex, size, req, x);
    case FinishChunkEvent(req, put, late) => FinishChunkOthers(c, s, req, put, late, x);
  }

  lemma RemovingOthers(c: Config, s: State, e: Event, x: S3Id)
    requires Core(c, s) && Enabled(s, e) && !Touches(s, e, x)
    requires e.StartFinalizeEvent? || e.CancelEvent? || e.DeleteFileEvent? || e.AdminClearEvent? || e.SweepEvent?
    ensures SameFor(s, Step(c, s, e), x)
  {
    match e
    case StartFinalizeEvent(u, id, totalChunks, live, req) => StartFinalizeOthers(s, u, id, totalChunks, live, req, x);
    case CancelEvent(u, id, call) => CancelOthers(c, s, u, id, call, x);
    case DeleteFileEvent(file, call) => DeleteFileOthers(s, file, call, x);
    case AdminClearEvent(u, listed, stuck, calls) => ClearingOthers(c, s, u, listed, stuck, calls, x);
    case SweepEvent(listing, env) => UnlistedUntouched(c, s, listing, env, x);
  }

  lemma StartFinalizeOthers(s: State, u: UserId, id: UploadId, totalChunks: int, live: bool, req: RequestId, x: S3Id)
    ensures SameFor(s, StartFinalize(s, u, id, totalChunks, live, req).0, x)
  {
    SameTables(s, StartFinalize(s, u, id, totalChunks, live, req).0, x);
  }

  lemma DeleteFileOthers(s: State, file: FileId, call: Call, x: S3Id)
    ensures SameFor(s, DeleteFile(s, file, call), x)
  {
    SameTables(s, DeleteFile(s, file, call), x);
  }

  lemma FinalizingOthers(c: Config, s: State, e: Event, x: S3Id)
    requires Core(c, s) && Enabled(s, e) && !Touches(s, e, x)
    requires e.CompleteEvent? || e.HeadEvent? || e.CommitEvent? || e.CleanupEvent?
    ensures SameFor(s, Step(c, s, e), x)
  {
    FinalizingName(c, s, e.req, x);
    match e
    case CompleteEvent(req, complete, cleanup) => CompleteOthers(s, req, complete, cleanup, x);
    case HeadEvent(req, head, cleanup) => HeadOthers(s, req, head, cleanup, x);
    case CommitEvent(req, file, dbOk, cleanup) => CommitOthers(c, s, req, file, dbOk, cleanup, x);
    case CleanupEvent(req) => CleanupOthers(s, req, x);
  }

  /** In every run, every step leaves every upload untouched that it is not about. */
  lemma RunsAreIsolated(c: Config, events: seq<Event>, states: seq<State>, n: nat, x: S3Id)
    requires IsRun(c, events, states) && n < |events| && !Touches(states[n], events[n], x)
    ensures SameFor(states[n], states[n + 1], x)
  {
    RunKeepsCore(c, events, states, n);
    OthersUntouched(c, states[n], events[n], x);
  }
}
