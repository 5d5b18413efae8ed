/** The guarantees of the upload protocol over whole runs: what metadata can be trusted for, the quota, and the sweep. */
module UploadGuarantees {
  import opened FileFormat
  import opened UploadProtocol
  import opened UploadSafety
  import opened UploadSteps
  import opened ActiveUploads

  // ------------------------------------------- uploads completed meanwhile

  /** A finalize request is past Complete and will forget this upload. */
  ghost predicate Completing(s: State, x: S3Id) {
    exists q :: q in s.finalizing && !s.finalizing[q].phase.Started? && s.finalizing[q].meta.s3UploadId == x
  }

  /** Metadata outlives its completed upload only while a finalize request is at work on it. */
  ghost predicate CompletedOk(s: State) {
    forall k :: k in s.metas && s.metas[k].meta.s3UploadId in s.completed ==> Completing(s, s.metas[k].meta.s3UploadId)
  }

  /** No metadata was added for a completed upload and no request past Complete has gone. */
  ghost predicate NoneFinished(s: State, t: State) {
    && t.completed == s.completed
    && (forall k :: k in t.metas ==>
          || t.metas[k].meta.s3UploadId !in t.completed
          || (k in s.metas && s.metas[k].meta.s3UploadId == t.metas[k].meta.s3UploadId))
    && (forall q :: q in s.finalizing && !s.finalizing[q].phase.Started? ==>
          q in t.finalizing && !t.finalizing[q].phase.Started? && t.finalizing[q].meta.s3UploadId == s.finalizing[q].meta.s3UploadId)
  }

  lemma NoneFinishedKeeps(s: State, t: State)
    requires CompletedOk(s) && NoneFinished(s, t)
    ensures CompletedOk(t)
  {
    forall k | k in t.metas && t.metas[k].meta.s3UploadId in t.completed
      ensures Completing(t, t.metas[k].meta.s3UploadId)
    {
      var x := t.metas[k].meta.s3UploadId;
      assert Completing(s, x);
      var q :| q in s.finalizing && !s.finalizing[q].phase.Started? && s.finalizing[q].meta.s3UploadId == x;
      assert q in t.finalizing && !t.finalizing[q].phase.Started?;
    }
  }

  /** A request that ends takes the metadata of its upload along. */
  lemma FinishedWithMeta(s: State, t: State, req: RequestId)
    requires AllMetas(s) && AllFinalizing(s) && CompletedOk(s) && req in s.finalizing
    requires t.completed <= s.completed + {s.finalizing[req].meta.s3UploadId} && t.finalizing == s.finalizing - {req}
    requires t.metas == s.metas - {(s.finalizing[req].user, s.finalizing[req].uploadId)}
    ensures CompletedOk(t)
  {
    var r := s.finalizing[req];
    FinalizingHome(s, req);
    ForgottenUpload(s, r.user, r.uploadId, r.meta.s3UploadId);
    forall k | k in t.metas && t.metas[k].meta.s3UploadId in t.completed
      ensures Completing(t, t.metas[k].meta.s3UploadId)
    {
      var x := t.metas[k].meta.s3UploadId;
      assert Completing(s, x);
      var q :| q in s.finalizing && !s.finalizing[q].phase.Started? && s.finalizing[q].meta.s3UploadId == x;
      assert q in t.finalizing;
    }
  }

  /** The fields that neither Forget nor Abort touches. */
  ghost predicate SameRest(s: State, t: State) {
    && t.now == s.now && t.rows == s.rows && t.chunking == s.chunking && t.finalizing == s.finalizing
    && t.uploads == s.uploads && t.completed == s.completed
  }

  lemma ForgetFields(s: State, u: UserId, id: UploadId, s3: S3Id)
    ensures var t := Forget(s, u, id, s3);
            && SameRest(s, t) && t.metas == s.metas - {(u, id)} && t.index == s.index - {s3}
            && t.open == s.open && t.lost == s.lost && t.objects == s.objects
  {
  }

  lemma AbortFields(s: State, s3: S3Id, call: Call)
    ensures var t := Abort(s, s3, call);
            && SameRest(s, t) && t.metas == s.metas && t.index == s.index && t.active == s.active && t.objects == s.objects
  {
  }

  lemma FailFinalizeFields(s: State, req: RequestId, cleanup: Call)
    requires req in s.finalizing
    ensures var t := FailFinalize(s, req, cleanup);
            var r := s.finalizing[req];
            && t.completed == s.completed && t.rows == s.rows && t.finalizing == s.finalizing - {req}
            && t.metas == s.metas - {(r.user, r.uploadId)}
  {
    var r := s.finalizing[req];
    var rest := s.(finalizing := s.finalizing - {req});
    ForgetFields(rest, r.user, r.uploadId, r.meta.s3UploadId);
    AbortFields(Forget(rest, r.user, r.uploadId, r.meta.s3UploadId), r.meta.s3UploadId, cleanup);
  }

  lemma FailFinalizeKeepsCompleted(s: State, req: RequestId, cleanup: Call)
    requires AllMetas(s) && AllFinalizing(s) && CompletedOk(s) && req in s.finalizing
    ensures CompletedOk(FailFinalize(s, req, cleanup))
  {
    FailFinalizeFields(s, req, cleanup);
    FinishedWithMeta(s, FailFinalize(s, req, cleanup), req);
  }

  /** Its own upload is now one a request is past Complete on. */
  lemma AssembledKeepsCompleted(s: State, t: State, req: RequestId)
    requires CompletedOk(s) && req in s.finalizing && s.finalizing[req].phase.Started?
    requires t.metas == s.metas && t.completed == s.completed + {s.finalizing[req].meta.s3UploadId}
    requires t.finalizing == s.finalizing[req := s.finalizing[req].(phase := Assembled)]
    ensures CompletedOk(t)
  {
    forall k | k in t.metas && t.metas[k].meta.s3UploadId in t.completed
      ensures Completing(t, t.metas[k].meta.s3UploadId)
    {
      var y := t.metas[k].meta.s3UploadId;
      if y != s.finalizing[req].meta.s3UploadId {
        assert Completing(s, y);
        var q :| q in s.finalizing && !s.finalizing[q].phase.Started? && s.finalizing[q].meta.s3UploadId == y;
        assert q in t.finalizing && t.finalizing[q] == s.finalizing[q];
      } else {
        assert t.finalizing[req].meta.s3UploadId == y;
      }
    }
  }

  lemma CompleteKeepsCompleted(s: State, req: RequestId, complete: Call, cleanup: Call)
    requires AllMetas(s) && AllFinalizing(s) && CompletedOk(s) && req in s.finalizing && s.finalizing[req].phase.Started?
    ensures CompletedOk(CompleteStep(s, req, complete, cleanup))
  {
    var r := s.finalizing[req];
    var x := r.meta.s3UploadId;
    FailFinalizeKeepsCompleted(s, req, cleanup);
    if x in s.open && HasParts(s.open[x].parts, |r.meta.parts|) {
      var assembled := Assemble(s, x, |r.meta.parts|);
      FailFinalizeFields(assembled, req, cleanup);
      FinishedWithMeta(s, FailFinalize(assembled, req, cleanup), req);
      AssembledKeepsCompleted(s, Advance(assembled, req, Assembled), req);
    }
  }

  lemma {:induction false} EvictAllFinishesNone(s: State, u: UserId, victims: seq<Candidate>, calls: S3Id -> Call)
    ensures var t := EvictAll(s, u, victims, calls).0;
            t.completed == s.completed && t.finalizing == s.finalizing && t.chunking == s.chunking
    decreases |victims|
  {
    if victims != [] {
      var v := victims[0];
      var x := v.meta.s3UploadId;
      if AbortSucceeds(s, x, calls(x)) {
        EvictAllFinishesNone(Drop(s, u, v.uploadId, x, calls(x)), u, victims[1..], calls);
      }
    }
  }

  lemma MakeRoomFinishesNone(c: Config, s: State, u: UserId, order: seq<UploadId>, calls: S3Id -> Call)
    ensures var t := MakeRoom(c, s, u, order, calls).0;
            t.completed == s.completed && t.finalizing == s.finalizing && t.rows == s.rows && SubMap(t.metas, s.metas)
  {
    EvictAllKeepsUploads(DropStale(s, u), u, Victims(c, s, u, order), calls);
    EvictAllFinishesNone(DropStale(s, u), u, Victims(c, s, u, order), calls);
    EvictAllMetas(DropStale(s, u), u, Victims(c, s, u, order), calls);
  }

  /** What an initialisation leaves: requests as they were, and at most one new metadata record, of the new upload. */
  lemma InitFields(c: Config, s: State, u: UserId, fileSize: nat, totalChunks: int, live: bool, lockFree: bool, ids: FreshIds,
                   create: Call, order: seq<UploadId>, calls: S3Id -> Call, undo: Call)
    ensures var t := Init(c, s, u, fileSize, totalChunks, live, lockFree, ids, create, order, calls, undo).0;
            && t.completed == s.completed && t.finalizing == s.finalizing
            && forall k :: k in t.metas ==> t.metas[k].meta.s3UploadId == ids.s3 || (k in s.metas && t.metas[k] == s.metas[k])
  {
    var tracked := Track(Create(s, u, fileSize, ids), u, fileSize, ids);
    InitCases(c, s, u, fileSize, totalChunks, live, lockFree, ids, create, order, calls, undo);
    MakeRoomFinishesNone(c, tracked, u, order, calls);
    var room := MakeRoom(c, tracked, u, order, calls).0;
    ForgetFields(room, u, ids.uploadId, ids.s3);
    AbortFields(Forget(room, u, ids.uploadId, ids.s3), ids.s3, undo);
  }

  /** The five ways an initialisation can end. */
  lemma InitCases(c: Config, s: State, u: UserId, fileSize: nat, totalChunks: int, live: bool, lockFree: bool, ids: FreshIds,
                  create: Call, order: seq<UploadId>, calls: S3Id -> Call, undo: Call)
    ensures var t := Init(c, s, u, fileSize, totalChunks, live, lockFree, ids, create, order, calls, undo);
            var created := Create(s, u, fileSize, ids);
            var room := MakeRoom(c, Track(created, u, fileSize, ids), u, order, calls);
            || t == (s, Rejected)
            || t == (created, Rejected)
            || (room.1 && t == (Reserve(room.0, u, ids.uploadId), Accepted))
            || (!room.1 && t == (Abort(Forget(room.0, u, ids.uploadId, ids.s3), ids.s3, undo), Rejected))
  {
  }

  lemma InitKeepsCompleted(c: Config, s: State, u: UserId, fileSize: nat, totalChunks: int, live: bool, lockFree: bool, ids: FreshIds,
                           create: Call, order: seq<UploadId>, calls: S3Id -> Call, undo: Call)
    requires HistoryOk(s) && CompletedOk(s) && FreshFor(s, ids)
    ensures CompletedOk(Init(c, s, u, fileSize, totalChunks, live, lockFree, ids, create, order, calls, undo).0)
  {
    InitFields(c, s, u, fileSize, totalChunks, live, lockFree, ids, create, order, calls, undo);
    NoneFinishedKeeps(s, Init(c, s, u, fileSize, totalChunks, live, lockFree, ids, create, order, calls, undo).0);
  }

  lemma {:induction false} ClearMetasFinishesNone(s: State, u: UserId, ids: seq<UploadId>, calls: S3Id -> Call)
    ensures var t := ClearMetas(s, u, ids, calls);
            t.completed == s.completed && t.finalizing == s.finalizing
    decreases |ids|
  {
    if ids != [] {
      ClearMetasFinishesNone(ClearMeta(s, u, ids[0], calls), u, ids[1..], calls);
    }
  }

  lemma AdminClearKeepsCompleted(s: State, u: UserId, ids: seq<UploadId>, stuck: set<StorageKey>, calls: S3Id -> Call)
    requires CompletedOk(s)
    ensures CompletedOk(AdminClear(s, u, ids, stuck, calls))
  {
    var keys := ObjectsOf(s.rows, OwnedBy(u)) - stuck;
    var emptied := s.(rows := RowsWithout(s.rows, OwnedBy(u)), objects := s.objects - keys);
    ClearMetasFinishesNone(emptied, u, ids, calls);
    ClearMetasKeepsRest(emptied, u, ids, calls);
    NoneFinishedKeeps(s, AdminClear(s, u, ids, stuck, calls));
  }

  /** An update that touches no finalize request and adds no metadata. */
  lemma ShrinkKeepsCompleted(s: State, t: State)
    requires CompletedOk(s) && t.completed == s.completed && t.finalizing == s.finalizing && SubMap(t.metas, s.metas)
    ensures CompletedOk(t)
  {
    NoneFinishedKeeps(s, t);
  }

  lemma SweepOneFields(s: State, x: S3Id, env: SweepEnv)
    ensures var t := SweepOne(s, x, env);
            t.completed == s.completed && t.finalizing == s.finalizing && SubMap(t.metas, s.metas) && t.rows == s.rows
  {
    if x in s.index {
      ForgetFields(s, s.index[x].user, s.index[x].uploadId, x);
    }
    AbortFields(RemoveTracked(s, x), x, Acked);
    AbortFields(s, x, Unheard);
  }

  lemma {:induction false} SweepKeepsCompleted(s: State, listed: seq<S3Id>, env: SweepEnv)
    requires CompletedOk(s)
    ensures CompletedOk(SweepAll(s, listed, env))
    decreases |listed|
  {
    if listed != [] {
      SweepOneFields(s, listed[0], env);
      ShrinkKeepsCompleted(s, SweepOne(s, listed[0], env));
      SweepKeepsCompleted(SweepOne(s, listed[0], env), listed[1..], env);
    }
  }

  lemma RefreshKeepsCompleted(s: State, u: UserId, id: UploadId, meta: UploadMeta)
    requires CompletedOk(s) && (u, id) in s.metas && meta.s3UploadId == s.metas[(u, id)].meta.s3UploadId
    ensures CompletedOk(Refresh(s, u, id, meta))
  {
    NoneFinishedKeeps(s, Refresh(s, u, id, meta));
  }

  lemma BeginChunkKeepsCompleted(s: State, u: UserId, id: UploadId, chunkIndex: int, size: int, req: RequestId)
    requires CompletedOk(s)
    ensures CompletedOk(BeginChunk(s, u, id, chunkIndex, size, req).0)
  {
    if BeginChunk(s, u, id, chunkIndex, size, req).1.Accepted? {
      var refreshed := Refresh(s, u, id, s.metas[(u, id)].meta.(updatedAt := s.now));
      RefreshKeepsCompleted(s, u, id, s.metas[(u, id)].meta.(updatedAt := s.now));
      ShrinkKeepsCompleted(refreshed, BeginChunk(s, u, id, chunkIndex, size, req).0);
    }
  }

  lemma FinishChunkKeepsCompleted(s: State, req: RequestId, put: Call, late: Call)
    requires AllChunking(s) && CompletedOk(s) && req in s.chunking
    ensures CompletedOk(FinishChunk(s, req, put, late).0)
  {
    var r := s.chunking[req];
    OnlyRequestOf(s, req);
    FinishChunkCases(s, req, put, late);
    ShrinkKeepsCompleted(s, s.(chunking := s.chunking - {req}));
    if r.meta.s3UploadId in s.open {
      var stored := AfterPart(s, req);
      ShrinkKeepsCompleted(s, stored);
      if (r.user, r.uploadId) in stored.metas {
        var n := r.meta.nextExpectedChunk + 1;
        RefreshKeepsCompleted(stored, r.user, r.uploadId,
                              r.meta.(parts := r.meta.parts + [n], nextExpectedChunk := n, updatedAt := stored.now));
      } else {
        ShrinkKeepsCompleted(stored, Abort(stored, r.meta.s3UploadId, late));
      }
    }
  }

  lemma LaterStepsKeepCompleted(c: Config, s: State, req: RequestId, head: Call, id: FileId, dbOk: bool, cleanup: Call)
    requires AllMetas(s) && AllFinalizing(s) && CompletedOk(s) && req in s.finalizing
    ensures CompletedOk(HeadStep(s, req, head, cleanup))
    ensures CompletedOk(CommitStep(c, s, req, id, dbOk, cleanup))
    ensures CompletedOk(CleanupStep(s, req))
  {
    FailFinalizeKeepsCompleted(s, req, cleanup);
    NoneFinishedKeeps(s, Advance(s, req, Checked));
    NoneFinishedKeeps(s, Advance(s.(rows := s.rows + [NewRow(s, req, id)]), req, Recorded));
    FinishedWithMeta(s, CleanupStep(s, req), req);
  }

  lemma DropFields(s: State, u: UserId, id: UploadId, s3: S3Id, call: Call)
    ensures var t := Drop(s, u, id, s3, call);
            t.completed == s.completed && t.finalizing == s.finalizing && SubMap(t.metas, s.metas) && t.rows == s.rows
  {
    ForgetFields(s, u, id, s3);
    AbortFields(Forget(s, u, id, s3), s3, call);
    AbortFields(s, s3, call);
  }

  lemma CancelFields(s: State, u: UserId, id: UploadId, call: Call)
    ensures var t := Cancel(s, u, id, call);
            t.completed == s.completed && t.finalizing == s.finalizing && SubMap(t.metas, s.metas) && t.rows == s.rows
  {
    if (u, id) in s.metas {
      DropFields(s, u, id, s.metas[(u, id)].meta.s3UploadId, call);
    }
  }

  lemma StartFinalizeKeepsCompleted(s: State, u: UserId, id: UploadId, totalChunks: int, live: bool, req: RequestId)
    requires CompletedOk(s) && req !in s.finalizing
    ensures CompletedOk(StartFinalize(s, u, id, totalChunks, live, req).0)
  {
    NoneFinishedKeeps(s, StartFinalize(s, u, id, totalChunks, live, req).0);
  }

  lemma StepKeepsCompleted(c: Config, s: State, e: Event)
    requires Core(c, s) && CompletedOk(s) && Enabled(s, e)
    ensures CompletedOk(Step(c, s, e))
  {
    match e
    case InitEvent(u, fileSize, totalChunks, live, lockFree, ids, create, order, calls, undo) =>
      InitKeepsCompleted(c, s, u, fileSize, totalChunks, live, lockFree, ids, create, order, calls, undo);
    case BeginChunkEvent(u, id, chunkIndex, size, req) => BeginChunkKeepsCompleted(s, u, id, chunkIndex, size, req);
    case FinishChunkEvent(req, put, late) => FinishChunkKeepsCompleted(s, req, put, late);
    case StartFinalizeEvent(u, id, totalChunks, live, req) => StartFinalizeKeepsCompleted(s, u, id, totalChunks, live, req);
    case CompleteEvent(req, complete, cleanup) => CompleteKeepsCompleted(s, req, complete, cleanup);
    case HeadEvent(req, head, cleanup) => LaterStepsKeepCompleted(c, s, req, head, 0, true, cleanup);
    case CommitEvent(req, file, dbOk, cleanup) => LaterStepsKeepCompleted(c, s, req, Acked, file, dbOk, cleanup);
    case CleanupEvent(req) => LaterStepsKeepCompleted(c, s, req, Acked, 0, true, Acked);
    case CancelEvent(u, id, call) =>
      CancelFields(s, u, id, call);
      ShrinkKeepsCompleted(s, Cancel(s, u, id, call));
    case DeleteFileEvent(file, call) => ShrinkKeepsCompleted(s, DeleteFile(s, file, call));
    case AdminClearEvent(u, listed, stuck, calls) => AdminClearKeepsCompleted(s, u, listed, stuck, calls);
    case SweepEvent(listing, env) => SweepKeepsCompleted(s, listing, env);
    case TickEvent(dt) => ShrinkKeepsCompleted(s, Tick(s, dt));
  }

  lemma {:induction false} RunKeepsCompleted(c: Config, events: seq<Event>, states: seq<State>, i: nat)
    requires IsRun(c, events, states) && i <= |events|
    ensures CompletedOk(states[i])
  {
    if i > 0 {
      RunKeepsCompleted(c, events, states, i - 1);
      RunKeepsCore(c, events, states, i - 1);
      StepKeepsCompleted(c, states[i - 1], events[i - 1]);
    }
  }

  // --------------------------------------------------- trusting the metadata

  /**
   In every state of every run, the metadata of an upload has its reverse index, which points back to it; its parts
   are 1..nextExpectedChunk; its multipart upload is open unless a finalize request is past Complete on it or the
   reply to an abort was lost; and while it is open, S3 holds each of those parts in its scheduled length.
   */
  lemma MetadataIsBacked(c: Config, events: seq<Event>, states: seq<State>, i: nat, u: UserId, id: UploadId)
    requires IsRun(c, events, states) && i <= |events| && (u, id) in states[i].metas
    ensures var s := states[i];
            var meta := s.metas[(u, id)].meta;
            var x := meta.s3UploadId;
            && x in s.index && s.index[x].user == u && s.index[x].uploadId == id
            && meta.parts == PartNumbers(meta.nextExpectedChunk) && meta.nextExpectedChunk <= meta.totalChunks == ChunkCount(meta.fileSize)
            && (x in s.open <==> !Completing(s, x) && x !in s.lost)
            && (x in s.open ==> forall p :: p in meta.parts ==>
                  && p in s.open[x].parts
                  && s.open[x].parts[p].size == ScheduledChunkSize(meta.fileSize, meta.totalChunks, p - 1))
  {
    var s := states[i];
    var meta := s.metas[(u, id)].meta;
    var x := meta.s3UploadId;
    RunKeepsCore(c, events, states, i);
    RunKeepsCompleted(c, events, states, i);
    assert MetaOk(s, (u, id));
    if Completing(s, x) {
      var q :| q in s.finalizing && !s.finalizing[q].phase.Started? && s.finalizing[q].meta.s3UploadId == x;
      assert FinalizingOk(s, q);
    }
    if x in s.open {
      assert OpenOk(s, x);
      forall p | p in meta.parts
        ensures p in s.open[x].parts && s.open[x].parts[p].size == ScheduledChunkSize(meta.fileSize, meta.totalChunks, p - 1)
      {
        var j :| 0 <= j < |meta.parts| && meta.parts[j] == p;
        assert HasParts(s.open[x].parts, meta.nextExpectedChunk);
        assert PartOk(s.uploads[x].fileSize, p, s.open[x].parts[p]);
      }
    }
  }

  // ----------------------------------------------------------------- quota

  lemma {:induction false} UsageAppend(rows: seq<FileRow>, row: FileRow, u: UserId)
    ensures Usage(rows + [row], u) == Usage(rows, u) + if row.owner == u then row.size else 0
  {
    if rows == [] {
      assert rows + [row] == [row];
    } else {
      UsageAppend(rows[1..], row, u);
      assert (rows + [row])[1..] == rows[1..] + [row];
    }
  }

  lemma {:induction false} UsageShrinks(rows: seq<FileRow>, gone: FileRow -> bool, u: UserId)
    ensures Usage(RowsWithout(rows, gone), u) <= Usage(rows, u)
  {
    if rows != [] {
      UsageShrinks(rows[1..], gone, u);
      if !gone(rows[0]) {
        assert ([rows[0]] + RowsWithout(rows[1..], gone))[1..] == RowsWithout(rows[1..], gone);
      } else {
        assert [] + RowsWithout(rows[1..], gone) == RowsWithout(rows[1..], gone);
      }
    }
  }

  lemma {:induction false} ClearMetasKeepsRows(s: State, u: UserId, ids: seq<UploadId>, calls: S3Id -> Call)
    ensures ClearMetas(s, u, ids, calls).rows == s.rows
    decreases |ids|
  {
    if ids != [] {
      ClearMetasKeepsRows(ClearMeta(s, u, ids[0], calls), u, ids[1..], calls);
    }
  }

  lemma {:induction false} SweepKeepsRows(s: State, listed: seq<S3Id>, env: SweepEnv)
    ensures SweepAll(s, listed, env).rows == s.rows
    decreases |listed|
  {
    if listed != [] {
      SweepKeepsRows(SweepOne(s, listed[0], env), listed[1..], env);
    }
  }

  lemma InitKeepsRows(c: Config, s: State, u: UserId, fileSize: nat, totalChunks: int, live: bool, lockFree: bool, ids: FreshIds,
                      create: Call, order: seq<UploadId>, calls: S3Id -> Call, undo: Call)
    ensures Init(c, s, u, fileSize, totalChunks, live, lockFree, ids, create, order, calls, undo).0.rows == s.rows
  {
    var tracked := Track(Create(s, u, fileSize, ids), u, fileSize, ids);
    InitCases(c, s, u, fileSize, totalChunks, live, lockFree, ids, create, order, calls, undo);
    MakeRoomFinishesNone(c, tracked, u, order, calls);
    var room := MakeRoom(c, tracked, u, order, calls).0;
    ForgetFields(room, u, ids.uploadId, ids.s3);
    AbortFields(Forget(room, u, ids.uploadId, ids.s3), ids.s3, undo);
  }

  lemma ChunkKeepsRows(s: State, req: RequestId, put: Call, late: Call)
    requires req in s.chunking
    ensures FinishChunk(s, req, put, late).0.rows == s.rows
  {
    FinishChunkCases(s, req, put, late);
  }

  lemma CompleteKeepsRows(s: State, req: RequestId, complete: Call, cleanup: Call)
    requires req in s.finalizing
    ensures CompleteStep(s, req, complete, cleanup).rows == s.rows
  {
    FailFinalizeFields(s, req, cleanup);
    var r := s.finalizing[req];
    var x := r.meta.s3UploadId;
    if x in s.open && HasParts(s.open[x].parts, |r.meta.parts|) {
      FailFinalizeFields(Assemble(s, x, |r.meta.parts|), req, cleanup);
    }
  }

  lemma HeadKeepsRows(s: State, req: RequestId, head: Call, cleanup: Call)
    requires req in s.finalizing
    ensures HeadStep(s, req, head, cleanup).rows == s.rows
  {
    FailFinalizeFields(s, req, cleanup);
  }

  lemma CleanupKeepsRows(s: State, req: RequestId)
    requires req in s.finalizing
    ensures CleanupStep(s, req).rows == s.rows
  {
    var r := s.finalizing[req];
    ForgetFields(s.(finalizing := s.finalizing - {req}), r.user, r.uploadId, r.meta.s3UploadId);
  }

  lemma CommitAddsOwnRow(c: Config, s: State, req: RequestId, id: FileId, dbOk: bool, cleanup: Call)
    requires req in s.finalizing
    ensures var t := CommitStep(c, s, req, id, dbOk, cleanup);
            if dbOk && RecordAllowed(c, s, s.finalizing[req].user, s.finalizing[req].meta.fileSize)
            then t.rows == s.rows + [NewRow(s, req, id)] && req in t.finalizing && t.finalizing[req].phase.Recorded?
            else t.rows == s.rows && req !in t.finalizing
  {
    FailFinalizeFields(s, req, cleanup);
  }

  /**
   Rows only change by deletion and by the transaction of a finalize request, which adds exactly its own row, and
   only within the limits. A finalize request that fails, at whichever step, adds none.
   */
  lemma RowsComeFromCommits(c: Config, s: State, e: Event)
    requires Enabled(s, e)
    ensures var t := Step(c, s, e);
            match e
            case CommitEvent(req, file, dbOk, _) =>
              if dbOk && RecordAllowed(c, s, s.finalizing[req].user, s.finalizing[req].meta.fileSize)
              then t.rows == s.rows + [NewRow(s, req, file)] && req in t.finalizing && t.finalizing[req].phase.Recorded?
              else t.rows == s.rows && req !in t.finalizing
            case DeleteFileEvent(file, _) => t.rows == RowsWithout(s.rows, HasId(file))
            case AdminClearEvent(u, _, _, _) => t.rows == RowsWithout(s.rows, OwnedBy(u))
            case _ => t.rows == s.rows
  {
    match e
    case InitEvent(u, fileSize, totalChunks, live, lockFree, ids, create, order, calls, undo) =>
      InitKeepsRows(c, s, u, fileSize, totalChunks, live, lockFree, ids, create, order, calls, undo);
    case FinishChunkEvent(req, put, late) => ChunkKeepsRows(s, req, put, late);
    case CompleteEvent(req, complete, cleanup) => CompleteKeepsRows(s, req, complete, cleanup);
    case HeadEvent(req, head, cleanup) => HeadKeepsRows(s, req, head, cleanup);
    case CommitEvent(req, file, dbOk, cleanup) => CommitAddsOwnRow(c, s, req, file, dbOk, cleanup);
    case CleanupEvent(req) => CleanupKeepsRows(s, req);
    case CancelEvent(u, id, call) => CancelFields(s, u, id, call);
    case AdminClearEvent(u, listed, stuck, calls) =>
      var keys := ObjectsOf(s.rows, OwnedBy(u)) - stuck;
      ClearMetasKeepsRows(s.(rows := RowsWithout(s.rows, OwnedBy(u)), objects := s.objects - keys), u, listed, calls);
    case SweepEvent(listing, env) => SweepKeepsRows(s, listing, env);
    case BeginChunkEvent(_, _, _, _, _) =>
    case StartFinalizeEvent(_, _, _, _, _) =>
    case DeleteFileEvent(_, _) =>
    case TickEvent(_) =>
  }

  ghost predicate QuotaOk(c: Config, s: State) {
    forall u :: Usage(s.rows, u) <= QuotaLimit(c, u)
  }

  lemma StepKeepsQuota(c: Config, s: State, e: Event)
    requires QuotaOk(c, s) && Enabled(s, e)
    ensures QuotaOk(c, Step(c, s, e))
  {
    RowsComeFromCommits(c, s, e);
    forall u
      ensures Usage(Step(c, s, e).rows, u) <= QuotaLimit(c, u)
    {
      match e
      case CommitEvent(req, file, _, _) => UsageAppend(s.rows, NewRow(s, req, file), u);
      case DeleteFileEvent(file, _) => UsageShrinks(s.rows, HasId(file), u);
      case AdminClearEvent(v, _, _, _) => UsageShrinks(s.rows, OwnedBy(v), u);
      case _ =>
    }
  }

  /**
   In every state of every run: no user's recorded bytes exceed the quota, and every row comes from its own completed
   multipart upload, owned by the row's owner, whose object still has exactly the expected encrypted size.
   */
  lemma {:induction false} RecordedFilesAreGenuine(c: Config, events: seq<Event>, states: seq<State>, i: nat)
    requires IsRun(c, events, states) && i <= |events|
    ensures QuotaOk(c, states[i])
    ensures forall row :: row in states[i].rows ==> RowOk(states[i], row)
    ensures forall j, k :: 0 <= j < k < |states[i].rows| ==> states[i].rows[j].from != states[i].rows[k].from
  {
    RunKeepsCore(c, events, states, i);
    if i > 0 {
      RecordedFilesAreGenuine(c, events, states, i - 1);
      StepKeepsQuota(c, states[i - 1], events[i - 1]);
    }
  }

  /** In no run can the size check after Complete fail, nor Complete find a part missing. */
  lemma FinalizeChecksNeverFail(c: Config, events: seq<Event>, states: seq<State>, i: nat, req: RequestId)
    requires IsRun(c, events, states) && i <= |events| && req in states[i].finalizing
    ensures var s := states[i];
            var r := s.finalizing[req];
            && (r.phase.Assembled? ==> SizeConfirmed(s, r.meta))
            && (r.phase.Started? && r.meta.s3UploadId in s.open ==> HasParts(s.open[r.meta.s3UploadId].parts, |r.meta.parts|))
  {
    RunKeepsCore(c, events, states, i);
    assert FinalizingOk(states[i], req);
  }

  /**
   An accepted initialisation leaves the new upload active within the cap, tracked and open. If the active set was
   full, every evicted upload has lost its metadata, its index and its multipart upload, and none that stayed is older
   than an evicted one.
   */
  lemma AcceptedInit(c: Config, s: State, u: UserId, fileSize: nat, totalChunks: int, live: bool, lockFree: bool, ids: FreshIds,
                     create: Call, order: seq<UploadId>, calls: S3Id -> Call, undo: Call)
    requires c.cap >= 1 && Core(c, s) && ActiveOk(c, s) && 1 <= fileSize && FreshFor(s, ids) && Lists(order, Ids(s, u))
    requires Init(c, s, u, fileSize, totalChunks, live, lockFree, ids, create, order, calls, undo).1.Accepted?
    ensures var t := Init(c, s, u, fileSize, totalChunks, live, lockFree, ids, create, order, calls, undo).0;
            var victims := Victims(c, Track(Create(s, u, fileSize, ids), u, fileSize, ids), u, order);
            && |Ids(t, u)| <= c.cap && ids.uploadId in Ids(t, u)
            && (|order| >= c.cap ==>
                  forall v :: v in victims ==>
                    && v.uploadId in order
                    && v.uploadId !in Ids(t, u)
                    && (u, v.uploadId) !in t.metas
                    && v.meta.s3UploadId !in t.open && v.meta.s3UploadId !in t.index)
            && (|order| >= c.cap ==>
                  forall v, id :: v in victims && id in Ids(t, u) && id != ids.uploadId ==>
                    (u, id) in s.metas && v.meta.createdAt <= s.metas[(u, id)].meta.createdAt)
  {
    var tracked := Track(Create(s, u, fileSize, ids), u, fileSize, ids);
    var victims := Victims(c, tracked, u, order);
    var t := Init(c, s, u, fileSize, totalChunks, live, lockFree, ids, create, order, calls, undo).0;
    InitCases(c, s, u, fileSize, totalChunks, live, lockFree, ids, create, order, calls, undo);
    var room := MakeRoom(c, tracked, u, order, calls).0;
    assert t == Reserve(room, u, ids.uploadId);
    MakeRoomLeavesRoom(c, tracked, u, order, calls);
    NewIdNotListed(c, s, u, order, ids);
    CreateMetas(s, u, fileSize, ids);
    TrackMetas(Create(s, u, fileSize, ids), u, fileSize, ids, s);
    VictimsBelong(c, tracked, u, order);
    if |order| >= c.cap {
      forall v | v in victims
        ensures v.uploadId in order && v.uploadId !in Ids(t, u) && (u, v.uploadId) !in t.metas
        ensures v.meta.s3UploadId !in t.open && v.meta.s3UploadId !in t.index
      {
        VictimRemoved(DropStale(tracked, u), u, victims, v);
        assert Ids(t, u) == Ids(room, u) + {ids.uploadId};
      }
      forall v, id | v in victims && id in Ids(t, u) && id != ids.uploadId
        ensures (u, id) in s.metas && v.meta.createdAt <= s.metas[(u, id)].meta.createdAt
      {
        assert id in Ids(room, u);
        assert id in LiveIds(tracked, u);
      }
    }
  }

  lemma VictimRemoved(s: State, u: UserId, victims: seq<Candidate>, v: Candidate)
    requires v in victims
    ensures var t := WithoutVictims(s, u, victims);
            && v.uploadId !in Ids(t, u) && (u, v.uploadId) !in t.metas
            && v.meta.s3UploadId !in t.open && v.meta.s3UploadId !in t.index
  {
    assert v.uploadId in VictimIds(victims) && (u, v.uploadId) in VictimKeys(u, victims);
    assert v.meta.s3UploadId in VictimUploads(victims);
  }

  lemma NewIdNotListed(c: Config, s: State, u: UserId, order: seq<UploadId>, ids: FreshIds)
    requires ActiveOk(c, s) && FreshFor(s, ids) && Lists(order, Ids(s, u))
    ensures ids.uploadId !in order
  {
    if u in s.active {
      assert SetOk(c, s, u);
      forall id | id in s.active[u].ids
        ensures id != ids.uploadId
      {
        assert Issued(s, id);
      }
    }
  }

  // ----------------------------------------------------------------- sweep

  /** Upload x and everything that tracks it are the same in both states. */
  ghost predicate SameFor(s: State, t: State, x: S3Id) {
    (x in t.open <==> x in s.open) && (x in s.open ==> t.open[x] == s.open[x]) && SameTracking(s, t, x)
  }

  /** What tracks upload x is the same in both states. */
  ghost predicate SameTracking(s: State, t: State, x: S3Id) {
    && (x in t.index <==> x in s.index) && (x in s.index ==> t.index[x] == s.index[x])
    && (x in s.index ==>
          var k := (s.index[x].user, s.index[x].uploadId);
          && (k in t.metas <==> k in s.metas) && (k in s.metas ==> t.metas[k] == s.metas[k])
          && (k.1 in Ids(t, k.0) <==> k.1 in Ids(s, k.0)))
  }

  /** Upload x is closed, and still tracked as before. */
  ghost predicate ClosedUnheard(s: State, t: State, x: S3Id) {
    x !in t.open && SameTracking(s, t, x)
  }

  /** Upload x is aborted and nothing tracks it any more. */
  ghost predicate Gone(s: State, t: State, x: S3Id) {
    && x !in t.open && x !in t.index
    && (x in s.index ==> (s.index[x].user, s.index[x].uploadId) !in t.metas && s.index[x].uploadId !in Ids(t, s.index[x].user))
  }

  lemma SweepOneOthers(c: Config, s: State, y: S3Id, x: S3Id, env: SweepEnv)
    requires UploadsOk(c, s) && AllIndexes(s) && x != y
    ensures SameFor(s, SweepOne(s, y, env), x)
  {
    var removed := RemoveTracked(s, y);
    RemoveTrackedOthers(c, s, y, x);
    AbortOthers(removed, y, Acked, x);
    AbortOthers(s, y, Unheard, x);
    SameForGone(s, removed, Abort(removed, y, Acked), x);
  }

  lemma AbortOthers(s: State, y: S3Id, call: Call, x: S3Id)
    requires x != y
    ensures SameFor(s, Abort(s, y, call), x)
  {
  }

  lemma RemoveTrackedOthers(c: Config, s: State, y: S3Id, x: S3Id)
    requires UploadsOk(c, s) && AllIndexes(s) && x != y
    ensures SameFor(s, RemoveTracked(s, y), x)
  {
    if y in s.index {
      assert IndexOk(s, y);
      assert x in s.index ==> IndexOk(s, x);
      ForgetFields(s, s.index[y].user, s.index[y].uploadId, y);
    }
  }

  lemma SweptUnaffected(s: State, t: State, x: S3Id, env: SweepEnv)
    requires SameFor(s, t, x)
    ensures Swept(s, x, env) == Swept(t, x, env) && SweptUnheard(s, x, env) == SweptUnheard(t, x, env)
  {
  }

  lemma SameForGone(s: State, t: State, r: State, x: S3Id)
    requires SameFor(s, t, x)
    ensures Gone(t, r, x) ==> Gone(s, r, x)
    ensures SameFor(t, r, x) ==> SameFor(s, r, x)
  {
  }

  lemma {:induction false} UnlistedUntouched(c: Config, s: State, listed: seq<S3Id>, env: SweepEnv, x: S3Id)
    requires Core(c, s) && x !in listed
    ensures SameFor(s, SweepAll(s, listed, env), x)
    decreases |listed|
  {
    if listed != [] {
      SweepOneOthers(c, s, listed[0], x, env);
      SweepOneKeepsCore(c, s, listed[0], env);
      UnlistedUntouched(c, SweepOne(s, listed[0], env), listed[1..], env, x);
      SameForGone(s, SweepOne(s, listed[0], env), SweepAll(s, listed, env), x);
    }
  }

  lemma SweptIsGone(s: State, x: S3Id, env: SweepEnv)
    requires Swept(s, x, env)
    ensures Gone(s, SweepOne(s, x, env), x)
  {
  }

  lemma ForgetIds(s: State, u: UserId, id: UploadId, s3: S3Id, v: UserId, other: UploadId)
    ensures other in Ids(Forget(s, u, id, s3), v) ==> other in Ids(s, v)
  {
  }

  lemma GoneAfterForget(s: State, t: State, u: UserId, id: UploadId, y: S3Id, x: S3Id)
    requires Gone(s, t, x)
    ensures Gone(s, Forget(t, u, id, y), x)
  {
    ForgetFields(t, u, id, y);
    if x in s.index {
      ForgetIds(t, u, id, y, s.index[x].user, s.index[x].uploadId);
    }
  }

  lemma GoneAfterAbort(s: State, t: State, y: S3Id, call: Call, x: S3Id)
    requires Gone(s, t, x)
    ensures Gone(s, Abort(t, y, call), x)
  {
    AbortFields(t, y, call);
  }

  lemma GoneStaysOnce(s: State, t: State, y: S3Id, env: SweepEnv, x: S3Id)
    requires Gone(s, t, x)
    ensures Gone(s, SweepOne(t, y, env), x)
  {
    if Swept(t, y, env) {
      if y in t.index {
        GoneAfterForget(s, t, t.index[y].user, t.index[y].uploadId, y, x);
      }
      GoneAfterAbort(s, RemoveTracked(t, y), y, Acked, x);
    } else {
      GoneAfterAbort(s, t, y, Unheard, x);
    }
  }

  /** Once gone, an upload is not brought back by the rest of the sweep. */
  lemma {:induction false} GoneStays(s: State, t: State, listed: seq<S3Id>, env: SweepEnv, x: S3Id)
    requires Gone(s, t, x)
    ensures Gone(s, SweepAll(t, listed, env), x)
    decreases |listed|
  {
    if listed != [] {
      GoneStaysOnce(s, t, listed[0], env, x);
      GoneStays(s, SweepOne(t, listed[0], env), listed[1..], env, x);
    }
  }

  /**
   The sweep, upload by upload: a listed upload that is idle and whose abort is acknowledged is gone with everything
   that tracks it; one that is not idle, could not be inspected or whose abort was refused is untouched; if the reply to
   the abort is lost, it is closed and stays tracked. The order of the listing and the aborts on the way make no difference.
   */
  lemma {:induction false} SweepEffect(c: Config, s: State, listed: seq<S3Id>, env: SweepEnv, x: S3Id)
    requires Core(c, s) && x in listed
    requires forall i, j :: 0 <= i < j < |listed| ==> listed[i] != listed[j]
    ensures var t := SweepAll(s, listed, env);
            && (Swept(s, x, env) ==> Gone(s, t, x))
            && (SweptUnheard(s, x, env) ==> ClosedUnheard(s, t, x))
            && (!Swept(s, x, env) && !SweptUnheard(s, x, env) ==> SameFor(s, t, x))
    decreases |listed|
  {
    var y, rest := listed[0], listed[1..];
    var next := SweepOne(s, y, env);
    assert listed == [y] + rest;
    SweepOneKeepsCore(c, s, y, env);
    if x == y {
      if Swept(s, x, env) {
        SweptIsGone(s, x, env);
        GoneStays(s, next, rest, env, x);
      } else {
        UnlistedUntouched(c, next, rest, env, x);
        if SweptUnheard(s, x, env) {
          UnheardIsClosed(s, x, env);
        }
        ClosedUnheardStays(s, next, SweepAll(next, rest, env), x);
      }
    } else {
      SweepOneOthers(c, s, y, x, env);
      SweptUnaffected(s, next, x, env);
      SweepEffect(c, next, rest, env, x);
      SameForGone(s, next, SweepAll(s, listed, env), x);
      ClosedUnheardStays(s, next, SweepAll(s, listed, env), x);
    }
  }

  lemma UnheardIsClosed(s: State, x: S3Id, env: SweepEnv)
    requires SweptUnheard(s, x, env)
    ensures ClosedUnheard(s, SweepOne(s, x, env), x)
  {
  }

  lemma ClosedUnheardStays(s: State, next: State, t: State, x: S3Id)
    ensures SameFor(s, next, x) && ClosedUnheard(next, t, x) ==> ClosedUnheard(s, t, x)
    ensures ClosedUnheard(s, next, x) && SameFor(next, t, x) ==> ClosedUnheard(s, t, x)
  {
  }

  /**
   The upload was in use after the cutoff: a tracked one by its metadata, one that nothing tracks any more by what storage
   knows of it, or it could not be inspected.
   */
  ghost predicate IsRecent(s: State, x: S3Id, env: SweepEnv)
    requires x in s.open
  {
    if x in s.index && (s.index[x].user, s.index[x].uploadId) in s.metas
    then s.metas[(s.index[x].user, s.index[x].uploadId)].meta.updatedAt > env.cutoff
    else
      || x in env.unreadable || s.open[x].initiated > env.cutoff
      || exists p :: p in s.open[x].parts && s.open[x].parts[p].modified > env.cutoff
  }

  lemma IdleMeansNotRecent(s: State, x: S3Id, env: SweepEnv)
    requires x in s.open
    ensures Idle(s, x, env) <==> !IsRecent(s, x, env)
  {
  }

  /** In one pass over everything open, each upload is swept exactly if it was idle before the pass and storage agreed. */
  lemma CompletePass(c: Config, s: State, listed: seq<S3Id>, env: SweepEnv)
    requires Core(c, s)
    requires (forall i, j :: 0 <= i < j < |listed| ==> listed[i] != listed[j]) && forall x :: x in s.open ==> x in listed
    ensures forall x :: x in s.open ==> SweptRight(s, SweepAll(s, listed, env), x, env)
  {
    forall x | x in s.open
      ensures SweptRight(s, SweepAll(s, listed, env), x, env)
    {
      SweepEffect(c, s, listed, env, x);
      IdleMeansNotRecent(s, x, env);
    }
  }

  /** An upload not in recent use is gone if its abort is acknowledged, and closed if the reply is lost; any other is untouched. */
  ghost predicate SweptRight(s: State, t: State, x: S3Id, env: SweepEnv)
    requires x in s.open
  {
    && (!IsRecent(s, x, env) && env.calls(x).Acked? ==> Gone(s, t, x))
    && (!IsRecent(s, x, env) && env.calls(x).Unheard? ==> ClosedUnheard(s, t, x))
    && (IsRecent(s, x, env) || env.calls(x).Refused? ==> SameFor(s, t, x))
  }

  // -------------------------------------------------------- all invariants

  ghost predicate Inv(c: Config, s: State) {
    Core(c, s) && ActiveOk(c, s) && CompletedOk(s) && QuotaOk(c, s)
  }

  lemma StepKeepsInv(c: Config, s: State, e: Event)
    requires c.cap >= 1 && Inv(c, s) && Enabled(s, e)
    ensures Inv(c, Step(c, s, e))
  {
    StepKeepsCore(c, s, e);
    StepKeepsActive(c, s, e);
    StepKeepsCompleted(c, s, e);
    StepKeepsQuota(c, s, e);
  }
}
