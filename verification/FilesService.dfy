/**
 FilesService as it runs: Redis keys, multipart uploads and rows changed step by step. Every method is proved to do
 to the whole state exactly what the transition system of UploadProtocol says.
 */
module FilesService {
  import opened FileFormat
  import opened UploadProtocol
  import opened UploadSafety
  import opened UploadSteps
  import opened ActiveUploads
  import opened UploadGuarantees
  import opened UploadIsolation

  class Service {
    const config: Config
    // the clock
    var now: Time
    // Redis
    var metas: map<(UserId, UploadId), MetaEntry>
    var active: map<UserId, ActiveSet>
    var index: map<S3Id, StorageIndex>
    // S3
    var open: map<S3Id, Multipart>
    var objects: map<StorageKey, int>
    // database
    var rows: seq<FileRow>
    // requests under way
    var chunking: map<RequestId, ChunkRequest>
    var finalizing: map<RequestId, FinalizeRequest>
    // history
    ghost var uploads: map<S3Id, Upload>
    ghost var completed: set<S3Id>
    ghost var lost: set<S3Id>

    /** Whatever requests have run, the protocol's invariants hold. */
    ghost predicate Valid()
      reads this
    {
      config.cap >= 1 && Inv(config, Model())
    }

    constructor (config: Config)
      requires config.cap >= 1
      ensures this.config == config && Model() == INITIAL && Valid()
    {
      this.config := config;
      now, metas, active, index := 0, map[], map[], map[];
      open, objects, rows := map[], map[], [];
      chunking, finalizing := map[], map[];
      uploads, completed, lost := map[], {}, {};
    }

    ghost function Model(): State
      reads this
    {
      State(now, metas, active, index, open, objects, rows, chunking, finalizing, uploads, completed, lost)
    }

    // ------------------------------------------------------ Redis and S3

    method ReleaseActiveUpload(u: UserId, id: UploadId)
      modifies this
      ensures Model() == Release(old(Model()), u, id)
    {
      if u in active {
        active := active[u := active[u].(ids := active[u].ids - {id})];
      }
    }

    method DeleteUploadKeys(u: UserId, id: UploadId, s3: S3Id)
      modifies this
      ensures Model() == Forget(old(Model()), u, id, s3)
    {
      metas := metas - {(u, id)};
      index := index - {s3};
      ReleaseActiveUpload(u, id);
    }

    method AbortMultipartUpload(s3: S3Id, call: Call) returns (ok: bool)
      modifies this
      ensures Model() == Abort(old(Model()), s3, call)
      ensures ok == AbortSucceeds(old(Model()), s3, call)
    {
      ok := s3 in open && call.Acked?;
      if s3 in open && !call.Refused? {
        open := open - {s3};
        if call.Unheard? {
          lost := lost + {s3};
        }
      }
    }

    method RefreshUploadState(u: UserId, id: UploadId, meta: UploadMeta)
      modifies this
      ensures Model() == Refresh(old(Model()), u, id, meta)
    {
      var expiry := now + UPLOAD_META_TTL;
      metas := metas[(u, id) := MetaEntry(meta, expiry)];
      if u in active {
        active := active[u := active[u].(expiresAt := expiry)];
      }
      if meta.s3UploadId in index {
        index := index[meta.s3UploadId := index[meta.s3UploadId].(expiresAt := expiry)];
      }
    }

    // ------------------------------------------------------ active uploads

    /** abortActiveUpload, and cancelUpload once its metadata is read: an abort that fails leaves everything in place. */
    method AbortActiveUpload(u: UserId, id: UploadId, s3: S3Id, call: Call) returns (ok: bool)
      modifies this
      ensures Model() == Drop(old(Model()), u, id, s3, call)
      ensures ok == AbortSucceeds(old(Model()), s3, call)
    {
      ok := AbortMultipartUpload(s3, call);
      if ok {
        DeleteUploadKeys(u, id, s3);
      }
    }

    /** The candidates among the listed ids, and the ids without metadata. */
    method CollectCandidates(u: UserId, order: seq<UploadId>) returns (candidates: seq<Candidate>, stale: set<UploadId>)
      ensures candidates == Candidates(Model(), u, order)
      ensures forall id :: id in stale <==> id in order && (u, id) !in metas
    {
      candidates, stale := [], {};
      for i := |order| downto 0
        invariant candidates == Candidates(Model(), u, order[i..])
        invariant forall id :: id in stale <==> id in order[i..] && (u, id) !in metas
      {
        var id := order[i];
        assert order[i..] == [id] + order[i + 1..];
        if (u, id) in metas {
          candidates := [Candidate(id, metas[(u, id)].meta)] + candidates;
        } else {
          stale := stale + {id};
        }
      }
      assert order[0..] == order;
    }

    method RemoveStale(u: UserId, order: seq<UploadId>, stale: set<UploadId>)
      requires Lists(order, Ids(Model(), u))
      requires forall id :: id in stale <==> id in order && (u, id) !in metas
      modifies this
      ensures Model() == DropStale(old(Model()), u)
    {
      if u in active {
        assert active[u].ids - stale == DropStale(Model(), u).active[u].ids;
        active := active[u := active[u].(ids := active[u].ids - stale)];
      }
    }

    method EvictOldest(u: UserId, victims: seq<Candidate>, calls: S3Id -> Call) returns (ok: bool)
      modifies this
      ensures (Model(), ok) == EvictAll(old(Model()), u, victims, calls)
    {
      ok := true;
      assert victims[0..] == victims;
      for i := 0 to |victims|
        invariant ok
        invariant EvictAll(old(Model()), u, victims, calls) == EvictAll(Model(), u, victims[i..], calls)
      {
        assert victims[i..][1..] == victims[i + 1..];
        var v := victims[i];
        ok := AbortActiveUpload(u, v.uploadId, v.meta.s3UploadId, calls(v.meta.s3UploadId));
        if !ok {
          return;
        }
      }
    }

    /** makeRoomForActiveUpload */
    method MakeRoomForActiveUpload(u: UserId, order: seq<UploadId>, calls: S3Id -> Call) returns (ok: bool)
      requires Lists(order, Ids(Model(), u))
      modifies this
      ensures (Model(), ok) == MakeRoom(config, old(Model()), u, order, calls)
    {
      if |order| < config.cap {
        return true;
      }
      var candidates, stale := CollectCandidates(u, order);
      SortKeepsMembers(candidates);
      RemoveStale(u, order, stale);

      var uploadsToRemove := |candidates| - config.cap + 1;
      if uploadsToRemove <= 0 {
        return true;
      }
      candidates := SortByAge(candidates);
      ok := EvictOldest(u, if uploadsToRemove <= |candidates| then candidates[..uploadsToRemove] else [], calls);
    }

    method ReserveActiveUpload(u: UserId, id: UploadId, order: seq<UploadId>, calls: S3Id -> Call) returns (ok: bool)
      requires Lists(order, Ids(Model(), u))
      modifies this
      ensures var room := MakeRoom(config, old(Model()), u, order, calls);
              ok == room.1 && Model() == if ok then Reserve(room.0, u, id) else room.0
    {
      ok := MakeRoomForActiveUpload(u, order, calls);
      if ok {
        var ids := if u in active then active[u].ids else {};
        active := active[u := ActiveSet(ids + {id}, now + UPLOAD_META_TTL)];
      }
    }

    // ----------------------------------------------------------- requests

    method MayInitialize(u: UserId, fileSize: nat, totalChunks: int, live: bool, lockFree: bool) returns (allowed: bool)
      ensures allowed == InitAllowed(config, Model(), u, fileSize, totalChunks, live, lockFree)
    {
      if !live || totalChunks != ChunkCount(fileSize) || u !in config.users || fileSize > MaxFileSize(config, u) {
        return false;
      }
      var currentUsage := AggregateSize(u);
      allowed := currentUsage + fileSize <= QuotaLimit(config, u) && lockFree;
    }

    /** The aggregate query over the user's files. */
    method AggregateSize(u: UserId) returns (total: nat)
      ensures total == Usage(rows, u)
    {
      total := 0;
      for i := |rows| downto 0
        invariant total == Usage(rows[i..], u)
      {
        assert rows[i..] == [rows[i]] + rows[i + 1..];
        if rows[i].owner == u {
          total := total + rows[i].size;
        }
      }
      assert rows[0..] == rows;
    }

    /** initializeUpload */
    method InitializeUpload(u: UserId, fileSize: nat, totalChunks: int, live: bool, lockFree: bool, ids: FreshIds,
                            create: Call, order: seq<UploadId>, calls: S3Id -> Call, undo: Call)
      returns (reply: Reply)
      requires Lists(order, Ids(Model(), u))
      modifies this
      ensures (Model(), reply) == Init(config, old(Model()), u, fileSize, totalChunks, live, lockFree, ids, create, order, calls, undo)
    {
      var allowed := MayInitialize(u, fileSize, totalChunks, live, lockFree);
      if !allowed || create.Refused? {
        return Rejected;
      }
      open := open[ids.s3 := Multipart(ids.key, now, map[])];
      uploads := uploads[ids.s3 := Upload(u, ids.uploadId, ids.key, fileSize)];
      if create.Unheard? {
        return Rejected;
      }
      WriteUploadState(u, fileSize, totalChunks, ids);
      reply := ReserveOrUndo(u, ids, order, calls, undo);
    }

    method WriteUploadState(u: UserId, fileSize: nat, totalChunks: nat, ids: FreshIds)
      requires totalChunks == ChunkCount(fileSize)
      modifies this
      ensures Model() == Track(old(Model()), u, fileSize, ids)
    {
      var meta := UploadMeta(totalChunks, 0, fileSize, ids.key, ids.s3, [], now, now);
      metas := metas[(u, ids.uploadId) := MetaEntry(meta, now + UPLOAD_META_TTL)];
      index := index[ids.s3 := StorageIndex(u, ids.uploadId, now + UPLOAD_META_TTL)];
    }

    /** The end of initializeUpload: the reservation, or the error path. */
    method ReserveOrUndo(u: UserId, ids: FreshIds, order: seq<UploadId>, calls: S3Id -> Call, undo: Call) returns (reply: Reply)
      requires Lists(order, Ids(Model(), u))
      modifies this
      ensures var room := MakeRoom(config, old(Model()), u, order, calls);
              (Model(), reply) == if room.1 then (Reserve(room.0, u, ids.uploadId), Accepted)
                                  else (Abort(Forget(room.0, u, ids.uploadId, ids.s3), ids.s3, undo), Rejected)
    {
      var reserved := ReserveActiveUpload(u, ids.uploadId, order, calls);
      if reserved {
        return Accepted;
      }
      DeleteUploadKeys(u, ids.uploadId, ids.s3);
      var _ := AbortMultipartUpload(ids.s3, undo);
      return Rejected;
    }

    /** handleChunk up to its UploadPart call. */
    method HandleChunkBegin(u: UserId, id: UploadId, chunkIndex: int, size: int, req: RequestId) returns (reply: Reply)
      modifies this
      ensures (Model(), reply) == BeginChunk(old(Model()), u, id, chunkIndex, size, req)
    {
      if (u, id) !in metas {
        return Rejected;
      }
      var meta := metas[(u, id)].meta;
      if chunkIndex != meta.nextExpectedChunk || chunkIndex >= meta.totalChunks {
        return Rejected;
      }
      if size != ScheduledChunkSize(meta.fileSize, meta.totalChunks, chunkIndex) {
        return Rejected;
      }
      meta := meta.(updatedAt := now);
      RefreshUploadState(u, id, meta);
      chunking := chunking[req := ChunkRequest(u, id, meta)];
      return Accepted;
    }

    /** handleChunk from its UploadPart call on. */
    method HandleChunkFinish(req: RequestId, put: Call, late: Call) returns (reply: Reply)
      requires req in chunking
      modifies this
      ensures (Model(), reply) == FinishChunk(old(Model()), req, put, late)
    {
      var r := chunking[req];
      var meta := r.meta;
      var s3 := meta.s3UploadId;
      chunking := chunking - {req};
      if s3 !in open || put.Refused? {
        return Rejected;
      }
      var partNumber := meta.nextExpectedChunk + 1;
      var part := Part(ScheduledChunkSize(meta.fileSize, meta.totalChunks, meta.nextExpectedChunk), now);
      open := open[s3 := open[s3].(parts := open[s3].parts[partNumber := part])];
      if put.Unheard? {
        return Rejected;
      }
      if (r.user, r.uploadId) !in metas {
        var _ := AbortMultipartUpload(s3, late);
        return Rejected;
      }
      meta := meta.(parts := meta.parts + [partNumber], nextExpectedChunk := meta.nextExpectedChunk + 1, updatedAt := now);
      RefreshUploadState(r.user, r.uploadId, meta);
      return Accepted;
    }

    /** finalizeUpload up to its Complete call. */
    method FinalizeBegin(u: UserId, id: UploadId, totalChunks: int, live: bool, req: RequestId) returns (reply: Reply)
      modifies this
      ensures (Model(), reply) == StartFinalize(old(Model()), u, id, totalChunks, live, req)
    {
      if !live || (u, id) !in metas {
        return Rejected;
      }
      var meta := metas[(u, id)].meta;
      if |meta.parts| != meta.totalChunks || totalChunks != meta.totalChunks {
        return Rejected;
      }
      finalizing := finalizing[req := FinalizeRequest(u, id, meta, Started)];
      return Accepted;
    }

    /** The catch block of finalizeUpload. */
    method FinalizeFailed(req: RequestId, cleanup: Call)
      requires req in finalizing
      modifies this
      ensures Model() == FailFinalize(old(Model()), req, cleanup)
    {
      var r := finalizing[req];
      finalizing := finalizing - {req};
      if r.phase.Started? {
        DeleteUploadKeys(r.user, r.uploadId, r.meta.s3UploadId);
        var _ := AbortMultipartUpload(r.meta.s3UploadId, cleanup);
      } else {
        DeleteUploadKeys(r.user, r.uploadId, r.meta.s3UploadId);
        if !cleanup.Refused? {
          objects := objects - {r.meta.storageKey};
        }
      }
    }

    /** S3 puts the object together from parts 1..n. */
    method SumParts(s3: S3Id, n: nat) returns (size: int)
      requires s3 in open && HasParts(open[s3].parts, n)
      ensures size == AssembledSize(open[s3].parts, n)
    {
      size := 0;
      for i := 0 to n
        invariant size == AssembledSize(open[s3].parts, i)
      {
        size := size + open[s3].parts[i + 1].size;
      }
    }

    method CompleteMultipart(req: RequestId, complete: Call, cleanup: Call)
      requires req in finalizing
      modifies this
      ensures Model() == CompleteStep(old(Model()), req, complete, cleanup)
    {
      var r := finalizing[req];
      var s3 := r.meta.s3UploadId;
      if s3 !in open || complete.Refused? || !HasParts(open[s3].parts, |r.meta.parts|) {
        FinalizeFailed(req, cleanup);
        return;
      }
      var size := SumParts(s3, |r.meta.parts|);
      objects := objects[open[s3].key := size];
      open := open - {s3};
      completed := completed + {s3};
      if complete.Acked? {
        finalizing := finalizing[req := r.(phase := Assembled)];
      } else {
        FinalizeFailed(req, cleanup);
      }
    }

    method HeadCompletedObject(req: RequestId, head: Call, cleanup: Call)
      requires req in finalizing
      modifies this
      ensures Model() == HeadStep(old(Model()), req, head, cleanup)
    {
      var meta := finalizing[req].meta;
      if !head.Acked? || meta.storageKey !in objects || ExpectedEncryptedSize(meta.fileSize) != Success(objects[meta.storageKey]) {
        FinalizeFailed(req, cleanup);
      } else {
        finalizing := finalizing[req := finalizing[req].(phase := Checked)];
      }
    }

    method CreateFileRow(req: RequestId, id: FileId, dbOk: bool, cleanup: Call)
      requires req in finalizing
      modifies this
      ensures Model() == CommitStep(config, old(Model()), req, id, dbOk, cleanup)
    {
      var r := finalizing[req];
      var currentUsage := AggregateSize(r.user);
      if !dbOk || r.user !in config.users || r.meta.fileSize > MaxFileSize(config, r.user)
         || currentUsage + r.meta.fileSize > QuotaLimit(config, r.user)
      {
        FinalizeFailed(req, cleanup);
      } else {
        rows := rows + [FileRow(id, r.user, r.meta.storageKey, r.meta.fileSize, r.meta.s3UploadId)];
        finalizing := finalizing[req := r.(phase := Recorded)];
      }
    }

    method FinalizeEnd(req: RequestId)
      requires req in finalizing
      modifies this
      ensures Model() == CleanupStep(old(Model()), req)
    {
      var r := finalizing[req];
      finalizing := finalizing - {req};
      DeleteUploadKeys(r.user, r.uploadId, r.meta.s3UploadId);
    }

    /** cancelUpload */
    method CancelUpload(u: UserId, id: UploadId, call: Call)
      modifies this
      ensures Model() == Cancel(old(Model()), u, id, call)
    {
      if (u, id) !in metas {
        ReleaseActiveUpload(u, id);
      } else {
        var _ := AbortActiveUpload(u, id, metas[(u, id)].meta.s3UploadId, call);
      }
    }

    // -------------------------------------------------------------- sweep

    /** getMultipartLastActivity without a tracked time: the parts are listed page by page. */
    method LatestStored(s3: S3Id, pages: seq<seq<nat>>) returns (latest: Time)
      requires s3 in open
      requires ListsParts(open[s3].parts, pages)
      ensures latest == StoredActivity(open[s3])
    {
      var m := open[s3];
      latest := m.initiated;
      for i := 0 to |pages|
        invariant m.initiated <= latest
        invariant forall k, p :: 0 <= k < i && p in pages[k] ==> p in m.parts && m.parts[p].modified <= latest
        invariant latest == m.initiated || exists p :: p in m.parts && m.parts[p].modified == latest
      {
        for j := 0 to |pages[i]|
          invariant m.initiated <= latest
          invariant forall k, p :: 0 <= k < i && p in pages[k] ==> p in m.parts && m.parts[p].modified <= latest
          invariant forall h :: 0 <= h < j ==> pages[i][h] in m.parts && m.parts[pages[i][h]].modified <= latest
          invariant latest == m.initiated || exists p :: p in m.parts && m.parts[p].modified == latest
        {
          var p := pages[i][j];
          assert p in pages[i];
          assert p in m.parts;
          if latest < m.parts[p].modified {
            latest := m.parts[p].modified;
          }
        }
      }
    }

    /** removeTrackedUploadState */
    method RemoveTrackedUploadState(s3: S3Id)
      modifies this
      ensures Model() == RemoveTracked(old(Model()), s3)
    {
      if s3 in index {
        DeleteUploadKeys(index[s3].user, index[s3].uploadId, s3);
      }
    }

    /** Whether an upload is idle; if its parts cannot be listed, it does not count as such. */
    method CheckIdle(s3: S3Id, env: SweepEnv, pages: seq<seq<nat>>) returns (idle: bool)
      requires s3 in open && ListsParts(open[s3].parts, pages)
      ensures idle == Idle(Model(), s3, env)
    {
      var lastActivity: Time;
      if s3 in index && (index[s3].user, index[s3].uploadId) in metas {
        lastActivity := metas[(index[s3].user, index[s3].uploadId)].meta.updatedAt;
      } else if s3 in env.unreadable {
        return false;
      } else {
        lastActivity := LatestStored(s3, pages);
      }
      idle := lastActivity <= env.cutoff;
    }

    /** One upload of a listing page; an error is logged and the sweep goes on. */
    method SweepUpload(s3: S3Id, env: SweepEnv, pages: seq<seq<nat>>)
      requires s3 in open && ListsParts(open[s3].parts, pages)
      modifies this
      ensures Model() == SweepOne(old(Model()), s3, env)
    {
      var idle := CheckIdle(s3, env, pages);
      if idle {
        var ok := AbortMultipartUpload(s3, env.calls(s3));
        if ok {
          RemoveTrackedUploadState(s3);
          AbortCommutes(old(Model()), s3);
        }
      }
    }

    /** The least open upload id above the marker. */
    method NextUpload(marker: int) returns (found: bool, next: S3Id)
      ensures found ==> next in open && marker < next && forall x :: x in open && marker < x ==> next <= x
      ensures !found ==> forall x :: x in open ==> x <= marker
    {
      found, next := false, 0;
      var rest := open.Keys;
      while rest != {}
        invariant rest <= open.Keys
        invariant found ==> next in open && marker < next
        invariant forall x :: x in open && x !in rest && marker < x ==> found && next <= x
        decreases rest
      {
        var x :| x in rest;
        if marker < x && (!found || x < next) {
          found, next := true, x;
        }
        rest := rest - {x};
      }
    }

    /** ListMultipartUploads: at most `max` uploads after the marker, in order, and whether more remain. */
    method ListMultipartUploads(marker: int, max: nat) returns (page: seq<S3Id>, truncated: bool)
      requires max > 0
      ensures Ascending(page) && forall x :: x in page ==> x in open && marker < x
      ensures forall x :: x in open && marker < x ==> x in page || (truncated && page != [] && page[|page| - 1] < x)
      ensures truncated ==> page != []
    {
      page := [];
      var last := marker;
      while |page| < max
        invariant Ascending(page) && forall x :: x in page ==> x in open && marker < x <= last
        invariant page != [] ==> last == page[|page| - 1]
        invariant page == [] ==> last == marker
        invariant marker <= last
        invariant forall x :: x in open && marker < x <= last ==> x in page
      {
        var found, next := NextUpload(last);
        if !found {
          return page, false;
        }
        page := page + [next];
        last := next;
      }
      var more, next := NextUpload(last);
      truncated := more;
    }

    /** The uploads of one page in turn. */
    method SweepPage(page: seq<S3Id>, env: SweepEnv, parts: S3Id -> seq<seq<nat>>, ghost marker: int)
      requires Ascending(page) && forall x :: x in page ==> x in open && marker < x
      requires PartsListed(open, parts)
      modifies this
      ensures Model() == SweepAll(old(Model()), page, env)
      ensures Remains(old(open), open, if page == [] then marker else page[|page| - 1])
    {
      for i := 0 to |page|
        invariant Model() == SweepAll(old(Model()), page[..i], env)
        invariant Remains(old(open), open, if i == 0 then marker else page[i - 1])
      {
        assert page[i] in page;
        assert page[..i + 1] == page[..i] + [page[i]];
        SweepAllSnoc(old(Model()), page[..i], page[i], env);
        SweepOneOpen(Model(), page[i], env);
        RemainsOne(old(open), open, SweepOne(Model(), page[i], env).open, if i == 0 then marker else page[i - 1], page[i]);
        SweepUpload(page[i], env, parts(page[i]));
      }
      assert page[..|page|] == page;
    }

    /** One page: listed after the marker, then swept; `last` is the continuation marker. */
    method SweepNextPage(marker: int, pageSize: nat, env: SweepEnv, parts: S3Id -> seq<seq<nat>>)
      returns (page: seq<S3Id>, truncated: bool, last: int)
      requires pageSize > 0 && PartsListed(open, parts)
      modifies this
      ensures Model() == SweepAll(old(Model()), page, env)
      ensures Remains(old(open), open, last) && marker <= last && (truncated ==> marker < last && last in old(open))
      ensures Ascending(page) && forall x :: x in page ==> x in old(open) && marker < x <= last
      ensures forall x :: x in old(open) && marker < x ==> x in page || (truncated && last < x)
    {
      page, truncated := ListMultipartUploads(marker, pageSize);
      last := if page == [] then marker else page[|page| - 1];
      LastIsGreatest(page);
      SweepPage(page, env, parts, marker);
    }

    /**
     cleanupStaleMultipartUploads: pages of at most `pageSize` uploads are listed and swept in turn, so that aborts
     happen while the listing is still going on. `fails` says which page request fails or comes back without a
     continuation marker. A pass without such a failure has swept every upload that was open, in order: what was idle
     when the pass began is gone if storage acknowledged its abort, and the rest is untouched.
     */
    method CleanupStaleMultipartUploads(env: SweepEnv, pageSize: nat, fails: nat -> bool, parts: S3Id -> seq<seq<nat>>)
      returns (complete: bool, ghost swept: seq<S3Id>)
      requires Valid() && pageSize > 0 && PartsListed(open, parts)
      modifies this
      ensures Valid()
      ensures Ascending(swept) && forall x :: x in swept ==> x in old(open)
      ensures Model() == SweepAll(old(Model()), swept, env)
      ensures complete ==> forall x :: x in old(open) ==> SweptRight(old(Model()), Model(), x, env)
      ensures (forall k :: !fails(k)) ==> complete
    {
      complete, swept := SweepPages(env, pageSize, fails, parts);
      StepKeepsInv(config, old(Model()), SweepEvent(swept, env));
      if complete {
        CompletePass(config, old(Model()), swept, env);
      }
    }

    /** The paging loop; a pass that is complete has visited everything that was open. */
    method SweepPages(env: SweepEnv, pageSize: nat, fails: nat -> bool, parts: S3Id -> seq<seq<nat>>)
      returns (complete: bool, ghost swept: seq<S3Id>)
      requires pageSize > 0 && PartsListed(open, parts)
      modifies this
      ensures Ascending(swept) && forall x :: x in swept ==> x in old(open)
      ensures Model() == SweepAll(old(Model()), swept, env)
      ensures complete ==> forall x :: x in old(open) ==> x in swept
      ensures (forall k :: !fails(k)) ==> complete
    {
      var marker: int := -1;
      var pageNumber := 0;
      swept := [];
      while true
        invariant SweptUpTo(old(open), swept, marker)
        invariant Model() == SweepAll(old(Model()), swept, env)
        invariant Remains(old(open), open, marker)
        decreases Above(old(open), marker)
      {
        if fails(pageNumber) {
          return false, swept;
        }
        ghost var before := open;
        var page, truncated, last := SweepNextPage(marker, pageSize, env, parts);
        SweepAllAppend(old(Model()), swept, page, env);
        RemainsTrans(old(open), before, open, marker, last);
        SweptOnePage(old(open), before, swept, page, marker, last, truncated);
        swept := swept + page;
        if !truncated {
          return true, swept;
        }
        AboveShrinks(old(open), marker, last);
        marker := last;
        pageNumber := pageNumber + 1;
      }
    }

    // ------------------------------------------------------------ deletion

    /** deleteFileInternal */
    method DeleteFileInternal(id: FileId, call: Call)
      modifies this
      ensures Model() == DeleteFile(old(Model()), id, call)
    {
      if !call.Refused? {
        objects := objects - ObjectsOf(rows, HasId(id));
      }
      rows := RowsWithout(rows, HasId(id));
    }

    /** clearUserData of the admin service. */
    method ClearUserData(u: UserId, listed: seq<UploadId>, stuck: set<StorageKey>, calls: S3Id -> Call)
      modifies this
      ensures Model() == AdminClear(old(Model()), u, listed, stuck, calls)
    {
      objects := objects - (ObjectsOf(rows, OwnedBy(u)) - stuck);
      rows := RowsWithout(rows, OwnedBy(u));
      ghost var emptied := Model();
      assert listed[0..] == listed;
      for i := 0 to |listed|
        invariant ClearMetas(emptied, u, listed, calls) == ClearMetas(Model(), u, listed[i..], calls)
      {
        assert listed[i..][1..] == listed[i + 1..];
        ClearUpload(u, listed[i], calls);
      }
      assert listed[|listed|..] == [];
      ClearMetasKeepsRest(emptied, u, listed, calls);
      active := active - {u};
    }

    method ClearUpload(u: UserId, id: UploadId, calls: S3Id -> Call)
      modifies this
      ensures Model() == ClearMeta(old(Model()), u, id, calls)
    {
      if (u, id) in metas {
        var s3 := metas[(u, id)].meta.s3UploadId;
        metas := metas - {(u, id)};
        var _ := AbortMultipartUpload(s3, calls(s3));
      }
    }

    /** Redis expires what is due. */
    method PassTime(dt: nat)
      modifies this
      ensures Model() == Tick(old(Model()), dt)
    {
      now := now + dt;
      metas := LiveMetas(metas, now);
      active := LiveSets(active, now);
      index := LiveIndexes(index, now);
    }

    // ---------------------------------------------------------- dispatching

    /**
     Requests, cancellations, deletions and time, one step after the other in any order: each does what the protocol says,
     the protocol's invariants hold again, and uploads that it is not about are as before. The sweep, which lists while it goes, is CleanupStaleMultipartUploads.
     */
    method Dispatch(e: Event)
      requires Valid() && Enabled(Model(), e) && !e.SweepEvent?
      modifies this
      ensures Model() == Step(config, old(Model()), e) && Valid()
      ensures forall x :: !Touches(old(Model()), e, x) ==> SameFor(old(Model()), Model(), x)
    {
      StepOutcome(config, Model(), e);
      match e
      case InitEvent(u, fileSize, totalChunks, live, lockFree, ids, create, order, calls, undo) =>
        var _ := InitializeUpload(u, fileSize, totalChunks, live, lockFree, ids, create, order, calls, undo);
      case BeginChunkEvent(u, id, chunkIndex, size, req) => var _ := HandleChunkBegin(u, id, chunkIndex, size, req);
      case FinishChunkEvent(req, put, late) => var _ := HandleChunkFinish(req, put, late);
      case StartFinalizeEvent(u, id, totalChunks, live, req) => var _ := FinalizeBegin(u, id, totalChunks, live, req);
      case CompleteEvent(req, complete, cleanup) => CompleteMultipart(req, complete, cleanup);
      case HeadEvent(req, head, cleanup) => HeadCompletedObject(req, head, cleanup);
      case CommitEvent(req, file, dbOk, cleanup) => CreateFileRow(req, file, dbOk, cleanup);
      case CleanupEvent(req) => FinalizeEnd(req);
      case CancelEvent(u, id, call) => CancelUpload(u, id, call);
      case DeleteFileEvent(file, call) => DeleteFileInternal(file, call);
      case AdminClearEvent(u, listed, stuck, calls) => ClearUserData(u, listed, stuck, calls);
      case TickEvent(dt) => PassTime(dt);
    }
  }

  lemma StepOutcome(c: Config, s: State, e: Event)
    requires c.cap >= 1 && Inv(c, s) && Enabled(s, e)
    ensures Inv(c, Step(c, s, e))
    ensures forall x :: !Touches(s, e, x) ==> SameFor(s, Step(c, s, e), x)
  {
    StepKeepsInv(c, s, e);
    forall x | !Touches(s, e, x)
      ensures SameFor(s, Step(c, s, e), x)
    {
      OthersUntouched(c, s, e, x);
    }
  }

  ghost predicate Ascending(xs: seq<S3Id>) {
    forall i, j :: 0 <= i < j < |xs| ==> xs[i] < xs[j]
  }

  lemma LastIsGreatest(xs: seq<S3Id>)
    requires Ascending(xs)
    ensures xs != [] ==> xs[|xs| - 1] in xs && forall x :: x in xs ==> x <= xs[|xs| - 1]
  {
  }

  /** Closing an upload and removing its tracked state can be done in either order. */
  lemma AbortCommutes(s: State, s3: S3Id)
    ensures RemoveTracked(Abort(s, s3, Acked), s3) == Abort(RemoveTracked(s, s3), s3, Acked)
  {
    if s3 in s.index {
      ForgetAfterAbort(s, s.index[s3].user, s.index[s3].uploadId, s3);
    }
  }

  lemma ForgetAfterAbort(s: State, u: UserId, id: UploadId, s3: S3Id)
    ensures Forget(Abort(s, s3, Acked), u, id, s3) == Abort(Forget(s, u, id, s3), s3, Acked)
  {
    ForgetFields(s, u, id, s3);
    ForgetFields(Abort(s, s3, Acked), u, id, s3);
  }

  lemma AboveShrinks(open: map<S3Id, Multipart>, marker: int, last: int)
    requires marker < last && last in open
    ensures Above(open, last) < Above(open, marker)
  {
    assert last in Above(open, marker) && last !in Above(open, last);
  }

  /** The uploads swept so far are those up to the marker, in order. */
  ghost predicate SweptUpTo(open: map<S3Id, Multipart>, swept: seq<S3Id>, marker: int) {
    && Ascending(swept)
    && (forall x :: x in swept ==> x in open && x <= marker)
    && (forall x :: x in open && x <= marker ==> x in swept)
  }

  lemma SweptOnePage(open: map<S3Id, Multipart>, now: map<S3Id, Multipart>, swept: seq<S3Id>, page: seq<S3Id>, marker: int, last: int,
                     truncated: bool)
    requires SweptUpTo(open, swept, marker) && Remains(open, now, marker) && marker <= last
    requires Ascending(page) && forall x :: x in page ==> x in now && marker < x <= last
    requires forall x :: x in now && marker < x ==> x in page || (truncated && last < x)
    ensures SweptUpTo(open, swept + page, last)
    ensures !truncated ==> forall x :: x in open ==> x in swept + page
  {
    forall i, j | 0 <= i < j < |swept + page|
      ensures (swept + page)[i] < (swept + page)[j]
    {
      assert i < |swept| ==> swept[i] in swept;
      assert j >= |swept| ==> page[j - |swept|] in page;
    }
  }

  ghost function Above(open: map<S3Id, Multipart>, marker: int): set<S3Id> {
    set x | x in open && marker < x
  }

  /** The pages of ListParts hold exactly the stored parts. */
  ghost predicate ListsParts(parts: map<nat, Part>, pages: seq<seq<nat>>) {
    forall p :: p in parts <==> exists k :: 0 <= k < |pages| && p in pages[k]
  }

  ghost predicate PartsListed(open: map<S3Id, Multipart>, parts: S3Id -> seq<seq<nat>>) {
    forall x :: x in open ==> ListsParts(open[x].parts, parts(x))
  }

  lemma RemainsTrans(a: map<S3Id, Multipart>, b: map<S3Id, Multipart>, c: map<S3Id, Multipart>, m: int, m': int)
    requires Remains(a, b, m) && Remains(b, c, m') && m <= m'
    ensures Remains(a, c, m')
  {
  }

  lemma RemainsOne(a: map<S3Id, Multipart>, b: map<S3Id, Multipart>, c: map<S3Id, Multipart>, m: int, x: S3Id)
    requires Remains(a, b, m) && m < x && (c == b || c == b - {x})
    ensures Remains(a, c, x)
  {
  }

  lemma {:induction false} SweepAllAppend(s: State, a: seq<S3Id>, b: seq<S3Id>, env: SweepEnv)
    ensures SweepAll(s, a + b, env) == SweepAll(SweepAll(s, a, env), b, env)
    decreases |a|
  {
    if a == [] {
      assert a + b == b;
    } else {
      assert (a + b)[1..] == a[1..] + b;
      SweepAllAppend(SweepOne(s, a[0], env), a[1..], b, env);
    }
  }

  /** Above the marker nothing was touched, and nothing was added. */
  ghost predicate Remains(before: map<S3Id, Multipart>, now: map<S3Id, Multipart>, marker: int) {
    && (forall x :: x in now ==> x in before && now[x] == before[x])
    && (forall x :: x in before && marker < x ==> x in now)
  }

  lemma SweepAllSnoc(s: State, listed: seq<S3Id>, x: S3Id, env: SweepEnv)
    ensures SweepAll(s, listed + [x], env) == SweepOne(SweepAll(s, listed, env), x, env)
  {
    SweepAllAppend(s, listed, [x], env);
    var t := SweepAll(s, listed, env);
    assert SweepAll(t, [x], env) == SweepAll(SweepOne(t, x, env), [x][1..], env);
  }

  lemma SweepOneOpen(s: State, x: S3Id, env: SweepEnv)
    ensures var t := SweepOne(s, x, env);
            t.open == s.open || t.open == s.open - {x}
  {
    if x in s.index {
      ForgetFields(s, s.index[x].user, s.index[x].uploadId, x);
    }
  }
}
