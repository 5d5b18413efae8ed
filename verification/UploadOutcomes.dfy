/** What each request of the upload protocol leaves, field by field, in every run. */
module UploadOutcomes {
  import opened FileFormat
  import opened UploadProtocol
  import opened UploadSafety
  import opened UploadSteps
  import opened ActiveUploads
  import opened UploadGuarantees

  lemma StepAt(c: Config, events: seq<Event>, states: seq<State>, n: nat)
    requires IsRun(c, events, states) && n < |events|
    ensures Enabled(states[n], events[n]) && states[n + 1] == Step(c, states[n], events[n])
  {
  }

  /** Storage and the requests under way are the same, and so are files and history. */
  ghost predicate SameOutsideRedis(s: State, t: State) {
    && t.now == s.now && t.open == s.open && t.objects == s.objects && t.rows == s.rows
    && t.chunking == s.chunking && t.finalizing == s.finalizing
  }

  /** The id is in no active set of the user. */
  ghost predicate Inactive(s: State, u: UserId, id: UploadId) {
    u in s.active ==> id !in s.active[u].ids
  }

  /** Of the active sets, this id left that of the user, if it was there, and nothing else changed. */
  ghost predicate OnlyLeft(s: State, t: State, u: UserId, id: UploadId) {
    t.active.Keys == s.active.Keys && Inactive(t, u, id) && forall v :: v in s.active && v in t.active ==> SetLeft(s, t, v, u, id)
  }

  ghost predicate SetLeft(s: State, t: State, v: UserId, u: UserId, id: UploadId)
    requires v in s.active && v in t.active
  {
    t.active[v].expiresAt == s.active[v].expiresAt && t.active[v].ids == s.active[v].ids - (if v == u then {id} else {})
  }

  // --------------------------------------------------------------- cancel

  /** What a cancellation leaves. */
  ghost predicate Cancelled(s: State, t: State, u: UserId, id: UploadId, call: Call) {
    if (u, id) !in s.metas then SameOutsideRedis(s, t) && t.metas == s.metas && t.index == s.index && OnlyLeft(s, t, u, id)
    else
      var x := s.metas[(u, id)].meta.s3UploadId;
      if x !in s.open || call.Refused? then t == s
      else if call.Acked? then
        && SameOutsideRedis(s.(open := t.open), t) && t.open == s.open - {x}
        && t.metas == s.metas - {(u, id)} && t.index == s.index - {x} && OnlyLeft(s, t, u, id)
      else
        && SameOutsideRedis(s.(open := t.open), t) && t.open == s.open - {x}
        && t.metas == s.metas && t.index == s.index && t.active == s.active
  }

  lemma ReleaseLeaves(s: State, u: UserId, id: UploadId)
    ensures OnlyLeft(s, Release(s, u, id), u, id)
    ensures Release(s, u, id) == s.(active := Release(s, u, id).active)
  {
    OneSetLeft(s, Release(s, u, id), u, id);
  }

  lemma OneSetLeft(s: State, t: State, u: UserId, id: UploadId)
    requires t.active == if u in s.active then s.active[u := s.active[u].(ids := s.active[u].ids - {id})] else s.active
    ensures OnlyLeft(s, t, u, id)
  {
    assert t.active.Keys == s.active.Keys;
    forall v | v in s.active && v in t.active
      ensures SetLeft(s, t, v, u, id)
    {
    }
  }

  lemma CancelLeaves(s: State, u: UserId, id: UploadId, call: Call)
    ensures Cancelled(s, Cancel(s, u, id, call), u, id, call)
  {
    ReleaseLeaves(s, u, id);
    if (u, id) in s.metas {
      var x := s.metas[(u, id)].meta.s3UploadId;
      ReleaseLeaves(s.(metas := s.metas - {(u, id)}, index := s.index - {x}), u, id);
    }
  }

  /**
   A cancellation that storage acknowledges closes the multipart upload and removes its metadata, its index and its place
   in the active set. One that is refused, or comes for a closed upload, changes nothing; if the reply is lost the upload
   is closed and stays tracked; without metadata only the place in the active set is given up.
   */
  lemma CancelOutcome(c: Config, events: seq<Event>, states: seq<State>, n: nat)
    requires IsRun(c, events, states) && n < |events| && events[n].CancelEvent?
    ensures Cancelled(states[n], states[n + 1], events[n].u, events[n].id, events[n].call)
  {
    StepAt(c, events, states, n);
    CancelLeaves(states[n], events[n].u, events[n].id, events[n].call);
  }

  // --------------------------------------------------------------- chunks

  /** The chunk is the one that its upload expects next, in its scheduled length. */
  ghost predicate IsNextChunk(s: State, u: UserId, id: UploadId, chunkIndex: int, size: int) {
    && (u, id) in s.metas
    && var meta := s.metas[(u, id)].meta;
       && chunkIndex == meta.nextExpectedChunk < meta.totalChunks
       && size == FILE_ENCRYPTION_OVERHEAD +
                  if chunkIndex + 1 < meta.totalChunks then FILE_CHUNK_SIZE else meta.fileSize - chunkIndex * FILE_CHUNK_SIZE
  }

  /** The upload counts as active now, and all that tracks it expires a day from now; nothing else of Redis changes. */
  ghost predicate Renewed(s: State, t: State, u: UserId, id: UploadId, meta: UploadMeta) {
    && t.metas == s.metas[(u, id) := MetaEntry(meta, s.now + UPLOAD_META_TTL)] && meta.updatedAt == s.now
    && t.index.Keys == s.index.Keys && t.active.Keys == s.active.Keys
    && (forall x :: x in s.index ==> IndexRenewed(s, t, x, meta.s3UploadId))
    && (forall v :: v in s.active ==> SetRenewed(s, t, v, u))
  }

  ghost predicate IndexRenewed(s: State, t: State, x: S3Id, renewed: S3Id)
    requires x in s.index && x in t.index
  {
    t.index[x] == if x == renewed then s.index[x].(expiresAt := s.now + UPLOAD_META_TTL) else s.index[x]
  }

  ghost predicate SetRenewed(s: State, t: State, v: UserId, renewed: UserId)
    requires v in s.active && v in t.active
  {
    t.active[v] == if v == renewed then s.active[v].(expiresAt := s.now + UPLOAD_META_TTL) else s.active[v]
  }

  lemma RefreshRenews(s: State, u: UserId, id: UploadId, meta: UploadMeta)
    requires meta.updatedAt == s.now
    ensures Renewed(s, Refresh(s, u, id, meta), u, id, meta)
    ensures SameOutsideRedis(s, Refresh(s, u, id, meta))
  {
    var t := Refresh(s, u, id, meta);
    assert t.index.Keys == s.index.Keys && t.active.Keys == s.active.Keys;
    forall x | x in s.index
      ensures IndexRenewed(s, t, x, meta.s3UploadId)
    {
    }
    forall v | v in s.active
      ensures SetRenewed(s, t, v, u)
    {
    }
  }

  ghost predicate ChunkBegun(s: State, t: State, e: Event)
    requires e.BeginChunkEvent?
  {
    if IsNextChunk(s, e.u, e.id, e.chunkIndex, e.size) then
      var meta := s.metas[(e.u, e.id)].meta.(updatedAt := s.now);
      && t.chunking == s.chunking[e.req := ChunkRequest(e.u, e.id, meta)]
      && SameOutsideRedis(s.(chunking := t.chunking), t) && Renewed(s, t, e.u, e.id, meta)
    else t == s && e.req !in t.chunking
  }

  /** A chunk is accepted exactly if it is the next one in its scheduled length, and then renews its upload. */
  lemma BeginChunkOutcome(c: Config, events: seq<Event>, states: seq<State>, n: nat)
    requires IsRun(c, events, states) && n < |events| && events[n].BeginChunkEvent?
    ensures ChunkBegun(states[n], states[n + 1], events[n])
  {
    StepAt(c, events, states, n);
    BeginChunkLeaves(states[n], events[n]);
  }

  lemma BeginChunkLeaves(s: State, e: Event)
    requires e.BeginChunkEvent? && e.req !in s.chunking
    ensures ChunkBegun(s, BeginChunk(s, e.u, e.id, e.chunkIndex, e.size, e.req).0, e)
  {
    if (e.u, e.id) in s.metas {
      RefreshRenews(s, e.u, e.id, s.metas[(e.u, e.id)].meta.(updatedAt := s.now));
    }
  }

  /** What a chunk request leaves that had been accepted and now hears from storage, or not. */
  ghost predicate ChunkFinished(s: State, t: State, e: Event)
    requires e.FinishChunkEvent? && e.req in s.chunking
  {
    var r := s.chunking[e.req];
    var x := r.meta.s3UploadId;
    var number := r.meta.nextExpectedChunk + 1;
    var rest := s.(chunking := s.chunking - {e.req});
    if e.put.Refused? || x !in s.open then t == rest
    else
      var size := FILE_ENCRYPTION_OVERHEAD +
                  if number < r.meta.totalChunks then FILE_CHUNK_SIZE else r.meta.fileSize - (number - 1) * FILE_CHUNK_SIZE;
      var stored := s.open[x := s.open[x].(parts := s.open[x].parts[number := Part(size, s.now)])];
      if e.put.Acked? && (r.user, r.uploadId) in s.metas then
        && SameOutsideRedis(rest.(open := stored), t)
        && Renewed(s, t, r.user, r.uploadId, r.meta.(parts := r.meta.parts + [number], nextExpectedChunk := number, updatedAt := s.now))
      else
        && t.metas == s.metas && t.index == s.index && t.active == s.active
        && SameOutsideRedis(rest.(open := t.open), t)
        && t.open == if e.put.Acked? && !e.late.Refused? then s.open - {x} else stored
  }

  /**
   An accepted chunk whose part storage has taken is the next one of its metadata, which is renewed; if the upload was
   cancelled meanwhile it is aborted again. A refused part leaves nothing, and one without a reply only itself.
   */
  lemma FinishChunkOutcome(c: Config, events: seq<Event>, states: seq<State>, n: nat)
    requires IsRun(c, events, states) && n < |events| && events[n].FinishChunkEvent?
    ensures events[n].req in states[n].chunking && ChunkFinished(states[n], states[n + 1], events[n])
    ensures var r := states[n].chunking[events[n].req];
            (r.user, r.uploadId) in states[n].metas ==> r.meta == states[n].metas[(r.user, r.uploadId)].meta
  {
    RunKeepsCore(c, events, states, n);
    StepAt(c, events, states, n);
    assert ChunkingOk(states[n], events[n].req);
    FinishChunkLeaves(states[n], events[n]);
  }

  lemma FinishChunkLeaves(s: State, e: Event)
    requires e.FinishChunkEvent? && e.req in s.chunking && s.chunking[e.req].meta.nextExpectedChunk < s.chunking[e.req].meta.totalChunks
    ensures ChunkFinished(s, FinishChunk(s, e.req, e.put, e.late).0, e)
  {
    var r := s.chunking[e.req];
    FinishChunkCases(s, e.req, e.put, e.late);
    if r.meta.s3UploadId in s.open && !e.put.Refused? {
      PartStored(s, e.req);
      if e.put.Acked? && (r.user, r.uploadId) in s.metas {
        PartRenews(s, AfterPart(s, e.req), r);
      } else if e.put.Acked? {
        PartAborted(AfterPart(s, e.req), r, e.late);
      }
    }
  }

  lemma PartRenews(s: State, stored: State, r: ChunkRequest)
    requires stored.now == s.now && stored.metas == s.metas && stored.index == s.index && stored.active == s.active
    requires (r.user, r.uploadId) in s.metas
    ensures var n := r.meta.nextExpectedChunk + 1;
            var meta := r.meta.(parts := r.meta.parts + [n], nextExpectedChunk := n, updatedAt := s.now);
            Renewed(s, AfterReply(stored, r, Acked), r.user, r.uploadId, meta)
            && SameOutsideRedis(stored, AfterReply(stored, r, Acked))
    ensures forall late :: AfterReply(stored, r, late) == AfterReply(stored, r, Acked)
  {
    var n := r.meta.nextExpectedChunk + 1;
    var meta := r.meta.(parts := r.meta.parts + [n], nextExpectedChunk := n, updatedAt := s.now);
    RefreshRenews(stored, r.user, r.uploadId, meta);
    RenewedFrom(s, stored, Refresh(stored, r.user, r.uploadId, meta), r.user, r.uploadId, meta);
  }

  lemma RenewedFrom(s: State, stored: State, t: State, u: UserId, id: UploadId, meta: UploadMeta)
    requires stored.now == s.now && stored.metas == s.metas && stored.index == s.index && stored.active == s.active
    requires Renewed(stored, t, u, id, meta)
    ensures Renewed(s, t, u, id, meta)
  {
    forall x | x in s.index
      ensures IndexRenewed(s, t, x, meta.s3UploadId)
    {
      assert IndexRenewed(stored, t, x, meta.s3UploadId);
    }
    forall v | v in s.active
      ensures SetRenewed(s, t, v, u)
    {
      assert SetRenewed(stored, t, v, u);
    }
  }

  lemma PartAborted(stored: State, r: ChunkRequest, late: Call)
    requires (r.user, r.uploadId) !in stored.metas && r.meta.s3UploadId in stored.open
    ensures var t := AfterReply(stored, r, late);
            && t.metas == stored.metas && t.index == stored.index && t.active == stored.active
            && SameOutsideRedis(stored.(open := t.open), t)
            && t.open == if late.Refused? then stored.open else stored.open - {r.meta.s3UploadId}
  {
  }

  lemma PartStored(s: State, req: RequestId)
    requires req in s.chunking && s.chunking[req].meta.s3UploadId in s.open
    requires s.chunking[req].meta.nextExpectedChunk < s.chunking[req].meta.totalChunks
    ensures var r := s.chunking[req];
            var x := r.meta.s3UploadId;
            var number := r.meta.nextExpectedChunk + 1;
            var size := FILE_ENCRYPTION_OVERHEAD +
                        if number < r.meta.totalChunks then FILE_CHUNK_SIZE else r.meta.fileSize - (number - 1) * FILE_CHUNK_SIZE;
            AfterPart(s, req) == s.(chunking := s.chunking - {req},
                                    open := s.open[x := s.open[x].(parts := s.open[x].parts[number := Part(size, s.now)])])
  {
  }
}
