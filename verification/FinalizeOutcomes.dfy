/** What each step of a finalize request leaves, and what deletions, clearing and time leave, in every run. */
module FinalizeOutcomes {
  import opened FileFormat
  import opened UploadProtocol
  import opened UploadSafety
  import opened UploadSteps
  import opened ActiveUploads
  import opened UploadGuarantees
  import opened UploadOutcomes

  const GIB: nat := 1024 * 1024 * 1024

  /** The user exists, and the file fits: 2 GiB in all and less per file, or 50 GiB for one with the admin limits. */
  predicate Fits(c: Config, s: State, u: UserId, fileSize: nat) {
    && u in c.users
    && if u in c.admins then fileSize <= 50 * GIB && Usage(s.rows, u) + fileSize <= 50 * GIB
       else fileSize < 2 * GIB && Usage(s.rows, u) + fileSize <= 2 * GIB
  }

  // ---------------------------------------------------------------- start

  /** A finalize request is accepted exactly for a link that may live, when every chunk has come and their number is right. */
  lemma StartFinalizeOutcome(c: Config, events: seq<Event>, states: seq<State>, n: nat)
    requires IsRun(c, events, states) && n < |events| && events[n].StartFinalizeEvent?
    ensures var s, t, e := states[n], states[n + 1], events[n];
            if e.live && (e.u, e.id) in s.metas
               && s.metas[(e.u, e.id)].meta.nextExpectedChunk == s.metas[(e.u, e.id)].meta.totalChunks == e.totalChunks
            then t == s.(finalizing := s.finalizing[e.req := FinalizeRequest(e.u, e.id, s.metas[(e.u, e.id)].meta, Started)])
            else t == s && e.req !in t.finalizing
  {
    RunKeepsCore(c, events, states, n);
    StepAt(c, events, states, n);
    var s, e := states[n], events[n];
    assert (e.u, e.id) in s.metas ==> MetaOk(s, (e.u, e.id));
  }

  // -------------------------------------------------------------- failures

  /** The request is over and nothing tracks its upload any more; other tracked uploads are as before. */
  ghost predicate Forgotten(s: State, t: State, req: RequestId)
    requires req in s.finalizing
  {
    var r := s.finalizing[req];
    && t.finalizing == s.finalizing - {req}
    && t.metas == s.metas - {(r.user, r.uploadId)} && t.index == s.index - {r.meta.s3UploadId}
    && OnlyLeft(s, t, r.user, r.uploadId)
    && t.now == s.now && t.rows == s.rows && t.chunking == s.chunking
  }

  lemma ForgetLeaves(s: State, t: State, req: RequestId)
    requires req in s.finalizing
    requires var r := s.finalizing[req];
             t == Forget(s.(finalizing := s.finalizing - {req}), r.user, r.uploadId, r.meta.s3UploadId)
    ensures Forgotten(s, t, req) && t.open == s.open && t.objects == s.objects
  {
    var r := s.finalizing[req];
    var rest := s.(finalizing := s.finalizing - {req});
    ForgetFields(rest, r.user, r.uploadId, r.meta.s3UploadId);
    var removed := rest.(metas := s.metas - {(r.user, r.uploadId)}, index := s.index - {r.meta.s3UploadId});
    ReleaseLeaves(removed, r.user, r.uploadId);
    SetsFrom(s, removed, t, r.user, r.uploadId);
  }

  lemma SetsFrom(s: State, removed: State, t: State, u: UserId, id: UploadId)
    requires removed.active == s.active && OnlyLeft(removed, t, u, id)
    ensures OnlyLeft(s, t, u, id)
  {
    forall v | v in s.active && v in t.active
      ensures SetLeft(s, t, v, u, id)
    {
      assert SetLeft(removed, t, v, u, id);
    }
  }

  /** What the error path leaves in storage: an upload that was not completed is aborted, otherwise the object is deleted. */
  ghost predicate FailedIn(s: State, t: State, req: RequestId, cleanup: Call)
    requires req in s.finalizing
  {
    var r := s.finalizing[req];
    && Forgotten(s, t, req)
    && if r.phase.Started?
       then t.objects == s.objects && t.open == if cleanup.Refused? then s.open else s.open - {r.meta.s3UploadId}
       else t.open == s.open && t.objects == if cleanup.Refused? then s.objects else s.objects - {r.meta.storageKey}
  }

  lemma FailureLeaves(s: State, req: RequestId, cleanup: Call)
    requires req in s.finalizing
    ensures FailedIn(s, FailFinalize(s, req, cleanup), req, cleanup)
  {
    var r := s.finalizing[req];
    var forgotten := Forget(s.(finalizing := s.finalizing - {req}), r.user, r.uploadId, r.meta.s3UploadId);
    ForgetLeaves(s, forgotten, req);
    AbortFields(forgotten, r.meta.s3UploadId, cleanup);
    var t := FailFinalize(s, req, cleanup);
    assert t.active == forgotten.active;
    SetsKept(s, forgotten, t, r.user, r.uploadId);
    if r.meta.s3UploadId !in s.open {
      assert s.open - {r.meta.s3UploadId} == s.open;
    }
  }

  lemma SetsKept(s: State, forgotten: State, t: State, u: UserId, id: UploadId)
    requires t.active == forgotten.active && OnlyLeft(s, forgotten, u, id)
    ensures OnlyLeft(s, t, u, id)
  {
    forall v | v in s.active && v in t.active
      ensures SetLeft(s, t, v, u, id)
    {
      assert SetLeft(s, forgotten, v, u, id);
    }
  }

  // ------------------------------------------------------- step after step

  /** The number of bytes that a finished file has in storage: 28 more per chunk of 4 MiB. */
  function StoredSize(fileSize: nat): nat {
    fileSize + FILE_ENCRYPTION_OVERHEAD * ((fileSize + FILE_CHUNK_SIZE - 1) / FILE_CHUNK_SIZE)
  }

  ghost predicate Completed(s: State, t: State, e: Event)
    requires e.CompleteEvent? && e.req in s.finalizing
  {
    var r := s.finalizing[e.req];
    var x := r.meta.s3UploadId;
    if x !in s.open || e.complete.Refused? then FailedIn(s, t, e.req, e.cleanup)
    else
      && t.open == s.open - {x} && t.objects == s.objects[r.meta.storageKey := StoredSize(r.meta.fileSize)]
      && if e.complete.Acked?
         then && t.finalizing == s.finalizing[e.req := r.(phase := Assembled)]
              && t.metas == s.metas && t.index == s.index && t.active == s.active && t.rows == s.rows && t.chunking == s.chunking
         else Forgotten(s, t, e.req)
  }

  lemma CompleteLeaves(c: Config, s: State, e: Event)
    requires Core(c, s) && e.CompleteEvent? && e.req in s.finalizing && s.finalizing[e.req].phase.Started?
    ensures Completed(s, CompleteStep(s, e.req, e.complete, e.cleanup), e)
  {
    FailureLeaves(s, e.req, e.cleanup);
    if s.finalizing[e.req].meta.s3UploadId in s.open {
      AssembledAsExpected(c, s, e.req);
      AssembledLeaves(s, e);
    }
  }

  lemma AssembledLeaves(s: State, e: Event)
    requires e.CompleteEvent? && e.req in s.finalizing && s.finalizing[e.req].phase.Started?
    requires var r := s.finalizing[e.req];
             && r.meta.s3UploadId in s.open && HasParts(s.open[r.meta.s3UploadId].parts, |r.meta.parts|)
             && s.open[r.meta.s3UploadId].key == r.meta.storageKey
             && AssembledSize(s.open[r.meta.s3UploadId].parts, |r.meta.parts|) == StoredSize(r.meta.fileSize)
    requires FailedIn(s, FailFinalize(s, e.req, e.cleanup), e.req, e.cleanup)
    ensures Completed(s, CompleteStep(s, e.req, e.complete, e.cleanup), e)
  {
    var r := s.finalizing[e.req];
    var assembled := Assemble(s, r.meta.s3UploadId, |r.meta.parts|);
    FailureLeaves(assembled, e.req, e.cleanup);
    LateFailure(s, assembled, FailFinalize(assembled, e.req, e.cleanup), e.req, e.cleanup);
  }

  lemma LateFailure(s: State, assembled: State, t: State, req: RequestId, cleanup: Call)
    requires req in s.finalizing && s.finalizing[req].phase.Started?
    requires assembled == s.(open := s.open - {s.finalizing[req].meta.s3UploadId}, objects := assembled.objects, completed := assembled.completed)
    requires FailedIn(assembled, t, req, cleanup)
    ensures Forgotten(s, t, req) && t.open == s.open - {s.finalizing[req].meta.s3UploadId} && t.objects == assembled.objects
  {
    SetsFrom(s, assembled, t, s.finalizing[req].user, s.finalizing[req].uploadId);
    assert assembled.open - {s.finalizing[req].meta.s3UploadId} == assembled.open;
  }

  /**
   A Complete call that is acknowledged closes the upload and makes its object, of exactly the stored size of the file. If
   it is refused, or the upload is closed, the upload is aborted and forgotten; if its reply is lost the object is made all
   the same, and stays behind although the upload is forgotten.
   */
  lemma CompleteOutcome(c: Config, events: seq<Event>, states: seq<State>, n: nat)
    requires IsRun(c, events, states) && n < |events| && events[n].CompleteEvent?
    ensures events[n].req in states[n].finalizing && Completed(states[n], states[n + 1], events[n])
  {
    RunKeepsCore(c, events, states, n);
    StepAt(c, events, states, n);
    CompleteLeaves(c, states[n], events[n]);
  }

  /** The size check goes on with the request if storage answers, as the object has its size; else all is given up. */
  lemma HeadOutcome(c: Config, events: seq<Event>, states: seq<State>, n: nat)
    requires IsRun(c, events, states) && n < |events| && events[n].HeadEvent?
    ensures var s, t, e := states[n], states[n + 1], events[n];
            && e.req in s.finalizing
            && if e.head.Acked? then t == s.(finalizing := s.finalizing[e.req := s.finalizing[e.req].(phase := Checked)])
               else FailedIn(s, t, e.req, e.cleanup)
  {
    RunKeepsCore(c, events, states, n);
    StepAt(c, events, states, n);
    assert FinalizingOk(states[n], events[n].req);
    FailureLeaves(states[n], events[n].req, events[n].cleanup);
  }

  /** The transaction adds the file exactly if the database takes it and it fits the limits; else all is given up. */
  lemma CommitOutcome(c: Config, events: seq<Event>, states: seq<State>, n: nat)
    requires IsRun(c, events, states) && n < |events| && events[n].CommitEvent?
    ensures var s, t, e := states[n], states[n + 1], events[n];
            && e.req in s.finalizing
            && var r := s.finalizing[e.req];
               if e.dbOk && Fits(c, s, r.user, r.meta.fileSize)
               then t == s.(rows := s.rows + [FileRow(e.file, r.user, r.meta.storageKey, r.meta.fileSize, r.meta.s3UploadId)],
                            finalizing := s.finalizing[e.req := r.(phase := Recorded)])
               else FailedIn(s, t, e.req, e.cleanup)
  {
    StepAt(c, events, states, n);
    FailureLeaves(states[n], events[n].req, events[n].cleanup);
  }

  /** After the row is recorded, everything that tracked the upload goes; the file and its object stay. */
  lemma CleanupOutcome(c: Config, events: seq<Event>, states: seq<State>, n: nat)
    requires IsRun(c, events, states) && n < |events| && events[n].CleanupEvent?
    ensures events[n].req in states[n].finalizing && Forgotten(states[n], states[n + 1], events[n].req)
    ensures states[n + 1].open == states[n].open && states[n + 1].objects == states[n].objects
  {
    StepAt(c, events, states, n);
    ForgetLeaves(states[n], states[n + 1], events[n].req);
  }

  // -------------------------------------------------- limits over whole runs

  /** No user ever has more than 2 GiB, or 50 GiB with the admin limits, and no file is larger than its owner may have. */
  lemma LimitsHold(c: Config, events: seq<Event>, states: seq<State>, n: nat, u: UserId)
    requires IsRun(c, events, states) && n < |states|
    ensures Usage(states[n].rows, u) <= (if u in c.admins then 50 else 2) * GIB
    ensures forall row :: row in states[n].rows && row.owner == u ==>
              u in c.users && 1 <= row.size && if u in c.admins then row.size <= 50 * GIB else row.size < 2 * GIB
  {
    RecordedFilesAreGenuine(c, events, states, n);
    RunKeepsCore(c, events, states, n);
    assert Usage(states[n].rows, u) <= QuotaLimit(c, u);
    forall row | row in states[n].rows && row.owner == u
      ensures 1 <= row.size <= MaxFileSize(c, u) && u in c.users
    {
      assert RowOk(states[n], row);
    }
  }

  // ----------------------------------------------------- deletion and time

  /** Exactly the file with this id goes, and its object unless storage refuses. */
  lemma DeleteFileOutcome(c: Config, events: seq<Event>, states: seq<State>, n: nat)
    requires IsRun(c, events, states) && n < |events| && events[n].DeleteFileEvent?
    ensures var s, t, e := states[n], states[n + 1], events[n];
            && (forall r :: r in t.rows <==> r in s.rows && r.id != e.file)
            && (forall key :: key in t.objects <==>
                  key in s.objects && (e.call.Refused? || forall r :: r in s.rows && r.id == e.file ==> r.storageName != key))
            && (forall key :: key in t.objects ==> t.objects[key] == s.objects[key])
            && t == s.(rows := t.rows, objects := t.objects)
  {
    StepAt(c, events, states, n);
    RowsWithoutIs(states[n].rows, HasId(events[n].file));
  }

  /** Exactly the files of the user go, with their objects but for those whose deletion fails, and all that tracks uploads of his. */
  lemma AdminClearOutcome(c: Config, events: seq<Event>, states: seq<State>, n: nat)
    requires IsRun(c, events, states) && n < |events| && events[n].AdminClearEvent?
    ensures var s, t, e := states[n], states[n + 1], events[n];
            && (forall r :: r in t.rows <==> r in s.rows && r.owner != e.u)
            && (forall k :: k in t.metas <==> k in s.metas && k.0 != e.u) && (forall k :: k in t.metas ==> t.metas[k] == s.metas[k])
            && t.active == s.active - {e.u} && t.index == s.index
            && (forall key :: key in t.objects <==>
                  key in s.objects && (key in e.stuck || forall r :: r in s.rows && r.owner == e.u ==> r.storageName != key))
            && (forall k :: k in s.metas && k.0 == e.u && !e.calls(s.metas[k].meta.s3UploadId).Refused? ==>
                  s.metas[k].meta.s3UploadId !in t.open)
  {
    StepAt(c, events, states, n);
    var s, e := states[n], events[n];
    RowsWithoutIs(s.rows, OwnedBy(e.u));
    var keys := ObjectsOf(s.rows, OwnedBy(e.u)) - e.stuck;
    var emptied := s.(rows := RowsWithout(s.rows, OwnedBy(e.u)), objects := s.objects - keys);
    ClearMetasKeepsRest(emptied, e.u, e.listed, e.calls);
    ClearedKeys(s, e.u, e.listed);
    ClearMetasFields(emptied, e.u, e.listed, e.calls);
    ClearMetasKeepsRows(emptied, e.u, e.listed, e.calls);
    forall id | (e.u, id) in s.metas && !e.calls(s.metas[(e.u, id)].meta.s3UploadId).Refused?
      ensures s.metas[(e.u, id)].meta.s3UploadId !in states[n + 1].open
    {
      ClearedIsClosed(emptied, e.u, e.listed, e.calls, id);
    }
  }

  lemma ClearedKeys(s: State, u: UserId, ids: seq<UploadId>)
    requires forall id :: (u, id) in s.metas ==> id in ids
    ensures forall k :: k in s.metas - MetaKeys(u, ids) <==> k in s.metas && k.0 != u
  {
    forall k | k in s.metas && k.0 == u
      ensures k in MetaKeys(u, ids)
    {
      assert k == (u, k.1);
      ListedKeys(u, ids, k.1);
    }
    forall k | k in MetaKeys(u, ids)
      ensures k.0 == u
    {
      OnlyOf(u, ids, k);
    }
  }

  lemma {:induction false} OnlyOf(u: UserId, ids: seq<UploadId>, k: (UserId, UploadId))
    requires k in MetaKeys(u, ids)
    ensures k.0 == u
  {
    if k != (u, ids[0]) {
      OnlyOf(u, ids[1..], k);
    }
  }

  lemma {:induction false} ClearMetasFields(s: State, u: UserId, ids: seq<UploadId>, calls: S3Id -> Call)
    ensures var t := ClearMetas(s, u, ids, calls);
            t.index == s.index && t.objects == s.objects && t.open.Keys <= s.open.Keys
    decreases |ids|
  {
    if ids != [] {
      ClearMetaFields(s, u, ids[0], calls);
      ClearMetasFields(ClearMeta(s, u, ids[0], calls), u, ids[1..], calls);
    }
  }

  lemma AbortCloses(s: State, x: S3Id, call: Call)
    ensures Abort(s, x, call).open.Keys <= s.open.Keys
    ensures !call.Refused? ==> x !in Abort(s, x, call).open
  {
  }

  lemma ClearMetaFields(s: State, u: UserId, id: UploadId, calls: S3Id -> Call)
    ensures var t := ClearMeta(s, u, id, calls);
            t.index == s.index && t.objects == s.objects && t.open.Keys <= s.open.Keys
    ensures (u, id) in s.metas && !calls(s.metas[(u, id)].meta.s3UploadId).Refused? ==>
              s.metas[(u, id)].meta.s3UploadId !in ClearMeta(s, u, id, calls).open
  {
    if (u, id) in s.metas {
      var x := s.metas[(u, id)].meta.s3UploadId;
      var removed := s.(metas := s.metas - {(u, id)});
      AbortFields(removed, x, calls(x));
      AbortCloses(removed, x, calls(x));
    }
  }

  lemma {:induction false} ClearedIsClosed(s: State, u: UserId, ids: seq<UploadId>, calls: S3Id -> Call, id: UploadId)
    requires (u, id) in s.metas && id in ids && !calls(s.metas[(u, id)].meta.s3UploadId).Refused?
    ensures s.metas[(u, id)].meta.s3UploadId !in ClearMetas(s, u, ids, calls).open
    decreases |ids|
  {
    var next := ClearMeta(s, u, ids[0], calls);
    ClearMetaFields(s, u, ids[0], calls);
    ClearMetasFields(next, u, ids[1..], calls);
    if id != ids[0] {
      assert ids == [ids[0]] + ids[1..];
      ClearMetaRemoves(s, u, ids[0], calls);
      ClearedIsClosed(next, u, ids[1..], calls, id);
    }
  }

  /** As time passes, Redis drops exactly what is due. */
  lemma TickOutcome(c: Config, events: seq<Event>, states: seq<State>, n: nat)
    requires IsRun(c, events, states) && n < |events| && events[n].TickEvent?
    ensures var s, t := states[n], states[n + 1];
            var now := s.now + events[n].dt;
            && t == s.(now := now, metas := t.metas, active := t.active, index := t.index)
            && (forall k :: k in t.metas <==> k in s.metas && now < s.metas[k].expiresAt)
            && (forall u :: u in t.active <==> u in s.active && now < s.active[u].expiresAt)
            && (forall x :: x in t.index <==> x in s.index && now < s.index[x].expiresAt)
            && (forall k :: k in t.metas ==> t.metas[k] == s.metas[k]) && (forall u :: u in t.active ==> t.active[u] == s.active[u])
            && (forall x :: x in t.index ==> t.index[x] == s.index[x])
  {
    StepAt(c, events, states, n);
  }
}
