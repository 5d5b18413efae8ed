/** When an upload was last in use, as its metadata tells and as the sweep goes by. */
module UploadActivity {
  import opened FileFormat
  import opened UploadProtocol
  import opened UploadSafety
  import opened UploadSteps
  import opened ActiveUploads
  import opened UploadGuarantees
  import opened UploadOutcomes

  // ------------------------------------------------------ the last accepted chunk

  /** The event is an accepted chunk of this upload, on its way to storage or acknowledged by it. */
  ghost predicate AcceptsChunk(s: State, e: Event, t: State, k: (UserId, UploadId)) {
    || (e.BeginChunkEvent? && (e.u, e.id) == k && e.req in t.chunking)
    || (e.FinishChunkEvent? && e.req in s.chunking && (s.chunking[e.req].user, s.chunking[e.req].uploadId) == k
        && k in s.metas && k in t.metas && t.metas[k].meta.nextExpectedChunk == s.metas[k].meta.nextExpectedChunk + 1)
  }

  /** The event creates the upload, or is an accepted chunk of it. */
  ghost predicate Uses(s: State, e: Event, t: State, k: (UserId, UploadId)) {
    k in t.metas && (k !in s.metas || AcceptsChunk(s, e, t, k))
  }

  /** What an event does to the metadata of one upload that is there after it. */
  ghost predicate MetaCourse(s: State, e: Event, t: State, k: (UserId, UploadId)) {
    k in t.metas ==>
      if Uses(s, e, t, k)
      then t.metas[k].meta.updatedAt == s.now && t.metas[k].expiresAt == s.now + UPLOAD_META_TTL
      else t.metas[k] == s.metas[k]
  }

  lemma InitCourse(c: Config, s: State, e: Event, k: (UserId, UploadId))
    requires Core(c, s) && e.InitEvent? && Enabled(s, e)
    ensures MetaCourse(s, e, Step(c, s, e), k)
  {
    var tracked := Track(Create(s, e.u, e.fileSize, e.ids), e.u, e.fileSize, e.ids);
    InitCases(c, s, e.u, e.fileSize, e.totalChunks, e.live, e.lockFree, e.ids, e.create, e.order, e.calls, e.undo);
    MakeRoomFinishesNone(c, tracked, e.u, e.order, e.calls);
    var room := MakeRoom(c, tracked, e.u, e.order, e.calls).0;
    ForgetFields(room, e.u, e.ids.uploadId, e.ids.s3);
    AbortFields(Forget(room, e.u, e.ids.uploadId, e.ids.s3), e.ids.s3, e.undo);
    if k in s.metas {
      assert MetaOk(s, k);
    }
  }

  lemma ChunkCourse(c: Config, s: State, e: Event, k: (UserId, UploadId))
    requires Core(c, s) && (e.BeginChunkEvent? || e.FinishChunkEvent?) && Enabled(s, e)
    ensures MetaCourse(s, e, Step(c, s, e), k)
  {
    if e.BeginChunkEvent? {
      BeginCourse(s, e, k);
    } else {
      assert ChunkingOk(s, e.req);
      FinishCourse(s, e, k);
    }
  }

  lemma BeginCourse(s: State, e: Event, k: (UserId, UploadId))
    requires e.BeginChunkEvent? && e.req !in s.chunking
    ensures MetaCourse(s, e, BeginChunk(s, e.u, e.id, e.chunkIndex, e.size, e.req).0, k)
  {
    var t := BeginChunk(s, e.u, e.id, e.chunkIndex, e.size, e.req).0;
    BeginChunkLeaves(s, e);
    BegunCourse(s, e, t, k);
  }

  lemma BegunCourse(s: State, e: Event, t: State, k: (UserId, UploadId))
    requires e.BeginChunkEvent? && ChunkBegun(s, t, e)
    ensures MetaCourse(s, e, t, k)
  {
  }

  lemma FinishCourse(s: State, e: Event, k: (UserId, UploadId))
    requires e.FinishChunkEvent? && e.req in s.chunking && s.chunking[e.req].meta.nextExpectedChunk < s.chunking[e.req].meta.totalChunks
    requires var r := s.chunking[e.req];
             (r.user, r.uploadId) in s.metas ==> s.metas[(r.user, r.uploadId)].meta == r.meta
    ensures MetaCourse(s, e, FinishChunk(s, e.req, e.put, e.late).0, k)
  {
    FinishChunkLeaves(s, e);
    FinishedCourse(s, e, FinishChunk(s, e.req, e.put, e.late).0, k);
  }

  lemma FinishedCourse(s: State, e: Event, t: State, k: (UserId, UploadId))
    requires e.FinishChunkEvent? && e.req in s.chunking && ChunkFinished(s, t, e)
    requires var r := s.chunking[e.req];
             (r.user, r.uploadId) in s.metas ==> s.metas[(r.user, r.uploadId)].meta == r.meta
    ensures MetaCourse(s, e, t, k)
  {
  }

  lemma FinalizeCourse(c: Config, s: State, e: Event, k: (UserId, UploadId))
    requires e.CompleteEvent? || e.HeadEvent? || e.CommitEvent? || e.CleanupEvent?
    requires Enabled(s, e)
    ensures MetaCourse(s, e, Step(c, s, e), k)
  {
    var r := s.finalizing[e.req];
    match e
    case CompleteEvent(req, _, cleanup) =>
      FailFinalizeFields(s, req, cleanup);
      var x := r.meta.s3UploadId;
      if x in s.open && HasParts(s.open[x].parts, |r.meta.parts|) {
        FailFinalizeFields(Assemble(s, x, |r.meta.parts|), req, cleanup);
      }
    case HeadEvent(req, _, cleanup) => FailFinalizeFields(s, req, cleanup);
    case CommitEvent(req, _, _, cleanup) => FailFinalizeFields(s, req, cleanup);
    case CleanupEvent(req) => ForgetFields(s.(finalizing := s.finalizing - {req}), r.user, r.uploadId, r.meta.s3UploadId);
  }

  lemma {:induction false} SweepShrinks(s: State, listed: seq<S3Id>, env: SweepEnv)
    ensures SubMap(SweepAll(s, listed, env).metas, s.metas)
    decreases |listed|
  {
    if listed != [] {
      SweepOneFields(s, listed[0], env);
      SweepShrinks(SweepOne(s, listed[0], env), listed[1..], env);
    }
  }

  lemma OtherCourse(c: Config, s: State, e: Event, k: (UserId, UploadId))
    requires e.StartFinalizeEvent? || e.CancelEvent? || e.DeleteFileEvent? || e.AdminClearEvent? || e.SweepEvent? || e.TickEvent?
    ensures MetaCourse(s, e, Step(c, s, e), k)
  {
    match e
    case StartFinalizeEvent(_, _, _, _, _) =>
    case CancelEvent(u, id, call) => CancelFields(s, u, id, call);
    case DeleteFileEvent(_, _) =>
    case AdminClearEvent(u, listed, stuck, calls) =>
      var keys := ObjectsOf(s.rows, OwnedBy(u)) - stuck;
      ClearMetasKeepsRest(s.(rows := RowsWithout(s.rows, OwnedBy(u)), objects := s.objects - keys), u, listed, calls);
    case SweepEvent(listing, env) => SweepShrinks(s, listing, env);
    case TickEvent(_) =>
  }

  lemma StepCourse(c: Config, s: State, e: Event, k: (UserId, UploadId))
    requires Core(c, s) && Enabled(s, e)
    ensures MetaCourse(s, e, Step(c, s, e), k)
  {
    match e
    case InitEvent(_, _, _, _, _, _, _, _, _, _) => InitCourse(c, s, e, k);
    case BeginChunkEvent(_, _, _, _, _) => ChunkCourse(c, s, e, k);
    case FinishChunkEvent(_, _, _) => ChunkCourse(c, s, e, k);
    case CompleteEvent(_, _, _) => FinalizeCourse(c, s, e, k);
    case HeadEvent(_, _, _) => FinalizeCourse(c, s, e, k);
    case CommitEvent(_, _, _, _) => FinalizeCourse(c, s, e, k);
    case CleanupEvent(_) => FinalizeCourse(c, s, e, k);
    case _ => OtherCourse(c, s, e, k);
  }

  lemma NextCourse(c: Config, events: seq<Event>, states: seq<State>, n: nat, k: (UserId, UploadId))
    requires IsRun(c, events, states) && n < |events|
    ensures MetaCourse(states[n], events[n], states[n + 1], k)
  {
    RunKeepsCore(c, events, states, n);
    StepAt(c, events, states, n);
    StepCourse(c, states[n], events[n], k);
  }

  /** Event i used the upload, and no later one before n did. */
  ghost predicate LastUse(events: seq<Event>, states: seq<State>, i: nat, n: nat, k: (UserId, UploadId))
    requires |states| == |events| + 1 && i < n < |states|
  {
    && Uses(states[i], events[i], states[i + 1], k)
    && forall j :: i < j < n ==> k in states[j].metas && !Uses(states[j], events[j], states[j + 1], k)
  }

  /**
   The time in the metadata of an upload is, in every run, that of its last accepted chunk, or of its creation if there
   was none; and one day after that time, and no earlier, the metadata expires.
   */
  lemma UpdatedAtIsLastUse(c: Config, events: seq<Event>, states: seq<State>, n: nat, k: (UserId, UploadId))
      returns (i: nat)
    requires IsRun(c, events, states) && n < |states| && k in states[n].metas
    ensures i < n && LastUse(events, states, i, n, k)
    ensures states[n].metas[k].meta.updatedAt == states[i].now
    ensures states[n].metas[k].expiresAt == states[i].now + 24 * 60 * 60 * 1000
  {
    i := LastUseOf(c, events, states, n, k);
  }

  lemma {:induction false} LastUseOf(c: Config, events: seq<Event>, states: seq<State>, n: nat, k: (UserId, UploadId)) returns (i: nat)
    requires IsRun(c, events, states) && n < |states| && k in states[n].metas
    ensures i < n && LastUse(events, states, i, n, k)
    ensures states[n].metas[k].meta.updatedAt == states[i].now && states[n].metas[k].expiresAt == states[i].now + UPLOAD_META_TTL
  {
    if n == 0 {
      assert false;
    }
    NextCourse(c, events, states, n - 1, k);
    if Uses(states[n - 1], events[n - 1], states[n - 1 + 1], k) {
      i := n - 1;
    } else {
      i := LastUseOf(c, events, states, n - 1, k);
      UseStaysLast(events, states, i, n - 1, k);
    }
  }

  lemma UseStaysLast(events: seq<Event>, states: seq<State>, i: nat, n: nat, k: (UserId, UploadId))
    requires |states| == |events| + 1 && i < n < |events| && LastUse(events, states, i, n, k)
    requires k in states[n].metas && !Uses(states[n], events[n], states[n + 1], k)
    ensures LastUse(events, states, i, n + 1, k)
  {
  }

  // ---------------------------------------------------------------- sweep

  /** The index of x points to metadata. */
  ghost predicate TrackedBy(s: State, x: S3Id, k: (UserId, UploadId)) {
    x in s.index && (s.index[x].user, s.index[x].uploadId) == k && k in s.metas
  }

  lemma {:induction false} RecentIsSpared(c: Config, s: State, listed: seq<S3Id>, env: SweepEnv, x: S3Id)
    requires Core(c, s) && (x in s.open ==> IsRecent(s, x, env))
    ensures SameFor(s, SweepAll(s, listed, env), x)
    decreases |listed|
  {
    if listed != [] {
      var next := SweepOne(s, listed[0], env);
      SweepOneKeepsCore(c, s, listed[0], env);
      if listed[0] == x {
        if x in s.open {
          IdleMeansNotRecent(s, x, env);
        }
        assert next == s;
      } else {
        SweepOneOthers(c, s, listed[0], x, env);
        SameIsRecent(s, next, x, env);
      }
      RecentIsSpared(c, next, listed[1..], env, x);
      SameForGone(s, next, SweepAll(s, listed, env), x);
    }
  }

  lemma SameIsRecent(s: State, t: State, x: S3Id, env: SweepEnv)
    requires SameFor(s, t, x)
    ensures x in t.open <==> x in s.open
    ensures x in s.open ==> (IsRecent(t, x, env) <==> IsRecent(s, x, env))
  {
  }

  lemma {:induction false} IdleIsClosed(c: Config, s: State, listed: seq<S3Id>, env: SweepEnv, x: S3Id)
    requires Core(c, s) && x in listed && x in s.open && !IsRecent(s, x, env) && env.calls(x).Acked?
    ensures Gone(s, SweepAll(s, listed, env), x)
    decreases |listed|
  {
    var next := SweepOne(s, listed[0], env);
    if listed[0] == x {
      IdleMeansNotRecent(s, x, env);
      SweptIsGone(s, x, env);
      GoneStays(s, next, listed[1..], env, x);
    } else {
      assert listed == [listed[0]] + listed[1..];
      SweepOneOthers(c, s, listed[0], x, env);
      SweepOneKeepsCore(c, s, listed[0], env);
      SameIsRecent(s, next, x, env);
      IdleIsClosed(c, next, listed[1..], env, x);
      SameForGone(s, next, SweepAll(s, listed, env), x);
    }
  }

  ghost predicate Untracked(s: State, x: S3Id) {
    forall k :: !TrackedBy(s, x, k)
  }

  /** All that storage knows of the upload happened by then. */
  ghost predicate StoredBy(s: State, x: S3Id, cutoff: int)
    requires x in s.open
  {
    s.open[x].initiated <= cutoff && forall p :: p in s.open[x].parts ==> s.open[x].parts[p].modified <= cutoff
  }

  lemma TrackedOrNot(s: State, x: S3Id)
    ensures Untracked(s, x) <==> !(x in s.index && (s.index[x].user, s.index[x].uploadId) in s.metas)
  {
    if x in s.index && (s.index[x].user, s.index[x].uploadId) in s.metas {
      assert TrackedBy(s, x, (s.index[x].user, s.index[x].uploadId));
    }
  }

  /**
   In every run, whatever the sweep lists and in which order: an upload whose metadata says that it was in use after the
   cutoff is untouched; so is one that nothing tracks any more if storage knows of later activity, or cannot tell.
   */
  lemma SweepSparesRecent(c: Config, events: seq<Event>, states: seq<State>, n: nat, x: S3Id)
    requires IsRun(c, events, states) && n < |events| && events[n].SweepEvent?
    requires var s, env := states[n], events[n].env;
             || (exists k :: TrackedBy(s, x, k) && s.metas[k].meta.updatedAt > env.cutoff)
             || (Untracked(s, x) && x in s.open && (x in env.unreadable || !StoredBy(s, x, env.cutoff)))
    ensures SameFor(states[n], states[n + 1], x)
  {
    RunKeepsCore(c, events, states, n);
    StepAt(c, events, states, n);
    TrackedOrNot(states[n], x);
    RecentIsSpared(c, states[n], events[n].listing, events[n].env, x);
  }

  /**
   An open upload that the sweep lists, whose abort is acknowledged, is gone with everything that tracks it if its metadata
   says that it was last in use by the cutoff, or, when nothing tracks it any more, if storage can tell that.
   */
  lemma SweepClosesIdle(c: Config, events: seq<Event>, states: seq<State>, n: nat, x: S3Id)
    requires IsRun(c, events, states) && n < |events| && events[n].SweepEvent?
    requires x in events[n].listing && x in states[n].open && events[n].env.calls(x).Acked?
    requires var s, env := states[n], events[n].env;
             || (exists k :: TrackedBy(s, x, k) && s.metas[k].meta.updatedAt <= env.cutoff)
             || (Untracked(s, x) && x !in env.unreadable && StoredBy(s, x, env.cutoff))
    ensures Gone(states[n], states[n + 1], x)
  {
    RunKeepsCore(c, events, states, n);
    StepAt(c, events, states, n);
    TrackedOrNot(states[n], x);
    IdleIsClosed(c, states[n], events[n].listing, events[n].env, x);
  }
}
