/** What an initialisation leaves, field by field, in every run: when it is let in, and which uploads make room for it. */
module InitOutcomes {
  import opened Sequences
  import opened FileFormat
  import opened UploadProtocol
  import opened UploadSafety
  import opened UploadSteps
  import opened ActiveUploads
  import opened UploadGuarantees
  import opened UploadOutcomes
  import opened FinalizeOutcomes

  // ------------------------------------------------- what eviction demands

  lemma {:induction false} EvictedAcked(s: State, u: UserId, victims: seq<Candidate>, calls: S3Id -> Call)
    requires EvictAll(s, u, victims, calls).1
    ensures forall v :: v in victims ==> v.meta.s3UploadId in s.open && calls(v.meta.s3UploadId).Acked?
    decreases |victims|
  {
    if victims != [] {
      var v := victims[0];
      EvictedAcked(Drop(s, u, v.uploadId, v.meta.s3UploadId, calls(v.meta.s3UploadId)), u, victims[1..], calls);
      assert victims == [v] + victims[1..];
    }
  }

  /** No two of the candidates have the same multipart upload. */
  ghost predicate DistinctUploads(victims: seq<Candidate>) {
    forall i, j :: 0 <= i < j < |victims| ==> victims[i].meta.s3UploadId != victims[j].meta.s3UploadId
  }

  lemma OwnUploads(s: State, u: UserId, victims: seq<Candidate>)
    requires DistinctIds(victims) && VictimsOk(s, u, victims)
    ensures DistinctUploads(victims)
  {
    forall i, j | 0 <= i < j < |victims|
      ensures victims[i].meta.s3UploadId != victims[j].meta.s3UploadId
    {
      assert victims[i] in victims && victims[j] in victims;
    }
  }

  /** An eviction runs through if every victim is open and its abort is acknowledged. */
  lemma {:induction false} AckedEvicts(s: State, u: UserId, victims: seq<Candidate>, calls: S3Id -> Call)
    requires DistinctUploads(victims)
    requires forall v :: v in victims ==> v.meta.s3UploadId in s.open && calls(v.meta.s3UploadId).Acked?
    ensures EvictAll(s, u, victims, calls).1
    decreases |victims|
  {
    if victims != [] {
      var v := victims[0];
      var x := v.meta.s3UploadId;
      assert v in victims;
      forall w | w in victims[1..]
        ensures w in victims && w.meta.s3UploadId != x
      {
        var j :| 1 <= j < |victims| && victims[j] == w;
      }
      AckedEvicts(Drop(s, u, v.uploadId, x, calls(x)), u, victims[1..], calls);
    }
  }

  /** The metadata at k is as before, or its upload was open and has been closed, as storage acknowledged. */
  ghost predicate KeptOrEvicted(s: State, t: State, k: (UserId, UploadId), calls: S3Id -> Call)
    requires k in s.metas
  {
    if k in t.metas then t.metas[k] == s.metas[k]
    else
      var x := s.metas[k].meta.s3UploadId;
      x in s.open && calls(x).Acked? && x !in t.open
  }

  lemma DropFields(s: State, u: UserId, id: UploadId, x: S3Id, call: Call)
    ensures var t := Drop(s, u, id, x, call);
            if AbortSucceeds(s, x, call) then t.metas == s.metas - {(u, id)} && t.open == s.open - {x}
            else t.metas == s.metas && t.open.Keys <= s.open.Keys
  {
  }

  lemma KeptThrough(s: State, next: State, t: State, k: (UserId, UploadId), calls: S3Id -> Call)
    requires k in s.metas && k in next.metas && next.metas[k] == s.metas[k] && next.open.Keys <= s.open.Keys
    requires KeptOrEvicted(next, t, k, calls)
    ensures KeptOrEvicted(s, t, k, calls)
  {
  }

  lemma {:induction false} EvictAllLoses(s: State, u: UserId, victims: seq<Candidate>, calls: S3Id -> Call)
    requires forall v :: v in victims && (u, v.uploadId) in s.metas ==> s.metas[(u, v.uploadId)].meta == v.meta
    ensures forall k :: k in s.metas ==> KeptOrEvicted(s, EvictAll(s, u, victims, calls).0, k, calls)
    ensures EvictAll(s, u, victims, calls).0.open.Keys <= s.open.Keys
    decreases |victims|
  {
    if victims != [] {
      var v := victims[0];
      var x := v.meta.s3UploadId;
      assert victims == [v] + victims[1..];
      DropFields(s, u, v.uploadId, x, calls(x));
      if AbortSucceeds(s, x, calls(x)) {
        var next := Drop(s, u, v.uploadId, x, calls(x));
        var t := EvictAll(next, u, victims[1..], calls).0;
        EvictAllLoses(next, u, victims[1..], calls);
        EvictAllMetas(next, u, victims[1..], calls);
        forall k | k in s.metas
          ensures KeptOrEvicted(s, t, k, calls)
        {
          if k != (u, v.uploadId) {
            KeptThrough(s, next, t, k, calls);
          }
        }
      }
    }
  }

  // ------------------------------------------------------------ the outcome

  /** The link may live, the file fits, its chunks are counted in 4 MiB, and no other initialisation of the user is at work. */
  ghost predicate MayInit(c: Config, s: State, e: Event)
    requires e.InitEvent?
  {
    && e.live && e.lockFree && Fits(c, s, e.u, e.fileSize)
    && e.totalChunks == (e.fileSize + FILE_CHUNK_SIZE - 1) / FILE_CHUNK_SIZE
  }

  /** The active uploads of the user that can still be resumed. */
  ghost function Resumable(s: State, u: UserId): set<UploadId> {
    set id | u in s.active && id in s.active[u].ids && (u, id) in s.metas
  }

  function NewMeta(s: State, e: Event): UploadMeta
    requires e.InitEvent? && e.totalChunks >= 0
  {
    UploadMeta(e.totalChunks, 0, e.fileSize, e.ids.key, e.ids.s3, [], s.now, s.now)
  }

  ghost function KeysOf(u: UserId, ids: set<UploadId>): set<(UserId, UploadId)> {
    set id | id in ids :: (u, id)
  }

  /** The multipart uploads of these uploads of the user. */
  ghost function StorageIds(s: State, u: UserId, ids: set<UploadId>): set<S3Id>
    requires forall id :: id in ids ==> (u, id) in s.metas
  {
    set id | id in ids :: s.metas[(u, id)].meta.s3UploadId
  }

  /** The new upload is open, tracked for a day and active next to these ids; the evicted ones are gone, and nothing else changed. */
  ghost predicate Admitted(s: State, t: State, e: Event, evicted: set<UploadId>, others: set<UploadId>)
    requires e.InitEvent? && e.totalChunks >= 0 && forall id :: id in evicted ==> (e.u, id) in s.metas
  {
    var expiry := s.now + UPLOAD_META_TTL;
    var gone := StorageIds(s, e.u, evicted);
    && t.metas == s.metas[(e.u, e.ids.uploadId) := MetaEntry(NewMeta(s, e), expiry)] - KeysOf(e.u, evicted)
    && t.index == s.index[e.ids.s3 := StorageIndex(e.u, e.ids.uploadId, expiry)] - gone
    && t.open == s.open[e.ids.s3 := Multipart(e.ids.key, s.now, map[])] - gone
    && t.active == s.active[e.u := ActiveSet(others + {e.ids.uploadId}, expiry)]
    && SameOutsideRedis(s.(open := t.open), t)
  }

  /** As many of the resumable uploads as must go to leave room for one more, none of them newer than one that stays. */
  ghost predicate Oldest(c: Config, s: State, u: UserId, out: set<UploadId>) {
    && out <= Resumable(s, u)
    && |out| == (if |Resumable(s, u)| < c.cap then 0 else |Resumable(s, u)| - c.cap + 1)
    && (forall id, other :: id in out && other in Resumable(s, u) - out ==>
          s.metas[(u, id)].meta.createdAt <= s.metas[(u, other)].meta.createdAt)
  }

  /** The upload is open and its abort is acknowledged. */
  ghost predicate MayBeEvicted(s: State, u: UserId, calls: S3Id -> Call, id: UploadId) {
    && (u, id) in s.metas
    && var x := s.metas[(u, id)].meta.s3UploadId;
       x in s.open && calls(x).Acked?
  }

  /** Nothing tracks the new upload and, unless its abort was refused, it is closed; the uploads there were are kept or evicted. */
  ghost predicate TurnedAway(s: State, t: State, e: Event)
    requires e.InitEvent?
  {
    && (e.u, e.ids.uploadId) !in t.metas && e.ids.s3 !in t.index && Inactive(t, e.u, e.ids.uploadId)
    && (e.ids.s3 in t.open <==> e.undo.Refused?)
    && t.metas.Keys <= s.metas.Keys
    && forall k :: k in s.metas ==> KeptOrEvicted(s, t, k, e.calls)
  }

  /** What an initialisation leaves that storage has acknowledged. */
  ghost predicate Initialised(c: Config, s: State, t: State, e: Event)
    requires e.InitEvent? && e.totalChunks >= 0
  {
    var ids := if e.u in s.active then s.active[e.u].ids else {};
    if |ids| < c.cap then Admitted(s, t, e, {}, ids)
    else
      exists out :: Oldest(c, s, e.u, out) &&
        if forall id :: id in out ==> MayBeEvicted(s, e.u, e.calls, id) then Admitted(s, t, e, out, Resumable(s, e.u) - out)
        else TurnedAway(s, t, e)
  }

  // ---------------------------------------------------------------- proofs

  /** The state with the new upload open and tracked, before room is made. */
  ghost predicate Begun(s: State, t: State, e: Event)
    requires e.InitEvent? && e.totalChunks >= 0
  {
    var expiry := s.now + UPLOAD_META_TTL;
    && t.metas == s.metas[(e.u, e.ids.uploadId) := MetaEntry(NewMeta(s, e), expiry)]
    && t.index == s.index[e.ids.s3 := StorageIndex(e.u, e.ids.uploadId, expiry)]
    && t.open == s.open[e.ids.s3 := Multipart(e.ids.key, s.now, map[])]
    && t.active == s.active && SameOutsideRedis(s.(open := t.open), t)
  }

  function Beginning(s: State, e: Event): State
    requires e.InitEvent?
  {
    Track(Create(s, e.u, e.fileSize, e.ids), e.u, e.fileSize, e.ids)
  }

  lemma BeginningIs(s: State, e: Event)
    requires e.InitEvent? && e.totalChunks == ChunkCount(e.fileSize)
    ensures Begun(s, Beginning(s, e), e)
  {
  }

  lemma LetInExactly(c: Config, s: State, e: Event)
    requires e.InitEvent?
    ensures MayInit(c, s, e) <==> InitAllowed(c, s, e.u, e.fileSize, e.totalChunks, e.live, e.lockFree)
    ensures MayInit(c, s, e) ==> e.totalChunks == ChunkCount(e.fileSize)
  {
  }

  /** The state that the outcome of making room leads to. */
  function AfterRoom(e: Event, room: (State, bool)): State
    requires e.InitEvent?
  {
    if room.1 then Reserve(room.0, e.u, e.ids.uploadId)
    else Abort(Forget(room.0, e.u, e.ids.uploadId, e.ids.s3), e.ids.s3, e.undo)
  }

  lemma AcknowledgedInit(c: Config, s: State, e: Event)
    requires e.InitEvent? && e.create.Acked? && MayInit(c, s, e)
    ensures var room := MakeRoom(c, Beginning(s, e), e.u, e.order, e.calls);
            && Step(c, s, e) == AfterRoom(e, room)
            && Init(c, s, e.u, e.fileSize, e.totalChunks, e.live, e.lockFree, e.ids, e.create, e.order, e.calls, e.undo).1.Accepted? == room.1
  {
    LetInExactly(c, s, e);
  }

  lemma AdmittedFrom(s: State, begun: State, room: State, e: Event, evicted: set<UploadId>, others: set<UploadId>)
    requires e.InitEvent? && e.totalChunks >= 0 && Begun(s, begun, e)
    requires forall id :: id in evicted ==> (e.u, id) in s.metas
    requires room.metas == begun.metas - KeysOf(e.u, evicted)
    requires room.index == begun.index - StorageIds(s, e.u, evicted) && room.open == begun.open - StorageIds(s, e.u, evicted)
    requires SameOutsideRedis(begun.(open := room.open), room) && Ids(room, e.u) == others
    requires var set' := ActiveSet(others + {e.ids.uploadId}, s.now + UPLOAD_META_TTL);
             room.active[e.u := set'] == s.active[e.u := set']
    ensures Admitted(s, Reserve(room, e.u, e.ids.uploadId), e, evicted, others)
  {
  }

  lemma AdmittedWithRoom(s: State, begun: State, e: Event)
    requires e.InitEvent? && e.totalChunks >= 0 && Begun(s, begun, e)
    ensures Admitted(s, Reserve(begun, e.u, e.ids.uploadId), e, {}, Ids(s, e.u))
  {
    assert StorageIds(s, e.u, {}) == {} && KeysOf(e.u, {}) == {};
    MinusAbsent(begun.metas, {});
    MinusAbsent(begun.index, {});
    MinusAbsent(begun.open, {});
    AdmittedFrom(s, begun, begun, e, {}, Ids(s, e.u));
  }

  /** The victims' keys and multipart uploads are those of their ids. */
  lemma VictimsById(s: State, u: UserId, victims: seq<Candidate>)
    requires forall v :: v in victims ==> (u, v.uploadId) in s.metas && v.meta == s.metas[(u, v.uploadId)].meta
    ensures VictimKeys(u, victims) == KeysOf(u, VictimIds(victims))
    ensures VictimUploads(victims) == StorageIds(s, u, VictimIds(victims))
  {
    forall v | v in victims
      ensures (u, v.uploadId) in KeysOf(u, VictimIds(victims))
      ensures v.meta.s3UploadId in StorageIds(s, u, VictimIds(victims))
    {
      assert v.uploadId in VictimIds(victims);
    }
  }

  lemma DropStaleLeaves(s: State, u: UserId)
    ensures var t := DropStale(s, u);
            t == s.(active := t.active) && Ids(t, u) == LiveIds(s, u) && t.active - {u} == s.active - {u}
  {
  }

  lemma WithoutLeaves(s: State, u: UserId, victims: seq<Candidate>)
    ensures var t := WithoutVictims(s, u, victims);
            && t == s.(metas := s.metas - VictimKeys(u, victims), index := s.index - VictimUploads(victims),
                       open := s.open - VictimUploads(victims), active := t.active)
            && Ids(t, u) == Ids(s, u) - VictimIds(victims) && t.active - {u} == s.active - {u}
  {
  }

  lemma SameButOne<K, V>(a: map<K, V>, b: map<K, V>, k: K, v: V)
    requires a - {k} == b - {k}
    ensures a[k := v] == b[k := v]
  {
    forall j | j != k
      ensures j in a <==> j in b
      ensures j in a ==> a[j] == b[j]
    {
      assert j in a - {k} <==> j in b - {k};
      assert j in a ==> (a - {k})[j] == (b - {k})[j];
    }
  }

  lemma AdmittedAfterEviction(s: State, begun: State, room: State, e: Event, victims: seq<Candidate>)
    requires e.InitEvent? && e.totalChunks >= 0 && Begun(s, begun, e) && LiveIds(begun, e.u) == Resumable(s, e.u)
    requires forall v :: v in victims ==> (e.u, v.uploadId) in s.metas && v.meta == s.metas[(e.u, v.uploadId)].meta
    requires room == WithoutVictims(DropStale(begun, e.u), e.u, victims)
    ensures Admitted(s, Reserve(room, e.u, e.ids.uploadId), e, VictimIds(victims), Resumable(s, e.u) - VictimIds(victims))
  {
    var others := Resumable(s, e.u) - VictimIds(victims);
    VictimsById(s, e.u, victims);
    DropStaleLeaves(begun, e.u);
    WithoutLeaves(DropStale(begun, e.u), e.u, victims);
    SameButOne(room.active, s.active, e.u, ActiveSet(others + {e.ids.uploadId}, s.now + UPLOAD_META_TTL));
    AdmittedFrom(s, begun, room, e, VictimIds(victims), others);
  }

  /** The victims are resumable uploads of the state before, as many as must go. */
  ghost predicate VictimsKnown(c: Config, s: State, u: UserId, victims: seq<Candidate>) {
    && VictimIds(victims) <= Resumable(s, u) && DistinctIds(victims)
    && |VictimIds(victims)| == (if |Resumable(s, u)| < c.cap then 0 else |Resumable(s, u)| - c.cap + 1)
    && forall v :: v in victims ==> (u, v.uploadId) in s.metas && v.meta == s.metas[(u, v.uploadId)].meta
  }

  lemma VictimsBefore(c: Config, s: State, begun: State, u: UserId, order: seq<UploadId>, new': UploadId)
    requires c.cap >= 1 && Lists(order, Ids(s, u)) && new' !in order && begun.active == s.active
    requires begun.metas.Keys == s.metas.Keys + {(u, new')} && SubMap(s.metas, begun.metas)
    ensures LiveIds(begun, u) == Resumable(s, u) && VictimsKnown(c, s, u, Victims(c, begun, u, order))
  {
    var victims := Victims(c, begun, u, order);
    var sorted := SortByAge(Candidates(begun, u, order));
    SortedCandidates(begun, u, order);
    assert LiveIds(begun, u) == Resumable(s, u);
    PrefixOfSorted(sorted, |victims|);
    assert victims == sorted[..|victims|];
    DistinctPrefix(sorted, |victims|);
    forall v | v in victims
      ensures (u, v.uploadId) in s.metas && v.meta == s.metas[(u, v.uploadId)].meta
    {
      assert v.uploadId in VictimIds(victims);
    }
  }

  lemma DistinctPrefix(sorted: seq<Candidate>, n: nat)
    requires DistinctIds(sorted) && n <= |sorted|
    ensures DistinctIds(sorted[..n])
  {
  }

  lemma InitLeaves(c: Config, s: State, e: Event)
    requires c.cap >= 1 && Core(c, s) && ActiveOk(c, s) && e.InitEvent? && FreshFor(s, e.ids) && Lists(e.order, Ids(s, e.u))
    requires e.create.Acked? && MayInit(c, s, e)
    ensures Initialised(c, s, Step(c, s, e), e)
    ensures Init(c, s, e.u, e.fileSize, e.totalChunks, e.live, e.lockFree, e.ids, e.create, e.order, e.calls, e.undo).1.Accepted?
        <==> (e.u, e.ids.uploadId) in Step(c, s, e).metas
  {
    LetInExactly(c, s, e);
    BeginningIs(s, e);
    AcknowledgedInit(c, s, e);
    NewIdNotListed(c, s, e.u, e.order, e.ids);
    ListedCount(e.order, Ids(s, e.u));
    NewIsUnused(c, s, e);
    RoomLeaves(c, s, Beginning(s, e), e);
  }

  lemma RoomLeaves(c: Config, s: State, begun: State, e: Event)
    requires c.cap >= 1 && Core(c, s) && e.InitEvent? && e.totalChunks >= 0 && Begun(s, begun, e) && FreshFor(s, e.ids)
    requires Lists(e.order, Ids(s, e.u)) && |e.order| == |Ids(s, e.u)| && e.ids.uploadId !in e.order
    requires (e.u, e.ids.uploadId) !in s.metas
    requires SubMap(s.metas, begun.metas) && forall k :: k in s.metas ==> s.metas[k].meta.s3UploadId != e.ids.s3
    ensures var room := MakeRoom(c, begun, e.u, e.order, e.calls);
            Initialised(c, s, AfterRoom(e, room), e) && ((e.u, e.ids.uploadId) in AfterRoom(e, room).metas <==> room.1)
  {
    if |e.order| < c.cap {
      AdmittedWithRoom(s, begun, e);
    } else {
      VictimsBefore(c, s, begun, e.u, e.order, e.ids.uploadId);
      FullRoomLeaves(c, s, begun, e, MakeRoom(c, begun, e.u, e.order, e.calls));
    }
  }

  lemma AdmittedIsTracked(s: State, t: State, e: Event, evicted: set<UploadId>, others: set<UploadId>)
    requires e.InitEvent? && e.totalChunks >= 0 && forall id :: id in evicted ==> (e.u, id) in s.metas
    requires (e.u, e.ids.uploadId) !in s.metas && Admitted(s, t, e, evicted, others)
    ensures (e.u, e.ids.uploadId) in t.metas
  {
  }

  lemma EvictedRoomLeaves(c: Config, s: State, begun: State, e: Event, room: (State, bool))
    requires c.cap >= 1 && Core(c, s) && e.InitEvent? && e.totalChunks >= 0 && Begun(s, begun, e) && FreshFor(s, e.ids)
    requires Lists(e.order, Ids(begun, e.u)) && |e.order| == |Ids(s, e.u)| >= c.cap
    requires (e.u, e.ids.uploadId) !in s.metas
    requires SubMap(s.metas, begun.metas) && forall k :: k in s.metas ==> s.metas[k].meta.s3UploadId != e.ids.s3
    requires LiveIds(begun, e.u) == Resumable(s, e.u) && VictimsKnown(c, s, e.u, Victims(c, begun, e.u, e.order))
    requires room == MakeRoom(c, begun, e.u, e.order, e.calls)
    requires room.1 && Oldest(c, s, e.u, VictimIds(Victims(c, begun, e.u, e.order)))
    ensures Initialised(c, s, AfterRoom(e, room), e)
    ensures (e.u, e.ids.uploadId) in AfterRoom(e, room).metas <==> room.1
  {
    var out := VictimIds(Victims(c, begun, e.u, e.order));
    MakeRoomLeavesRoom(c, begun, e.u, e.order, e.calls);
    AdmittedAfterEviction(s, begun, room.0, e, Victims(c, begun, e.u, e.order));
    EvictionDone(c, s, begun, e);
    AdmittedIsTracked(s, AfterRoom(e, room), e, out, Resumable(s, e.u) - out);
  }

  lemma FullRoomLeaves(c: Config, s: State, begun: State, e: Event, room: (State, bool))
    requires c.cap >= 1 && Core(c, s) && e.InitEvent? && e.totalChunks >= 0 && Begun(s, begun, e) && FreshFor(s, e.ids)
    requires Lists(e.order, Ids(begun, e.u)) && |e.order| == |Ids(s, e.u)| >= c.cap
    requires (e.u, e.ids.uploadId) !in s.metas
    requires SubMap(s.metas, begun.metas) && forall k :: k in s.metas ==> s.metas[k].meta.s3UploadId != e.ids.s3
    requires LiveIds(begun, e.u) == Resumable(s, e.u) && VictimsKnown(c, s, e.u, Victims(c, begun, e.u, e.order))
    requires room == MakeRoom(c, begun, e.u, e.order, e.calls)
    ensures Initialised(c, s, AfterRoom(e, room), e)
    ensures (e.u, e.ids.uploadId) in AfterRoom(e, room).metas <==> room.1
  {
    VictimsOldest(c, s, begun, e.u, e.order);
    if room.1 {
      EvictedRoomLeaves(c, s, begun, e, room);
    } else {
      EvictionStopped(c, s, begun, e);
    }
  }

  lemma EvictionDone(c: Config, s: State, begun: State, e: Event)
    requires e.InitEvent? && e.totalChunks >= 0 && Begun(s, begun, e) && |e.order| >= c.cap
    requires VictimsKnown(c, s, e.u, Victims(c, begun, e.u, e.order))
    requires forall k :: k in s.metas ==> s.metas[k].meta.s3UploadId != e.ids.s3
    requires MakeRoom(c, begun, e.u, e.order, e.calls).1
    ensures forall id :: id in VictimIds(Victims(c, begun, e.u, e.order)) ==> MayBeEvicted(s, e.u, e.calls, id)
  {
    var victims := Victims(c, begun, e.u, e.order);
    EvictedAcked(DropStale(begun, e.u), e.u, victims, e.calls);
    forall id | id in VictimIds(victims)
      ensures MayBeEvicted(s, e.u, e.calls, id)
    {
      var v :| v in victims && v.uploadId == id;
      assert v.meta.s3UploadId in begun.open;
    }
  }

  lemma VictimsOldest(c: Config, s: State, begun: State, u: UserId, order: seq<UploadId>)
    requires Lists(order, Ids(begun, u)) && LiveIds(begun, u) == Resumable(s, u) && SubMap(s.metas, begun.metas)
    requires VictimsKnown(c, s, u, Victims(c, begun, u, order))
    ensures Oldest(c, s, u, VictimIds(Victims(c, begun, u, order)))
  {
    var victims := Victims(c, begun, u, order);
    var out := VictimIds(victims);
    forall id, other | id in out && other in Resumable(s, u) - out
      ensures s.metas[(u, id)].meta.createdAt <= s.metas[(u, other)].meta.createdAt
    {
      var v :| v in victims && v.uploadId == id;
      VictimsAreOldest(c, begun, u, order, v, other);
    }
  }

  lemma EvictionStopped(c: Config, s: State, begun: State, e: Event)
    requires c.cap >= 1 && Core(c, s) && e.InitEvent? && e.totalChunks >= 0 && Begun(s, begun, e) && FreshFor(s, e.ids)
    requires |e.order| >= c.cap && VictimsKnown(c, s, e.u, Victims(c, begun, e.u, e.order))
    requires !MakeRoom(c, begun, e.u, e.order, e.calls).1
    ensures var room := MakeRoom(c, begun, e.u, e.order, e.calls).0;
            TurnedAway(s, AfterRoom(e, (room, false)), e)
    ensures exists id :: id in VictimIds(Victims(c, begun, e.u, e.order)) && !MayBeEvicted(s, e.u, e.calls, id)
  {
    var victims := Victims(c, begun, e.u, e.order);
    TurnedAwayAfter(c, s, begun, e, victims);
    if forall id :: id in VictimIds(victims) ==> MayBeEvicted(s, e.u, e.calls, id) {
      VictimsEvictable(c, s, begun, e, victims);
      assert false;
    }
  }

  lemma VictimsEvictable(c: Config, s: State, begun: State, e: Event, victims: seq<Candidate>)
    requires Core(c, s) && e.InitEvent? && e.totalChunks >= 0 && Begun(s, begun, e) && VictimsKnown(c, s, e.u, victims)
    requires forall id :: id in VictimIds(victims) ==> MayBeEvicted(s, e.u, e.calls, id)
    ensures EvictAll(DropStale(begun, e.u), e.u, victims, e.calls).1
  {
    forall v | v in victims
      ensures v.meta.s3UploadId in begun.open && e.calls(v.meta.s3UploadId).Acked? && BelongsTo(s, v.meta.s3UploadId, e.u, v.uploadId)
    {
      assert v.uploadId in VictimIds(victims);
      assert MayBeEvicted(s, e.u, e.calls, v.uploadId);
      MetaHome(s, (e.u, v.uploadId));
    }
    OwnUploads(s, e.u, victims);
    AckedEvicts(DropStale(begun, e.u), e.u, victims, e.calls);
  }

  lemma {:induction false} EvictAllSpares(s: State, u: UserId, victims: seq<Candidate>, calls: S3Id -> Call, y: S3Id)
    requires y in s.open && forall v :: v in victims ==> v.meta.s3UploadId != y
    ensures y in EvictAll(s, u, victims, calls).0.open
    decreases |victims|
  {
    if victims != [] {
      var v := victims[0];
      assert victims == [v] + victims[1..];
      if AbortSucceeds(s, v.meta.s3UploadId, calls(v.meta.s3UploadId)) {
        EvictAllSpares(Drop(s, u, v.uploadId, v.meta.s3UploadId, calls(v.meta.s3UploadId)), u, victims[1..], calls, y);
      }
    }
  }

  lemma NewIsUnused(c: Config, s: State, e: Event)
    requires Core(c, s) && e.InitEvent? && FreshFor(s, e.ids)
    ensures (e.u, e.ids.uploadId) !in s.metas && e.ids.s3 !in s.open
    ensures forall k :: k in s.metas ==> s.metas[k].meta.s3UploadId != e.ids.s3
  {
    forall k | k in s.metas
      ensures s.metas[k].meta.s3UploadId != e.ids.s3 && k != (e.u, e.ids.uploadId)
    {
      MetaHome(s, k);
    }
    assert e.ids.s3 in s.open ==> OpenOk(s, e.ids.s3);
  }

  lemma TurnedAwayAfter(c: Config, s: State, begun: State, e: Event, victims: seq<Candidate>)
    requires Core(c, s) && e.InitEvent? && e.totalChunks >= 0 && Begun(s, begun, e) && FreshFor(s, e.ids)
    requires forall v :: v in victims ==> (e.u, v.uploadId) in s.metas && v.meta == s.metas[(e.u, v.uploadId)].meta
    ensures var room := EvictAll(DropStale(begun, e.u), e.u, victims, e.calls).0;
            TurnedAway(s, AfterRoom(e, (room, false)), e)
  {
    var stale := DropStale(begun, e.u);
    DropStaleLeaves(begun, e.u);
    NewIsUnused(c, s, e);
    TurnedAwayFrom(s, stale, e, victims);
  }

  lemma TurnedAwayFrom(s: State, stale: State, e: Event, victims: seq<Candidate>)
    requires e.InitEvent? && (e.u, e.ids.uploadId) !in s.metas && e.ids.s3 !in s.open
    requires stale.metas.Keys == s.metas.Keys + {(e.u, e.ids.uploadId)} && stale.open.Keys == s.open.Keys + {e.ids.s3}
    requires forall k :: k in s.metas ==> stale.metas[k] == s.metas[k] && s.metas[k].meta.s3UploadId != e.ids.s3
    requires forall v :: v in victims ==> (e.u, v.uploadId) in s.metas && v.meta == s.metas[(e.u, v.uploadId)].meta
    ensures TurnedAway(s, AfterRoom(e, (EvictAll(stale, e.u, victims, e.calls).0, false)), e)
  {
    EvictAllLoses(stale, e.u, victims, e.calls);
    EvictAllMetas(stale, e.u, victims, e.calls);
    EvictAllSpares(stale, e.u, victims, e.calls, e.ids.s3);
    UndoneLeaves(s, stale, EvictAll(stale, e.u, victims, e.calls).0, e);
  }

  lemma UndoneLeaves(s: State, stale: State, room: State, e: Event)
    requires e.InitEvent? && (e.u, e.ids.uploadId) !in s.metas && e.ids.s3 !in s.open
    requires stale.metas.Keys == s.metas.Keys + {(e.u, e.ids.uploadId)} && stale.open.Keys == s.open.Keys + {e.ids.s3}
    requires forall k :: k in s.metas ==> stale.metas[k] == s.metas[k] && s.metas[k].meta.s3UploadId != e.ids.s3
    requires SubMap(room.metas, stale.metas) && e.ids.s3 in room.open
    requires forall k :: k in stale.metas ==> KeptOrEvicted(stale, room, k, e.calls)
    ensures TurnedAway(s, AfterRoom(e, (room, false)), e)
  {
    var forgotten := Forget(room, e.u, e.ids.uploadId, e.ids.s3);
    var t := Abort(forgotten, e.ids.s3, e.undo);
    ForgetFields(room, e.u, e.ids.uploadId, e.ids.s3);
    AbortFields(forgotten, e.ids.s3, e.undo);
    assert Inactive(forgotten, e.u, e.ids.uploadId);
    AbortCloses(forgotten, e.ids.s3, e.undo);
    forall k | k in s.metas
      ensures KeptOrEvicted(s, t, k, e.calls)
    {
      assert KeptOrEvicted(stale, room, k, e.calls);
      EvictedBefore(s, stale, room, t, k, e.calls, (e.u, e.ids.uploadId));
    }
  }

  lemma EvictedBefore(s: State, stale: State, room: State, t: State, k: (UserId, UploadId), calls: S3Id -> Call, new': (UserId, UploadId))
    requires k in s.metas && k in stale.metas && stale.metas[k] == s.metas[k] && KeptOrEvicted(stale, room, k, calls)
    requires k != new' && t.metas == room.metas - {new'} && t.open.Keys <= room.open.Keys
    requires s.metas[k].meta.s3UploadId in stale.open ==> s.metas[k].meta.s3UploadId in s.open
    ensures KeptOrEvicted(s, t, k, calls)
  {
  }

  /**
   An initialisation that is not let in, or that storage refuses, changes nothing; if storage's reply is lost, a multipart
   upload stays behind that nothing tracks. Otherwise the upload starts if there is room. If the user has as many active
   uploads as may be, the oldest are evicted, as many as leave room for it; it is turned away only if one cannot be.
   */
  lemma InitOutcome(c: Config, events: seq<Event>, states: seq<State>, n: nat)
    requires c.cap >= 1 && IsRun(c, events, states) && n < |events| && events[n].InitEvent?
    ensures var s, t, e := states[n], states[n + 1], events[n];
            if !MayInit(c, s, e) || e.create.Refused? then t == s
            else if e.create.Unheard? then
              t == s.(open := s.open[e.ids.s3 := Multipart(e.ids.key, s.now, map[])], uploads := t.uploads)
            else Initialised(c, s, t, e)
  {
    RunKeepsCore(c, events, states, n);
    RunKeepsCap(c, events, states, n);
    StepAt(c, events, states, n);
    LetInExactly(c, states[n], events[n]);
    if MayInit(c, states[n], events[n]) && events[n].create.Acked? {
      InitLeaves(c, states[n], events[n]);
    }
  }

  // --------------------------------------------------------------- replies

  lemma InitReplies(c: Config, s: State, e: Event)
    requires c.cap >= 1 && Core(c, s) && ActiveOk(c, s) && e.InitEvent? && FreshFor(s, e.ids) && Lists(e.order, Ids(s, e.u))
    ensures Init(c, s, e.u, e.fileSize, e.totalChunks, e.live, e.lockFree, e.ids, e.create, e.order, e.calls, e.undo).1.Accepted?
        <==> (e.u, e.ids.uploadId) in Step(c, s, e).metas
  {
    NewIsUnused(c, s, e);
    LetInExactly(c, s, e);
    if MayInit(c, s, e) && e.create.Acked? {
      InitLeaves(c, s, e);
    }
  }

  lemma ChunkReplies(s: State, req: RequestId, put: Call, late: Call)
    requires req in s.chunking && ChunkingOk(s, req)
    ensures var t := FinishChunk(s, req, put, late);
            var k := (s.chunking[req].user, s.chunking[req].uploadId);
            t.1.Accepted? <==>
              k in s.metas && k in t.0.metas && s.metas[k].meta.nextExpectedChunk < t.0.metas[k].meta.nextExpectedChunk
  {
  }

  lemma FinalizeReplies(s: State, e: Event)
    requires e.StartFinalizeEvent? && e.req !in s.finalizing
    ensures var t := StartFinalize(s, e.u, e.id, e.totalChunks, e.live, e.req);
            t.1.Accepted? <==> e.req in t.0.finalizing
  {
  }

  /** A request is accepted exactly if it starts its upload, begins its chunk, moves its upload on, or starts its finalize. */
  lemma ReplyTellsTheOutcome(c: Config, events: seq<Event>, states: seq<State>, n: nat)
    requires c.cap >= 1 && IsRun(c, events, states) && n < |events|
    ensures var s, t, e := states[n], states[n + 1], events[n];
            match e
            case InitEvent(u, fileSize, totalChunks, live, lockFree, ids, create, order, calls, undo) =>
              Init(c, s, u, fileSize, totalChunks, live, lockFree, ids, create, order, calls, undo).1.Accepted?
              <==> (u, ids.uploadId) in t.metas
            case BeginChunkEvent(u, id, chunkIndex, size, req) =>
              BeginChunk(s, u, id, chunkIndex, size, req).1.Accepted? <==> req in t.chunking
            case FinishChunkEvent(req, put, late) =>
              req in s.chunking &&
              (FinishChunk(s, req, put, late).1.Accepted? <==>
               var k := (s.chunking[req].user, s.chunking[req].uploadId);
               k in s.metas && k in t.metas && s.metas[k].meta.nextExpectedChunk < t.metas[k].meta.nextExpectedChunk)
            case StartFinalizeEvent(u, id, totalChunks, live, req) =>
              StartFinalize(s, u, id, totalChunks, live, req).1.Accepted? <==> req in t.finalizing
            case _ => true
  {
    RunKeepsCore(c, events, states, n);
    RunKeepsCap(c, events, states, n);
    StepAt(c, events, states, n);
    var s, e := states[n], events[n];
    match e
    case InitEvent(_, _, _, _, _, _, _, _, _, _) => InitReplies(c, s, e);
    case FinishChunkEvent(req, put, late) =>
      assert ChunkingOk(s, req);
      ChunkReplies(s, req, put, late);
    case StartFinalizeEvent(_, _, _, _, _) => FinalizeReplies(s, e);
    case _ =>
  }
}
