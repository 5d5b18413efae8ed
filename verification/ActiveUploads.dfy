/** The cap on active uploads: who is evicted, what eviction removes, and that the cap holds in every run. */
module ActiveUploads {
  import opened Sequences
  import opened FileFormat
  import opened UploadProtocol
  import opened UploadSafety
  import opened UploadSteps

  // ------------------------------------------------------ oldest first

  ghost predicate OldestFirst(cs: seq<Candidate>) {
    forall i, j :: 0 <= i < j < |cs| ==> cs[i].meta.createdAt <= cs[j].meta.createdAt
  }

  ghost predicate DistinctIds(cs: seq<Candidate>) {
    forall i, j :: 0 <= i < j < |cs| ==> cs[i].uploadId != cs[j].uploadId
  }

  lemma {:induction false} InsertSorts(v: Candidate, sorted: seq<Candidate>)
    requires OldestFirst(sorted)
    ensures OldestFirst(InsertByAge(v, sorted))
  {
    if sorted != [] && v.meta.createdAt > sorted[0].meta.createdAt {
      InsertSorts(v, sorted[1..]);
      InsertKeepsMembers(v, sorted[1..]);
      var rest := InsertByAge(v, sorted[1..]);
      forall j | 0 <= j < |rest|
        ensures sorted[0].meta.createdAt <= rest[j].meta.createdAt
      {
        assert rest[j] == v || rest[j] in sorted[1..];
      }
    }
  }

  lemma {:induction false} SortSorts(cs: seq<Candidate>)
    ensures OldestFirst(SortByAge(cs))
  {
    if cs != [] {
      SortSorts(cs[1..]);
      InsertSorts(cs[0], SortByAge(cs[1..]));
    }
  }

  lemma {:induction false} InsertKeepsDistinct(v: Candidate, sorted: seq<Candidate>)
    requires DistinctIds(sorted) && forall w :: w in sorted ==> w.uploadId != v.uploadId
    ensures DistinctIds(InsertByAge(v, sorted))
  {
    if sorted != [] && v.meta.createdAt > sorted[0].meta.createdAt {
      InsertKeepsDistinct(v, sorted[1..]);
      InsertKeepsMembers(v, sorted[1..]);
      var rest := InsertByAge(v, sorted[1..]);
      forall j | 0 <= j < |rest|
        ensures sorted[0].uploadId != rest[j].uploadId
      {
        assert rest[j] == v || rest[j] in sorted[1..];
      }
    }
  }

  lemma {:induction false} SortKeepsDistinct(cs: seq<Candidate>)
    requires DistinctIds(cs)
    ensures DistinctIds(SortByAge(cs))
  {
    if cs != [] {
      SortKeepsDistinct(cs[1..]);
      SortKeepsMembers(cs[1..]);
      forall w | w in SortByAge(cs[1..])
        ensures w.uploadId != cs[0].uploadId
      {
        assert w in cs[1..];
      }
      InsertKeepsDistinct(cs[0], SortByAge(cs[1..]));
    }
  }

  lemma {:induction false} CandidatesDistinct(s: State, u: UserId, order: seq<UploadId>)
    requires forall i, j :: 0 <= i < j < |order| ==> order[i] != order[j]
    ensures DistinctIds(Candidates(s, u, order))
  {
    if order != [] {
      CandidatesDistinct(s, u, order[1..]);
      CandidatesAre(s, u, order[1..]);
      var rest := Candidates(s, u, order[1..]);
      forall j | 0 <= j < |rest|
        ensures rest[j].uploadId != order[0]
      {
        assert rest[j] in rest;
      }
    }
  }

  // ------------------------------------------------------ what eviction does

  function VictimIds(victims: seq<Candidate>): set<UploadId> {
    set v | v in victims :: v.uploadId
  }

  function VictimKeys(u: UserId, victims: seq<Candidate>): set<(UserId, UploadId)> {
    set v | v in victims :: (u, v.uploadId)
  }

  function VictimUploads(victims: seq<Candidate>): set<S3Id> {
    set v | v in victims :: v.meta.s3UploadId
  }

  /** The state with the given metadata, multipart uploads with their indexes, and active ids gone, and nothing else changed. */
  function Without(s: State, u: UserId, keys: set<(UserId, UploadId)>, xs: set<S3Id>, ids: set<UploadId>): State {
    s.(metas := s.metas - keys,
       index := s.index - xs,
       open := s.open - xs,
       active := if u in s.active then s.active[u := s.active[u].(ids := s.active[u].ids - ids)] else s.active)
  }

  /** The state without all traces of the victims. */
  function WithoutVictims(s: State, u: UserId, victims: seq<Candidate>): State {
    Without(s, u, VictimKeys(u, victims), VictimUploads(victims), VictimIds(victims))
  }

  lemma VictimSetsCons(u: UserId, victims: seq<Candidate>)
    requires victims != []
    ensures VictimIds(victims) == {victims[0].uploadId} + VictimIds(victims[1..])
    ensures VictimKeys(u, victims) == {(u, victims[0].uploadId)} + VictimKeys(u, victims[1..])
    ensures VictimUploads(victims) == {victims[0].meta.s3UploadId} + VictimUploads(victims[1..])
  {
    assert victims == [victims[0]] + victims[1..];
  }

  lemma WithoutTwice(s: State, u: UserId, keys: set<(UserId, UploadId)>, xs: set<S3Id>, ids: set<UploadId>,
                     keys': set<(UserId, UploadId)>, xs': set<S3Id>, ids': set<UploadId>)
    ensures Without(Without(s, u, keys, xs, ids), u, keys', xs', ids') == Without(s, u, keys + keys', xs + xs', ids + ids')
  {
    MinusTwice(s.metas, keys, keys');
    MinusTwice(s.index, xs, xs');
    MinusTwice(s.open, xs, xs');
    if u in s.active {
      SetMinusTwice(s.active[u].ids, ids, ids');
    }
  }

  lemma DropIsWithout(s: State, u: UserId, id: UploadId, s3: S3Id, call: Call)
    requires AbortSucceeds(s, s3, call)
    ensures Drop(s, u, id, s3, call) == Without(s, u, {(u, id)}, {s3}, {id})
  {
  }

  lemma WithoutNobody(s: State, u: UserId)
    ensures Without(s, u, {}, {}, {}) == s
  {
    assert s.metas - {} == s.metas && s.index - {} == s.index && s.open - {} == s.open;
    if u in s.active {
      assert s.active[u].ids - {} == s.active[u].ids;
      assert s.active[u := s.active[u]] == s.active;
    }
  }

  /** An eviction that runs through removes exactly the victims. */
  lemma {:induction false} EvictAllRemoves(s: State, u: UserId, victims: seq<Candidate>, calls: S3Id -> Call)
    ensures EvictAll(s, u, victims, calls).1 ==> EvictAll(s, u, victims, calls).0 == WithoutVictims(s, u, victims)
    decreases |victims|
  {
    if victims == [] {
      WithoutNobody(s, u);
      assert VictimKeys(u, victims) == {} && VictimUploads(victims) == {} && VictimIds(victims) == {};
    } else {
      var v := victims[0];
      var x := v.meta.s3UploadId;
      if AbortSucceeds(s, x, calls(x)) {
        var s' := Drop(s, u, v.uploadId, x, calls(x));
        EvictAllRemoves(s', u, victims[1..], calls);
        VictimSetsCons(u, victims);
        DropIsWithout(s, u, v.uploadId, x, calls(x));
        WithoutTwice(s, u, {(u, v.uploadId)}, {x}, {v.uploadId},
                     VictimKeys(u, victims[1..]), VictimUploads(victims[1..]), VictimIds(victims[1..]));
      }
    }
  }

  // -------------------------------------------------------------- counting

  lemma {:induction false} DistinctCount(victims: seq<Candidate>)
    requires DistinctIds(victims)
    ensures |VictimIds(victims)| == |victims|
  {
    if victims != [] {
      DistinctCount(victims[1..]);
      VictimSetsCons(0, victims);
      forall v | v in victims[1..]
        ensures v.uploadId != victims[0].uploadId
      {
        var j :| 1 <= j < |victims| && victims[j] == v;
      }
    }
  }

  lemma {:induction false} ListedCount(order: seq<UploadId>, ids: set<UploadId>)
    requires Lists(order, ids)
    ensures |ids| == |order|
  {
    if order == [] {
      assert ids == {};
    } else {
      var rest := order[1..];
      assert order == [order[0]] + rest;
      assert Lists(rest, ids - {order[0]}) by {
        forall x
          ensures x in rest <==> x in ids - {order[0]}
        {
          if x in rest {
            assert x in order;
            var i :| 0 <= i < |rest| && rest[i] == x;
            assert order[i + 1] == x;
          }
        }
      }
      ListedCount(rest, ids - {order[0]});
      assert order[0] in order;
    }
  }

  lemma SubsetCount<T>(a: set<T>, b: set<T>)
    requires a <= b
    ensures |a| <= |b| && |b - a| == |b| - |a|
  {
    if a != {} {
      var x :| x in a;
      SubsetCount(a - {x}, b - {x});
      assert b - a == (b - {x}) - (a - {x});
    } else {
      assert b - a == b;
    }
  }

  /** The active ids with metadata. */
  ghost function LiveIds(s: State, u: UserId): set<UploadId> {
    set id | id in Ids(s, u) && (u, id) in s.metas
  }

  /** The sorted candidates are the live ids, once each, oldest first. */
  lemma SortedCandidates(s: State, u: UserId, order: seq<UploadId>)
    requires Lists(order, Ids(s, u))
    ensures var sorted := SortByAge(Candidates(s, u, order));
            && OldestFirst(sorted) && DistinctIds(sorted)
            && VictimIds(sorted) == LiveIds(s, u) && |sorted| == |LiveIds(s, u)|
            && forall v :: v in sorted ==> (u, v.uploadId) in s.metas && v.meta == s.metas[(u, v.uploadId)].meta
  {
    var cs := Candidates(s, u, order);
    var sorted := SortByAge(cs);
    CandidatesAre(s, u, order);
    CandidatesDistinct(s, u, order);
    SortKeepsMembers(cs);
    SortSorts(cs);
    SortKeepsDistinct(cs);
    assert VictimIds(sorted) == LiveIds(s, u) by {
      forall id | id in LiveIds(s, u)
        ensures id in VictimIds(sorted)
      {
        assert Candidate(id, s.metas[(u, id)].meta) in cs;
      }
    }
    DistinctCount(sorted);
  }

  /**
   Making room that runs through leaves fewer active ids than the cap. Unless there was room already, it keeps
   exactly the live ids that are not victims, and every kept upload is at least as new as every victim.
   */
  lemma MakeRoomLeavesRoom(c: Config, s: State, u: UserId, order: seq<UploadId>, calls: S3Id -> Call)
    requires c.cap >= 1 && Lists(order, Ids(s, u))
    ensures var room := MakeRoom(c, s, u, order, calls);
            var victims := Victims(c, s, u, order);
            room.1 ==>
              && |Ids(room.0, u)| < c.cap
              && (|order| < c.cap ==> room.0 == s)
              && (|order| >= c.cap ==>
                    && room.0 == WithoutVictims(DropStale(s, u), u, victims)
                    && Ids(room.0, u) == LiveIds(s, u) - VictimIds(victims)
                    && (forall v, id :: v in victims && id in Ids(room.0, u) ==>
                          v.meta.createdAt <= s.metas[(u, id)].meta.createdAt))
  {
    ListedCount(order, Ids(s, u));
    if |order| >= c.cap && MakeRoom(c, s, u, order, calls).1 {
      var sorted := SortByAge(Candidates(s, u, order));
      var victims := Victims(c, s, u, order);
      SortedCandidates(s, u, order);
      EvictAllRemoves(DropStale(s, u), u, victims, calls);
      var room := MakeRoom(c, s, u, order, calls).0;
      assert Ids(DropStale(s, u), u) == LiveIds(s, u);
      assert Ids(room, u) == LiveIds(s, u) - VictimIds(victims);
      PrefixOfSorted(sorted, |victims|);
      assert victims == sorted[..|victims|];
      SubsetCount(VictimIds(victims), LiveIds(s, u));
      forall v, id | v in victims && id in Ids(room, u)
        ensures v.meta.createdAt <= s.metas[(u, id)].meta.createdAt
      {
        VictimsAreOldest(c, s, u, order, v, id);
      }
    }
  }

  lemma VictimsAreOldest(c: Config, s: State, u: UserId, order: seq<UploadId>, v: Candidate, id: UploadId)
    requires Lists(order, Ids(s, u)) && v in Victims(c, s, u, order)
    requires id in LiveIds(s, u) && id !in VictimIds(Victims(c, s, u, order))
    ensures v.meta.createdAt <= s.metas[(u, id)].meta.createdAt
  {
    SortedCandidates(s, u, order);
    NewerThanVictim(SortByAge(Candidates(s, u, order)), |Victims(c, s, u, order)|, v, id);
  }

  lemma PrefixOfSorted(sorted: seq<Candidate>, n: nat)
    requires DistinctIds(sorted) && n <= |sorted|
    ensures VictimIds(sorted[..n]) <= VictimIds(sorted) && |VictimIds(sorted[..n])| == n
  {
    DistinctCount(sorted[..n]);
  }

  lemma NewerThanVictim(sorted: seq<Candidate>, n: nat, v: Candidate, id: UploadId)
    requires OldestFirst(sorted) && n <= |sorted| && v in sorted[..n]
    requires id in VictimIds(sorted) && id !in VictimIds(sorted[..n])
    ensures exists w :: w in sorted && w.uploadId == id && v.meta.createdAt <= w.meta.createdAt
  {
    var i :| 0 <= i < n && sorted[i] == v;
    var w :| w in sorted && w.uploadId == id;
    var j :| 0 <= j < |sorted| && sorted[j] == w;
    assert j >= n by {
      forall k | 0 <= k < n
        ensures sorted[k].uploadId != id
      {
        assert sorted[..n][k] in sorted[..n];
        assert sorted[k].uploadId in VictimIds(sorted[..n]);
      }
    }
  }

  // ---------------------------------------------------- the cap in every run

  ghost predicate Issued(s: State, id: UploadId) {
    exists x :: x in s.uploads && s.uploads[x].uploadId == id
  }

  ghost predicate SetOk(c: Config, s: State, u: UserId)
    requires u in s.active
  {
    && |s.active[u].ids| <= c.cap
    && s.active[u].expiresAt <= s.now + UPLOAD_META_TTL
    && forall id :: id in s.active[u].ids ==> Issued(s, id)
  }

  /** The upload of this metadata is in the active set, which expires no earlier. */
  ghost predicate Listed(s: State, k: (UserId, UploadId))
    requires k in s.metas
  {
    k.0 in s.active && k.1 in s.active[k.0].ids && s.metas[k].expiresAt <= s.active[k.0].expiresAt
  }

  /** No active set exceeds the cap, and all metadata, apart from `exempt`, is of an active upload. */
  ghost predicate ActiveOkBut(c: Config, s: State, exempt: set<(UserId, UploadId)>) {
    && (forall u :: u in s.active ==> SetOk(c, s, u))
    && (forall k :: k in s.metas && k !in exempt ==> Listed(s, k))
  }

  ghost predicate ActiveOk(c: Config, s: State) {
    ActiveOkBut(c, s, {})
  }

  ghost predicate SetShrunk(s: State, t: State, u: UserId)
    requires u in t.active
  {
    u in s.active && t.active[u].ids <= s.active[u].ids && t.active[u].expiresAt == s.active[u].expiresAt
  }

  ghost predicate StaysListed(s: State, t: State, k: (UserId, UploadId))
    requires k in s.metas
  {
    Listed(s, k) ==> k.0 in t.active && k.1 in t.active[k.0].ids
  }

  /** Metadata and active sets only lose members, and what keeps its metadata stays active. */
  ghost predicate ActiveShrunk(s: State, t: State, exempt: set<(UserId, UploadId)>) {
    && t.now == s.now && t.uploads == s.uploads
    && SubMap(t.metas, s.metas)
    && (forall u :: u in t.active ==> SetShrunk(s, t, u))
    && (forall k :: k in t.metas && k !in exempt ==> StaysListed(s, t, k))
  }

  lemma ActiveShrunkKeeps(c: Config, s: State, t: State, exempt: set<(UserId, UploadId)>)
    requires ActiveOkBut(c, s, exempt) && ActiveShrunk(s, t, exempt)
    ensures ActiveOkBut(c, t, exempt)
  {
    forall u | u in t.active
      ensures SetOk(c, t, u)
    {
      assert SetShrunk(s, t, u);
      assert SetOk(c, s, u);
      SubsetCount(t.active[u].ids, s.active[u].ids);
      forall id | id in t.active[u].ids
        ensures Issued(t, id)
      {
        assert Issued(s, id);
      }
    }
    forall k | k in t.metas && k !in exempt
      ensures Listed(t, k)
    {
      assert StaysListed(s, t, k);
      assert Listed(s, k);
      assert SetShrunk(s, t, k.0);
    }
  }

  /** Only the clock, the metadata, the active sets and the history of uploads matter. */
  lemma SameActive(c: Config, s: State, t: State, exempt: set<(UserId, UploadId)>)
    requires ActiveOkBut(c, s, exempt)
    requires t.now == s.now && t.metas == s.metas && t.active == s.active && t.uploads == s.uploads
    ensures ActiveOkBut(c, t, exempt)
  {
    ActiveShrunkKeeps(c, s, t, exempt);
  }

  lemma ForgetKeepsActive(c: Config, s: State, u: UserId, id: UploadId, s3: S3Id, exempt: set<(UserId, UploadId)>)
    requires ActiveOkBut(c, s, exempt)
    ensures ActiveOkBut(c, Forget(s, u, id, s3), exempt)
  {
    ForgetActiveShrunk(s, u, id, s3, exempt);
    ActiveShrunkKeeps(c, s, Forget(s, u, id, s3), exempt);
  }

  lemma ForgetActiveShrunk(s: State, u: UserId, id: UploadId, s3: S3Id, exempt: set<(UserId, UploadId)>)
    ensures ActiveShrunk(s, Forget(s, u, id, s3), exempt)
  {
  }

  lemma ReleaseActiveShrunk(s: State, u: UserId, id: UploadId, exempt: set<(UserId, UploadId)>)
    requires (u, id) !in s.metas
    ensures ActiveShrunk(s, Release(s, u, id), exempt)
  {
  }

  lemma DropStaleActiveShrunk(s: State, u: UserId, exempt: set<(UserId, UploadId)>)
    ensures ActiveShrunk(s, DropStale(s, u), exempt)
  {
  }

  lemma AbortKeepsActive(c: Config, s: State, s3: S3Id, call: Call, exempt: set<(UserId, UploadId)>)
    requires ActiveOkBut(c, s, exempt)
    ensures ActiveOkBut(c, Abort(s, s3, call), exempt)
  {
    SameActive(c, s, Abort(s, s3, call), exempt);
  }

  lemma DropKeepsActive(c: Config, s: State, u: UserId, id: UploadId, s3: S3Id, call: Call, exempt: set<(UserId, UploadId)>)
    requires ActiveOkBut(c, s, exempt)
    ensures ActiveOkBut(c, Drop(s, u, id, s3, call), exempt)
  {
    ForgetKeepsActive(c, s, u, id, s3, exempt);
    SameActive(c, Forget(s, u, id, s3), Abort(Forget(s, u, id, s3), s3, call), exempt);
    SameActive(c, s, Abort(s, s3, call), exempt);
  }

  lemma CancelKeepsActive(c: Config, s: State, u: UserId, id: UploadId, call: Call)
    requires ActiveOk(c, s)
    ensures ActiveOk(c, Cancel(s, u, id, call))
  {
    if (u, id) in s.metas {
      DropKeepsActive(c, s, u, id, s.metas[(u, id)].meta.s3UploadId, call, {});
    } else {
      ReleaseActiveShrunk(s, u, id, {});
      ActiveShrunkKeeps(c, s, Release(s, u, id), {});
    }
  }

  lemma DropStaleKeepsActive(c: Config, s: State, u: UserId, exempt: set<(UserId, UploadId)>)
    requires ActiveOkBut(c, s, exempt)
    ensures ActiveOkBut(c, DropStale(s, u), exempt)
  {
    DropStaleActiveShrunk(s, u, exempt);
    ActiveShrunkKeeps(c, s, DropStale(s, u), exempt);
  }

  lemma {:induction false} EvictAllKeepsActive(c: Config, s: State, u: UserId, victims: seq<Candidate>, calls: S3Id -> Call,
                                               exempt: set<(UserId, UploadId)>)
    requires ActiveOkBut(c, s, exempt)
    ensures ActiveOkBut(c, EvictAll(s, u, victims, calls).0, exempt)
    decreases |victims|
  {
    if victims != [] {
      var v := victims[0];
      var x := v.meta.s3UploadId;
      DropKeepsActive(c, s, u, v.uploadId, x, calls(x), exempt);
      if AbortSucceeds(s, x, calls(x)) {
        EvictAllKeepsActive(c, Drop(s, u, v.uploadId, x, calls(x)), u, victims[1..], calls, exempt);
      }
    }
  }

  lemma MakeRoomKeepsActive(c: Config, s: State, u: UserId, order: seq<UploadId>, calls: S3Id -> Call, exempt: set<(UserId, UploadId)>)
    requires ActiveOkBut(c, s, exempt)
    ensures ActiveOkBut(c, MakeRoom(c, s, u, order, calls).0, exempt)
  {
    if |order| >= c.cap {
      DropStaleKeepsActive(c, s, u, exempt);
      EvictAllKeepsActive(c, DropStale(s, u), u, Victims(c, s, u, order), calls, exempt);
    }
  }

  lemma TrackKeepsActive(c: Config, s: State, u: UserId, fileSize: nat, ids: FreshIds)
    requires ActiveOk(c, s) && ids.s3 !in s.uploads
    ensures ActiveOk(c, Create(s, u, fileSize, ids))
    ensures ActiveOkBut(c, Track(Create(s, u, fileSize, ids), u, fileSize, ids), {(u, ids.uploadId)})
  {
    var created := Create(s, u, fileSize, ids);
    var t := Track(created, u, fileSize, ids);
    forall v | v in s.active
      ensures SetOk(c, created, v) && SetOk(c, t, v)
    {
      assert SetOk(c, s, v);
      forall id | id in s.active[v].ids
        ensures Issued(created, id) && Issued(t, id)
      {
        var x :| x in s.uploads && s.uploads[x].uploadId == id;
        assert created.uploads[x].uploadId == id;
      }
    }
    forall k | k in s.metas
      ensures Listed(created, k)
    {
      assert Listed(s, k);
    }
    forall k | k in t.metas && k != (u, ids.uploadId)
      ensures Listed(t, k)
    {
      assert Listed(s, k);
    }
  }

  /** Reserving the slot completes an initialisation that made room. */
  lemma ReserveKeepsActive(c: Config, s: State, u: UserId, id: UploadId)
    requires ActiveOkBut(c, s, {(u, id)}) && |Ids(s, u)| < c.cap && Issued(s, id)
    requires (u, id) in s.metas ==> s.metas[(u, id)].expiresAt <= s.now + UPLOAD_META_TTL
    ensures ActiveOk(c, Reserve(s, u, id))
  {
    var t := Reserve(s, u, id);
    forall v | v in t.active
      ensures SetOk(c, t, v)
    {
      if v in s.active {
        assert SetOk(c, s, v);
      }
      forall i | i in t.active[v].ids
        ensures Issued(t, i)
      {
        assert i == id || Issued(s, i);
      }
    }
    forall k | k in t.metas
      ensures Listed(t, k)
    {
      if k != (u, id) {
        assert Listed(s, k);
        assert SetOk(c, s, k.0);
      }
    }
  }

  lemma {:induction false} EvictAllMetas(s: State, u: UserId, victims: seq<Candidate>, calls: S3Id -> Call)
    ensures SubMap(EvictAll(s, u, victims, calls).0.metas, s.metas)
    decreases |victims|
  {
    if victims != [] {
      var v := victims[0];
      var x := v.meta.s3UploadId;
      if AbortSucceeds(s, x, calls(x)) {
        EvictAllMetas(Drop(s, u, v.uploadId, x, calls(x)), u, victims[1..], calls);
      }
    }
  }

  lemma InitKeepsActive(c: Config, s: State, u: UserId, fileSize: nat, totalChunks: int, live: bool, lockFree: bool, ids: FreshIds,
                        create: Call, order: seq<UploadId>, calls: S3Id -> Call, undo: Call)
    requires c.cap >= 1 && ActiveOk(c, s) && FreshFor(s, ids) && Lists(order, Ids(s, u))
    ensures ActiveOk(c, Init(c, s, u, fileSize, totalChunks, live, lockFree, ids, create, order, calls, undo).0)
  {
    if InitAllowed(c, s, u, fileSize, totalChunks, live, lockFree) && !create.Refused? {
      TrackKeepsActive(c, s, u, fileSize, ids);
      if create.Acked? {
        var tracked := Track(Create(s, u, fileSize, ids), u, fileSize, ids);
        MakeRoomKeepsActive(c, tracked, u, order, calls, {(u, ids.uploadId)});
        MakeRoomLeavesRoom(c, tracked, u, order, calls);
        EvictAllKeepsUploads(DropStale(tracked, u), u, Victims(c, tracked, u, order), calls);
        EvictAllMetas(DropStale(tracked, u), u, Victims(c, tracked, u, order), calls);
        var room := MakeRoom(c, tracked, u, order, calls);
        if room.1 {
          assert tracked.uploads[ids.s3].uploadId == ids.uploadId;
          assert Issued(room.0, ids.uploadId);
          ReserveKeepsActive(c, room.0, u, ids.uploadId);
        } else {
          FailedInitKeepsActive(c, room.0, u, ids, undo);
        }
      }
    }
  }

  lemma FailedInitKeepsActive(c: Config, s: State, u: UserId, ids: FreshIds, undo: Call)
    requires ActiveOkBut(c, s, {(u, ids.uploadId)})
    ensures ActiveOk(c, Abort(Forget(s, u, ids.uploadId, ids.s3), ids.s3, undo))
  {
    var forgotten := Forget(s, u, ids.uploadId, ids.s3);
    ForgetKeepsActive(c, s, u, ids.uploadId, ids.s3, {(u, ids.uploadId)});
    assert ActiveOk(c, forgotten);
    SameActive(c, forgotten, Abort(forgotten, ids.s3, undo), {});
  }

  lemma RefreshKeepsActive(c: Config, s: State, u: UserId, id: UploadId, meta: UploadMeta)
    requires ActiveOk(c, s) && (u, id) in s.metas
    ensures ActiveOk(c, Refresh(s, u, id, meta))
  {
    var t := Refresh(s, u, id, meta);
    assert Listed(s, (u, id));
    forall v | v in t.active
      ensures SetOk(c, t, v)
    {
      assert SetOk(c, s, v);
      forall i | i in t.active[v].ids
        ensures Issued(t, i)
      {
        assert Issued(s, i);
      }
    }
    forall k | k in t.metas
      ensures Listed(t, k)
    {
      assert Listed(s, k);
      assert SetOk(c, s, k.0);
    }
  }

  lemma FinishChunkKeepsActive(c: Config, s: State, req: RequestId, put: Call, late: Call)
    requires ActiveOk(c, s) && req in s.chunking
    ensures ActiveOk(c, FinishChunk(s, req, put, late).0)
  {
    FinishChunkCases(s, req, put, late);
    var r := s.chunking[req];
    SameActive(c, s, s.(chunking := s.chunking - {req}), {});
    if r.meta.s3UploadId in s.open && !put.Refused? {
      var stored := AfterPart(s, req);
      SameActive(c, s, stored, {});
      if (r.user, r.uploadId) in stored.metas {
        var n := r.meta.nextExpectedChunk + 1;
        RefreshKeepsActive(c, stored, r.user, r.uploadId,
                           r.meta.(parts := r.meta.parts + [n], nextExpectedChunk := n, updatedAt := stored.now));
      } else {
        SameActive(c, stored, Abort(stored, r.meta.s3UploadId, late), {});
      }
    }
  }

  ghost function MetaKeys(u: UserId, ids: seq<UploadId>): set<(UserId, UploadId)> {
    if ids == [] then {} else {(u, ids[0])} + MetaKeys(u, ids[1..])
  }

  lemma {:induction false} ListedKeys(u: UserId, ids: seq<UploadId>, id: UploadId)
    requires id in ids
    ensures (u, id) in MetaKeys(u, ids)
  {
    if id != ids[0] {
      assert ids == [ids[0]] + ids[1..];
      ListedKeys(u, ids[1..], id);
    }
  }

  lemma {:induction false} ClearMetasKeepsRest(s: State, u: UserId, ids: seq<UploadId>, calls: S3Id -> Call)
    ensures var t := ClearMetas(s, u, ids, calls);
            && t.now == s.now && t.uploads == s.uploads && t.active == s.active
            && t.metas == s.metas - MetaKeys(u, ids)
    decreases |ids|
  {
    if ids == [] {
      MinusAbsent(s.metas, {});
    } else {
      ClearMetaRemoves(s, u, ids[0], calls);
      ClearMetasKeepsRest(ClearMeta(s, u, ids[0], calls), u, ids[1..], calls);
      MinusTwice(s.metas, {(u, ids[0])}, MetaKeys(u, ids[1..]));
    }
  }

  lemma ClearMetaRemoves(s: State, u: UserId, id: UploadId, calls: S3Id -> Call)
    ensures var t := ClearMeta(s, u, id, calls);
            && t.now == s.now && t.uploads == s.uploads && t.active == s.active
            && t.metas == s.metas - {(u, id)}
  {
    if (u, id) !in s.metas {
      MinusAbsent(s.metas, {(u, id)});
    }
  }

  lemma AdminClearKeepsActive(c: Config, s: State, u: UserId, ids: seq<UploadId>, stuck: set<StorageKey>, calls: S3Id -> Call)
    requires ActiveOk(c, s) && forall id :: (u, id) in s.metas ==> id in ids
    ensures ActiveOk(c, AdminClear(s, u, ids, stuck, calls))
  {
    var keys := ObjectsOf(s.rows, OwnedBy(u)) - stuck;
    var emptied := s.(rows := RowsWithout(s.rows, OwnedBy(u)), objects := s.objects - keys);
    ClearMetasKeepsRest(emptied, u, ids, calls);
    forall id | (u, id) in s.metas
      ensures (u, id) in MetaKeys(u, ids)
    {
      ListedKeys(u, ids, id);
    }
    ActiveShrunkKeeps(c, s, AdminClear(s, u, ids, stuck, calls), {});
  }

  lemma SweepOneKeepsActive(c: Config, s: State, s3: S3Id, env: SweepEnv)
    requires ActiveOk(c, s)
    ensures ActiveOk(c, SweepOne(s, s3, env))
  {
    if Swept(s, s3, env) {
      RemoveTrackedKeepsActive(c, s, s3);
      AbortKeepsActive(c, RemoveTracked(s, s3), s3, Acked, {});
    } else if SweptUnheard(s, s3, env) {
      AbortKeepsActive(c, s, s3, Unheard, {});
    }
  }

  lemma RemoveTrackedKeepsActive(c: Config, s: State, s3: S3Id)
    requires ActiveOk(c, s)
    ensures ActiveOk(c, RemoveTracked(s, s3))
  {
    if s3 in s.index {
      ForgetKeepsActive(c, s, s.index[s3].user, s.index[s3].uploadId, s3, {});
    }
  }

  lemma {:induction false} SweepAllKeepsActive(c: Config, s: State, listed: seq<S3Id>, env: SweepEnv)
    requires ActiveOk(c, s)
    ensures ActiveOk(c, SweepAll(s, listed, env))
    decreases |listed|
  {
    if listed != [] {
      SweepOneKeepsActive(c, s, listed[0], env);
      SweepAllKeepsActive(c, SweepOne(s, listed[0], env), listed[1..], env);
    }
  }

  lemma TickKeepsActive(c: Config, s: State, dt: nat)
    requires ActiveOk(c, s)
    ensures ActiveOk(c, Tick(s, dt))
  {
    var t := Tick(s, dt);
    forall v | v in t.active
      ensures SetOk(c, t, v)
    {
      assert SetOk(c, s, v);
      forall i | i in t.active[v].ids
        ensures Issued(t, i)
      {
        assert Issued(s, i);
      }
    }
    forall k | k in t.metas
      ensures Listed(t, k)
    {
      assert Listed(s, k);
    }
  }

  lemma FailFinalizeKeepsActive(c: Config, s: State, req: RequestId, cleanup: Call)
    requires ActiveOk(c, s) && req in s.finalizing
    ensures ActiveOk(c, FailFinalize(s, req, cleanup))
  {
    var r := s.finalizing[req];
    var rest := s.(finalizing := s.finalizing - {req});
    SameActive(c, s, rest, {});
    ForgetKeepsActive(c, rest, r.user, r.uploadId, r.meta.s3UploadId, {});
    var forgotten := Forget(rest, r.user, r.uploadId, r.meta.s3UploadId);
    if r.phase.Started? {
      AbortKeepsActive(c, forgotten, r.meta.s3UploadId, cleanup, {});
    } else {
      SameActive(c, forgotten, forgotten.(objects := forgotten.objects - {r.meta.storageKey}), {});
    }
  }

  lemma CompleteKeepsActive(c: Config, s: State, req: RequestId, complete: Call, cleanup: Call)
    requires ActiveOk(c, s) && req in s.finalizing
    ensures ActiveOk(c, CompleteStep(s, req, complete, cleanup))
  {
    var r := s.finalizing[req];
    var s3 := r.meta.s3UploadId;
    FailFinalizeKeepsActive(c, s, req, cleanup);
    if s3 in s.open && HasParts(s.open[s3].parts, |r.meta.parts|) {
      var assembled := Assemble(s, s3, |r.meta.parts|);
      SameActive(c, s, assembled, {});
      SameActive(c, s, Advance(assembled, req, Assembled), {});
      FailFinalizeKeepsActive(c, assembled, req, cleanup);
    }
  }

  lemma LaterStepsKeepActive(c: Config, s: State, req: RequestId, head: Call, id: FileId, dbOk: bool, cleanup: Call)
    requires ActiveOk(c, s) && req in s.finalizing
    ensures ActiveOk(c, HeadStep(s, req, head, cleanup))
    ensures ActiveOk(c, CommitStep(c, s, req, id, dbOk, cleanup))
    ensures ActiveOk(c, CleanupStep(s, req))
  {
    var r := s.finalizing[req];
    FailFinalizeKeepsActive(c, s, req, cleanup);
    SameActive(c, s, Advance(s, req, Checked), {});
    SameActive(c, s, Advance(s.(rows := s.rows + [NewRow(s, req, id)]), req, Recorded), {});
    SameActive(c, s, s.(finalizing := s.finalizing - {req}), {});
    ForgetKeepsActive(c, s.(finalizing := s.finalizing - {req}), r.user, r.uploadId, r.meta.s3UploadId, {});
  }

  lemma BeginChunkKeepsActive(c: Config, s: State, u: UserId, id: UploadId, chunkIndex: int, size: int, req: RequestId)
    requires ActiveOk(c, s)
    ensures ActiveOk(c, BeginChunk(s, u, id, chunkIndex, size, req).0)
  {
    if BeginChunk(s, u, id, chunkIndex, size, req).1.Accepted? {
      var meta := s.metas[(u, id)].meta.(updatedAt := s.now);
      RefreshKeepsActive(c, s, u, id, meta);
      SameActive(c, Refresh(s, u, id, meta), BeginChunk(s, u, id, chunkIndex, size, req).0, {});
    }
  }

  lemma StepKeepsActive(c: Config, s: State, e: Event)
    requires c.cap >= 1 && ActiveOk(c, s) && Enabled(s, e)
    ensures ActiveOk(c, Step(c, s, e))
  {
    match e
    case InitEvent(u, fileSize, totalChunks, live, lockFree, ids, create, order, calls, undo) =>
      InitKeepsActive(c, s, u, fileSize, totalChunks, live, lockFree, ids, create, order, calls, undo);
    case BeginChunkEvent(u, id, chunkIndex, size, req) => BeginChunkKeepsActive(c, s, u, id, chunkIndex, size, req);
    case FinishChunkEvent(req, put, late) => FinishChunkKeepsActive(c, s, req, put, late);
    case StartFinalizeEvent(_, _, _, _, _) => SameActive(c, s, Step(c, s, e), {});
    case CompleteEvent(req, complete, cleanup) => CompleteKeepsActive(c, s, req, complete, cleanup);
    case HeadEvent(req, head, cleanup) => LaterStepsKeepActive(c, s, req, head, 0, true, cleanup);
    case CommitEvent(req, file, dbOk, cleanup) => LaterStepsKeepActive(c, s, req, Acked, file, dbOk, cleanup);
    case CleanupEvent(req) => LaterStepsKeepActive(c, s, req, Acked, 0, true, Acked);
    case CancelEvent(u, id, call) => CancelKeepsActive(c, s, u, id, call);
    case DeleteFileEvent(_, _) => SameActive(c, s, Step(c, s, e), {});
    case AdminClearEvent(u, listed, stuck, calls) => AdminClearKeepsActive(c, s, u, listed, stuck, calls);
    case SweepEvent(listing, env) => SweepAllKeepsActive(c, s, listing, env);
    case TickEvent(dt) => TickKeepsActive(c, s, dt);
  }

  /** In every state of every run, no user has more active uploads, nor more resumable ones, than the cap. */
  lemma {:induction false} RunKeepsCap(c: Config, events: seq<Event>, states: seq<State>, i: nat)
    requires c.cap >= 1 && IsRun(c, events, states) && i <= |events|
    ensures ActiveOk(c, states[i])
    ensures forall u :: |Ids(states[i], u)| <= c.cap && ResumableIds(states[i], u) <= Ids(states[i], u)
  {
    if i > 0 {
      RunKeepsCap(c, events, states, i - 1);
      StepKeepsActive(c, states[i - 1], events[i - 1]);
    }
    var s := states[i];
    forall u
      ensures |Ids(s, u)| <= c.cap && ResumableIds(s, u) <= Ids(s, u)
    {
      assert u in s.active ==> SetOk(c, s, u);
      forall id | id in ResumableIds(s, u)
        ensures id in Ids(s, u)
      {
        assert Listed(s, (u, id));
      }
    }
  }

  /** The uploads of a user that have metadata. */
  ghost function ResumableIds(s: State, u: UserId): set<UploadId> {
    set k | k in s.metas && k.0 == u :: k.1
  }
}
