/**
 What happens if a page used a download id again. Ids are 256-bit random numbers, so this is about why they have to
 be: every statement here is over runs in which any id may come back.
 */
module ReusedIds {
  import opened DownloadRendezvous
  import opened RendezvousSafety
  import opened DownloadGuarantees

  /** A session that was started but is no longer the registered download of its id: nothing will release it. */
  ghost predicate Lost(s: State, x: SessionId) {
    && x in s.claimed && x !in s.released && x in s.seenSessions
    && (forall id :: id in s.active ==> s.active[id].sid != x)
  }

  /** Nothing is ever lost while ids are fresh. */
  lemma NothingIsLost(events: seq<Event>, states: seq<State>, n: nat, x: SessionId)
    requires IsRun(events, states) && n < |states|
    ensures !Lost(states[n], x)
  {
    RunKeeps(events, states, n);
    assert SessionOk(states[n], x, {});
  }

  const OFFER_0: Event := StreamEvent(StreamMessage(0, 1, true, 7, 1, 1, true, true, 0))
  const FETCH_0: Event := FetchEvent(0, 7, true, false)
  const OFFER_1: Event := StreamEvent(StreamMessage(1, 1, true, 7, 1, 1, true, true, 0))
  const FETCH_1: Event := FetchEvent(1, 7, true, false)

  const PENDING_0: State := INITIAL.(sessions := map[7 := Session(0, 7, 0, 1)], armed := map[0 := Session(0, 7, 0, 1)],
    lifetimes := map[0 := Session(0, 7, 0, 1)], seenSessions := {0})
  const ACTIVE_0: State := PENDING_0.(sessions := map[], armed := map[], active := map[7 := ActiveEntry(0, 0)], claimed := {0},
    replies := [Reply(0, true)], answers := [Answer(0, Streamed(0, 1))], seenFetches := {0})
  const PENDING_1: State := ACTIVE_0.(sessions := map[7 := Session(1, 7, 0, 1)], armed := map[1 := Session(1, 7, 0, 1)],
    lifetimes := map[0 := Session(0, 7, 0, 1), 1 := Session(1, 7, 0, 1)], seenSessions := {0, 1})

  lemma FirstOffer()
    ensures Follows(INITIAL, OFFER_0, PENDING_0)
  {
  }

  lemma FirstClaim()
    ensures Follows(PENDING_0, FETCH_0, ACTIVE_0)
  {
    var t := Step(PENDING_0, FETCH_0);
    assert t.sessions == map[] && t.armed == map[] && t.active == ACTIVE_0.active && t.claimed == {0};
    assert t.replies == ACTIVE_0.replies && t.answers == ACTIVE_0.answers && t.seenFetches == {0};
  }

  lemma SecondOffer()
    ensures Follows(ACTIVE_0, OFFER_1, PENDING_1)
  {
    var t := Step(ACTIVE_0, OFFER_1);
    assert t.lifetimes == PENDING_1.lifetimes && t.seenSessions == PENDING_1.seenSessions;
  }

  lemma SecondClaim()
    ensures Possible(PENDING_1, FETCH_1) && Lost(Step(PENDING_1, FETCH_1), 0)
  {
  }

  /**
   Were an id used again while its first download is active, the second claim would overwrite the entry of the first
   one, whose timer then does nothing: the lifetime of the first session would never end, whatever happens next.
   */
  lemma ReusedIdLosesLifetime() returns (events: seq<Event>, states: seq<State>)
    ensures IsLooseRun(events, states) && |events| == 4 && Lost(states[4], 0)
  {
    FirstOffer();
    FirstClaim();
    SecondOffer();
    SecondClaim();
    var end := Step(PENDING_1, FETCH_1);
    events, states := FourSteps(OFFER_0, PENDING_0, FETCH_0, ACTIVE_0, OFFER_1, PENDING_1, FETCH_1, end);
  }

  lemma FourSteps(e0: Event, s1: State, e1: Event, s2: State, e2: Event, s3: State, e3: Event, s4: State)
      returns (events: seq<Event>, states: seq<State>)
    requires Follows(INITIAL, e0, s1) && Follows(s1, e1, s2) && Follows(s2, e2, s3) && Follows(s3, e3, s4)
    ensures IsLooseRun(events, states) && |events| == 4 && states[4] == s4
  {
    events, states := [e0, e1, e2, e3], [INITIAL, s1, s2, s3, s4];
    assert Follows(states[0], events[0], states[1]) && Follows(states[1], events[1], states[2]);
    assert Follows(states[2], events[2], states[3]) && Follows(states[3], events[3], states[4]);
  }

  lemma LostAfterExpire(s: State, session: Session, x: SessionId)
    requires Lost(s, x)
    ensures Lost(Expire(s, session), x)
  {
  }

  lemma LostAfterClaim(s: State, session: Session, fid: FetchId, x: SessionId)
    requires Lost(s, x)
    ensures Lost(Claim(s, session, fid), x)
  {
    if session.sid !in s.claimed {
      if |s.active| >= MAX_ACTIVE_DOWNLOADS {
        LostAfterExpire(s, session, x);
      } else {
        LostAfterStart(s, session, fid, x);
      }
    }
  }

  lemma LostAfterStart(s: State, session: Session, fid: FetchId, x: SessionId)
    requires Lost(s, x) && session.sid !in s.claimed && |s.active| < MAX_ACTIVE_DOWNLOADS
    ensures Lost(Claim(s, session, fid), x)
  {
  }

  lemma LostAfterRelease(s: State, id: Id, sid: SessionId, x: SessionId)
    requires Lost(s, x)
    ensures Lost(ReleaseActive(s, id, sid), x)
  {
  }

  lemma LostAfterStream(s: State, m: StreamMessage, x: SessionId)
    requires Lost(s, x) && m.sid !in s.seenSessions
    ensures Lost(OnStream(s, m), x)
  {
    if ValidMessage(m) {
      var session := SessionOf(m);
      var born := Born(s, session);
      assert Lost(Offer(born, session).0, x);
      LostAfterExpire(Offer(born, session).0, session, x);
    }
  }

  lemma LostAfterFetch(s: State, fid: FetchId, id: Id, plainGet: bool, hasRange: bool, x: SessionId)
    requires Lost(s, x)
    ensures Lost(OnFetch(s, fid, id, plainGet, hasRange), x)
  {
    if plainGet && id in s.sessions {
      LostAfterClaim(s.(seenFetches := s.seenFetches + {fid}, sessions := s.sessions - {id}), s.sessions[id], fid, x);
    }
  }

  /** A lost session is lost for ever: no later event releases it. */
  lemma LostStaysLost(s: State, e: Event, x: SessionId)
    requires Lost(s, x) && Possible(s, e)
    ensures Lost(Step(s, e), x)
  {
    match e
    case StreamEvent(m) => LostAfterStream(s, m, x);
    case FetchEvent(fid, id, plainGet, hasRange) => LostAfterFetch(s, fid, id, plainGet, hasRange, x);
    case HandoverEvent(sid) => LostAfterClaim(s.(handed := s.handed - {sid}), s.handed[sid].session, s.handed[sid].fid, x);
    case CancelEvent(id, source) =>
      if id in s.active {
        LostAfterRelease(s, id, s.active[id].sid, x);
      }
      if id in s.sessions {
        LostAfterExpire(s, s.sessions[id], x);
      }
    case HeartbeatEvent(_, _) =>
    case CompleteEvent(_, _) =>
    case SessionTimeout(sid) => LostAfterExpire(s, s.armed[sid], x);
    case FetchTimeout(id) =>
    case ActiveTimeout(id, sid) => LostAfterRelease(s, id, sid, x);
  }

  // --------------------------------------------- exactly when one is lost

  /** What holds of the active table whatever ids are used. */
  ghost predicate ActiveLoose(s: State) {
    && (forall id :: id in s.active ==> EntryLive(s, id))
    && (forall a, b :: a in s.active && b in s.active && a != b ==> s.active[a].sid != s.active[b].sid)
    && s.released <= s.claimed
  }

  ghost predicate EntryLive(s: State, id: Id)
    requires id in s.active
  {
    s.active[id].sid in s.claimed && s.active[id].sid !in s.released
  }

  /** Handlers only have sessions that came with a message. */
  ghost predicate TablesSeen(s: State) {
    && s.claimed <= s.seenSessions
    && (forall id :: id in s.sessions ==> s.sessions[id].sid in s.seenSessions)
    && (forall x :: x in s.armed ==> s.armed[x].sid in s.seenSessions)
    && (forall x :: x in s.handed ==> s.handed[x].session.sid in s.seenSessions)
  }

  ghost predicate LooseInv(s: State) {
    ActiveLoose(s) && TablesSeen(s)
  }

  /** claimSession succeeds on this session and finds the entry of session x under its id. */
  predicate ClaimsOver(s: State, session: Session, x: SessionId) {
    && session.sid !in s.claimed && |s.active| < MAX_ACTIVE_DOWNLOADS
    && session.id in s.active && s.active[session.id].sid == x
  }

  /** The same for the event that makes the claim, as the worker could test before it sets the entry. */
  predicate Overwrites(s: State, e: Event, x: SessionId) {
    match e
    case FetchEvent(_, id, plainGet, _) => plainGet && id in s.sessions && ClaimsOver(s, s.sessions[id], x)
    case HandoverEvent(sid) => sid in s.handed && ClaimsOver(s, s.handed[sid].session, x)
    case _ => false
  }

  lemma SameActive(s: State, t: State)
    requires ActiveLoose(s) && t.active == s.active && t.claimed == s.claimed && t.released == s.released
    ensures ActiveLoose(t)
  {
    forall id | id in t.active
      ensures EntryLive(t, id)
    {
      assert EntryLive(s, id);
    }
  }

  lemma SameLost(s: State, t: State, x: SessionId)
    requires t.active == s.active && t.claimed == s.claimed && t.released == s.released
    requires s.claimed <= s.seenSessions <= t.seenSessions
    ensures Lost(t, x) <==> Lost(s, x)
  {
  }

  lemma FewerTables(s: State, t: State)
    requires TablesSeen(s) && t.claimed == s.claimed && t.seenSessions == s.seenSessions && t.armed == s.armed
    requires forall id :: id in t.sessions ==> id in s.sessions && t.sessions[id] == s.sessions[id]
    requires forall y :: y in t.handed ==> y in s.handed && t.handed[y] == s.handed[y]
    ensures TablesSeen(t)
  {
  }

  // ------------------------------------------------------- one handler each

  lemma ExpireActive(s: State, session: Session)
    requires ActiveLoose(s)
    ensures ActiveLoose(Expire(s, session))
  {
    var t := Expire(s, session);
    forall id | id in t.active
      ensures EntryLive(t, id)
    {
      assert EntryLive(s, id);
    }
  }

  lemma ExpireSeen(s: State, session: Session)
    requires TablesSeen(s) && session.sid in s.seenSessions
    ensures TablesSeen(Expire(s, session))
  {
  }

  lemma ExpireLost(s: State, session: Session, x: SessionId)
    requires s.released <= s.claimed
    ensures Lost(Expire(s, session), x) <==> Lost(s, x)
  {
  }

  lemma ExpireLoose(s: State, session: Session, x: SessionId)
    requires LooseInv(s) && session.sid in s.seenSessions
    ensures LooseInv(Expire(s, session)) && (Lost(Expire(s, session), x) <==> Lost(s, x))
  {
    ExpireActive(s, session);
    ExpireSeen(s, session);
    ExpireLost(s, session, x);
  }

  /** t is s with the session claimed and registered as active. */
  ghost predicate StartedFrom(s: State, t: State, session: Session) {
    && t.active == s.active[session.id := ActiveEntry(session.sid, session.source)]
    && t.claimed == s.claimed + {session.sid} && t.released == s.released && t.seenSessions == s.seenSessions
    && t.sessions == s.sessions - {session.id} && t.armed == s.armed - {session.sid} && t.handed == s.handed
  }

  lemma StartFields(s: State, session: Session, fid: FetchId)
    requires session.sid !in s.claimed && |s.active| < MAX_ACTIVE_DOWNLOADS
    ensures StartedFrom(s, Claim(s, session, fid), session)
  {
  }

  lemma StartActive(s: State, t: State, session: Session)
    requires ActiveLoose(s) && session.sid !in s.claimed && StartedFrom(s, t, session)
    ensures ActiveLoose(t)
  {
    forall id | id in t.active
      ensures EntryLive(t, id)
    {
      assert id in s.active ==> EntryLive(s, id);
    }
    forall a, b | a in t.active && b in t.active && a != b
      ensures t.active[a].sid != t.active[b].sid
    {
      assert a in s.active ==> EntryLive(s, a);
      assert b in s.active ==> EntryLive(s, b);
    }
  }

  lemma StartSeen(s: State, t: State, session: Session)
    requires TablesSeen(s) && session.sid in s.seenSessions && StartedFrom(s, t, session)
    ensures TablesSeen(t)
  {
  }

  lemma StartLoses(s: State, t: State, session: Session, x: SessionId)
    requires ActiveLoose(s) && s.claimed <= s.seenSessions && session.sid !in s.claimed && StartedFrom(s, t, session)
    ensures Lost(t, x) <==> Lost(s, x) || (session.id in s.active && s.active[session.id].sid == x)
  {
    assert t.active[session.id].sid == session.sid;
    assert session.id in s.active ==> EntryLive(s, session.id);
    forall id | id in s.active && id != session.id
      ensures t.active[id] == s.active[id]
    {
    }
  }

  lemma ClaimLoose(s: State, session: Session, fid: FetchId, x: SessionId)
    requires LooseInv(s) && session.sid in s.seenSessions
    ensures LooseInv(Claim(s, session, fid))
    ensures Lost(Claim(s, session, fid), x) <==> Lost(s, x) || ClaimsOver(s, session, x)
  {
    if session.sid !in s.claimed {
      if |s.active| >= MAX_ACTIVE_DOWNLOADS {
        ExpireLoose(s, session, x);
        RespondLoose(Expire(s, session), fid, Gone, x);
      } else {
        var t := Claim(s, session, fid);
        StartFields(s, session, fid);
        StartActive(s, t, session);
        StartSeen(s, t, session);
        StartLoses(s, t, session, x);
      }
    } else {
      RespondLoose(s, fid, Gone, x);
    }
  }

  lemma RespondLoose(s: State, fid: FetchId, response: Response, x: SessionId)
    requires LooseInv(s)
    ensures LooseInv(Respond(s, fid, response)) && (Lost(Respond(s, fid, response), x) <==> Lost(s, x))
  {
    TableLoose(s, Respond(s, fid, response), x);
  }

  lemma ReleaseLoose(s: State, id: Id, sid: SessionId, x: SessionId)
    requires LooseInv(s)
    ensures LooseInv(ReleaseActive(s, id, sid)) && (Lost(ReleaseActive(s, id, sid), x) <==> Lost(s, x))
  {
    if id in s.active && s.active[id].sid == sid {
      ReleaseActiveLoose(s, id);
      ReleaseLost(s, id, x);
    }
  }

  lemma ReleaseActiveLoose(s: State, id: Id)
    requires ActiveLoose(s) && id in s.active
    ensures ActiveLoose(ReleaseActive(s, id, s.active[id].sid))
  {
    var t := ReleaseActive(s, id, s.active[id].sid);
    assert EntryLive(s, id);
    forall i | i in t.active
      ensures EntryLive(t, i)
    {
      assert EntryLive(s, i);
    }
  }

  lemma ReleaseLost(s: State, id: Id, x: SessionId)
    requires ActiveLoose(s) && id in s.active
    ensures Lost(ReleaseActive(s, id, s.active[id].sid), x) <==> Lost(s, x)
  {
    var t := ReleaseActive(s, id, s.active[id].sid);
    forall i | i in s.active && i != id
      ensures i in t.active && t.active[i] == s.active[i]
    {
    }
  }

  /** t is s with the session kept pending or handed to a fetch, or s itself. */
  ghost predicate OfferedFrom(s: State, t: State, session: Session) {
    && t.active == s.active && t.claimed == s.claimed && t.released == s.released && t.seenSessions == s.seenSessions
    && (t.sessions == s.sessions || t.sessions == s.sessions[session.id := session])
    && (t.armed == s.armed || t.armed == s.armed[session.sid := session])
    && (|| t.handed == s.handed
        || (session.id in s.waiters && t.handed == s.handed[session.sid := Handover(session, s.waiters[session.id])]))
  }

  lemma OfferCases(s: State, session: Session)
    ensures var t := Offer(s, session).0;
            t == s || t == Kept(s, session) || (session.id in s.waiters && t == HandedOver(s, session))
  {
  }

  lemma OfferFields(s: State, t: State, session: Session)
    requires t == s || t == Kept(s, session) || (session.id in s.waiters && t == HandedOver(s, session))
    ensures OfferedFrom(s, t, session)
  {
    if t == Kept(s, session) {
      assert OfferedFrom(s, t, session);
    } else if t != s {
      assert t.handed == s.handed[session.sid := Handover(session, s.waiters[session.id])];
      assert OfferedFrom(s, t, session);
    }
  }

  lemma OfferSeen(s: State, t: State, session: Session)
    requires TablesSeen(s) && session.sid in s.seenSessions && OfferedFrom(s, t, session)
    ensures TablesSeen(t)
  {
  }

  /** Keeping or handing over a new session touches no active entry. */
  lemma OfferLoose(s: State, session: Session, x: SessionId)
    requires LooseInv(s) && session.sid in s.seenSessions
    ensures var t := Offer(s, session).0;
            LooseInv(t) && t.seenSessions == s.seenSessions && (Lost(t, x) <==> Lost(s, x))
  {
    var t := Offer(s, session).0;
    OfferCases(s, session);
    OfferFields(s, t, session);
    SameActive(s, t);
    OfferSeen(s, t, session);
    SameLost(s, t, x);
  }

  lemma BornLoose(s: State, m: StreamMessage, x: SessionId)
    requires LooseInv(s) && ValidMessage(m)
    ensures LooseInv(Born(s, SessionOf(m))) && (Lost(Born(s, SessionOf(m)), x) <==> Lost(s, x))
  {
    var t := Born(s, SessionOf(m));
    SameActive(s, t);
    SameLost(s, t, x);
  }

  lemma StreamLoose(s: State, m: StreamMessage, x: SessionId)
    requires LooseInv(s)
    ensures LooseInv(OnStream(s, m)) && (Lost(OnStream(s, m), x) <==> Lost(s, x))
  {
    if ValidMessage(m) {
      var born := Born(s, SessionOf(m));
      BornLoose(s, m, x);
      OfferLoose(born, SessionOf(m), x);
      ExpireLoose(Offer(born, SessionOf(m)).0, SessionOf(m), x);
    } else {
      SameActive(s, OnStream(s, m));
      SameLost(s, OnStream(s, m), x);
    }
  }

  lemma TableLoose(s: State, t: State, x: SessionId)
    requires LooseInv(s)
    requires t.active == s.active && t.claimed == s.claimed && t.released == s.released && t.seenSessions == s.seenSessions
    requires t.armed == s.armed
    requires forall id :: id in t.sessions ==> id in s.sessions && t.sessions[id] == s.sessions[id]
    requires forall y :: y in t.handed ==> y in s.handed && t.handed[y] == s.handed[y]
    ensures LooseInv(t) && (Lost(t, x) <==> Lost(s, x))
  {
    SameActive(s, t);
    FewerTables(s, t);
    SameLost(s, t, x);
  }

  lemma FetchLoose(s: State, fid: FetchId, id: Id, plainGet: bool, hasRange: bool, x: SessionId)
    requires LooseInv(s)
    ensures LooseInv(OnFetch(s, fid, id, plainGet, hasRange))
    ensures Lost(OnFetch(s, fid, id, plainGet, hasRange), x) <==>
              Lost(s, x) || (plainGet && id in s.sessions && ClaimsOver(s, s.sessions[id], x))
  {
    if plainGet && id in s.sessions {
      var t := s.(seenFetches := s.seenFetches + {fid}, sessions := s.sessions - {id});
      TableLoose(s, t, x);
      ClaimLoose(t, s.sessions[id], fid, x);
      assert OnFetch(s, fid, id, plainGet, hasRange) == Claim(t, s.sessions[id], fid);
    } else {
      TableLoose(s, OnFetch(s, fid, id, plainGet, hasRange), x);
    }
  }

  lemma HandoverLoose(s: State, sid: SessionId, x: SessionId)
    requires LooseInv(s) && sid in s.handed
    ensures LooseInv(OnHandover(s, sid))
    ensures Lost(OnHandover(s, sid), x) <==> Lost(s, x) || ClaimsOver(s, s.handed[sid].session, x)
  {
    var t := s.(handed := s.handed - {sid});
    TableLoose(s, t, x);
    ClaimLoose(t, s.handed[sid].session, s.handed[sid].fid, x);
  }

  lemma CancelLoose(s: State, id: Id, source: SourceId, x: SessionId)
    requires LooseInv(s)
    ensures LooseInv(OnCancel(s, id, source)) && (Lost(OnCancel(s, id, source), x) <==> Lost(s, x))
  {
    if id in s.active && s.active[id].source == source {
      ReleaseLoose(s, id, s.active[id].sid, x);
    } else if id in s.sessions && s.sessions[id].source == source {
      ExpireLoose(s, s.sessions[id], x);
    } else {
      TableLoose(s, GiveUp(s, id), x);
    }
  }

  /** One step loses exactly the session whose live entry a successful claim overwrites, and recovers none. */
  lemma StepLoses(s: State, e: Event, x: SessionId)
    requires LooseInv(s) && Possible(s, e)
    ensures LooseInv(Step(s, e)) && (Lost(Step(s, e), x) <==> Lost(s, x) || Overwrites(s, e, x))
  {
    match e
    case StreamEvent(m) => StreamLoose(s, m, x);
    case FetchEvent(fid, id, plainGet, hasRange) => FetchLoose(s, fid, id, plainGet, hasRange, x);
    case HandoverEvent(sid) => HandoverLoose(s, sid, x);
    case CancelEvent(id, source) => CancelLoose(s, id, source, x);
    case HeartbeatEvent(_, _) =>
    case CompleteEvent(_, _) =>
    case SessionTimeout(sid) => ExpireLoose(s, s.armed[sid], x);
    case FetchTimeout(id) => TableLoose(s, GiveUp(s, id), x);
    case ActiveTimeout(id, sid) => ReleaseLoose(s, id, sid, x);
  }

  lemma {:induction false} LooseRunKeeps(events: seq<Event>, states: seq<State>, n: nat)
    requires IsLooseRun(events, states) && n < |states|
    ensures LooseInv(states[n])
  {
    if n > 0 {
      LooseRunKeeps(events, states, n - 1);
      assert Follows(states[n - 1], events[n - 1], states[n - 1 + 1]);
      StepLoses(states[n - 1], events[n - 1], 0);
    }
  }

  /** In a run with any ids, a session becomes lost in a step if and only if a successful claim overwrites its live entry. */
  lemma LostExactlyByOverwriting(events: seq<Event>, states: seq<State>, n: nat, x: SessionId)
    requires IsLooseRun(events, states) && n < |events|
    ensures !Lost(states[n], x) && Lost(states[n + 1], x) <==> Overwrites(states[n], events[n], x)
  {
    LooseRunKeeps(events, states, n);
    assert Follows(states[n], events[n], states[n + 1]);
    StepLoses(states[n], events[n], x);
    if Overwrites(states[n], events[n], x) {
      OverwrittenIsLive(states[n], events[n], x);
    }
  }

  lemma OverwrittenIsLive(s: State, e: Event, x: SessionId)
    requires Overwrites(s, e, x)
    ensures !Lost(s, x)
  {
  }

  ghost predicate OverwrittenBefore(events: seq<Event>, states: seq<State>, n: nat, x: SessionId)
    requires n <= |events| <= |states|
  {
    exists k :: 0 <= k < n && Overwrites(states[k], events[k], x)
  }

  lemma NextLost(events: seq<Event>, states: seq<State>, n: nat, x: SessionId)
    requires IsLooseRun(events, states) && n < |events|
    ensures Lost(states[n + 1], x) <==> Lost(states[n], x) || Overwrites(states[n], events[n], x)
  {
    LooseRunKeeps(events, states, n);
    assert Follows(states[n], events[n], states[n + 1]);
    StepLoses(states[n], events[n], x);
  }

  /** A session is lost at some point exactly if a claim hit its live entry before. */
  lemma {:induction false} LostExactlyIfOverwritten(events: seq<Event>, states: seq<State>, n: nat, x: SessionId)
    requires IsLooseRun(events, states) && n < |states|
    ensures Lost(states[n], x) <==> OverwrittenBefore(events, states, n, x)
  {
    if n > 0 {
      LostExactlyIfOverwritten(events, states, n - 1, x);
      NextLost(events, states, n - 1, x);
    }
  }

  /** Corollary: a run loses nothing if and only if no claim ever hits a live entry. */
  lemma NothingLostExactlyWhen(events: seq<Event>, states: seq<State>)
    requires IsLooseRun(events, states)
    ensures (forall n, x :: 0 <= n < |states| ==> !Lost(states[n], x))
            <==> forall k, x :: 0 <= k < |events| ==> !Overwrites(states[k], events[k], x)
  {
    forall n, x | 0 <= n < |states|
      ensures Lost(states[n], x) <==> OverwrittenBefore(events, states, n, x)
    {
      LostExactlyIfOverwritten(events, states, n, x);
    }
    forall k, x | 0 <= k < |events| && Overwrites(states[k], events[k], x)
      ensures Lost(states[k + 1], x)
    {
      LostExactlyIfOverwritten(events, states, k + 1, x);
    }
  }

  /** Ids that are used once are such a case: with them no claim hits a live entry. */
  lemma FreshIdsOverwriteNothing(events: seq<Event>, states: seq<State>)
    requires IsRun(events, states)
    ensures forall k, x :: 0 <= k < |events| ==> !Overwrites(states[k], events[k], x)
  {
    forall n: nat, x | n < |states|
      ensures !Lost(states[n], x)
    {
      NothingIsLost(events, states, n, x);
    }
    NothingLostExactlyWhen(events, states);
  }
}
