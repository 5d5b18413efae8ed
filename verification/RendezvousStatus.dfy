/**
 What the worker does seen from one session and from one fetch: each goes through a few stations of its own, and an event
 moves only the sessions and fetches it is about.
 */
module RendezvousStatus {
  import opened DownloadRendezvous
  import opened RendezvousSafety

  datatype Status = Unseen | Pending | Handed | Downloading | Ended | Rejected

  ghost function StatusOf(s: State, x: SessionId): Status {
    if x in s.armed then Pending
    else if x in s.handed then Handed
    else if Reply(x, false) in s.replies then Rejected
    else if Reply(x, true) in s.replies then if IsActive(s, x) then Downloading else Ended
    else Unseen
  }

  /** The worker has room for one more download. */
  predicate HasRoom(s: State) {
    |s.active| < MAX_ACTIVE_DOWNLOADS
  }

  /** What becomes of a session when a fetch takes it. */
  function Fetched(s: State): Status {
    if HasRoom(s) then Downloading else Rejected
  }

  /** The session was announced under this id, by this source. */
  ghost predicate Belongs(s: State, x: SessionId, id: Id, source: SourceId) {
    x in s.lifetimes && s.lifetimes[x].id == id && s.lifetimes[x].source == source
  }

  ghost predicate PendsUnder(s: State, x: SessionId, id: Id) {
    StatusOf(s, x) == Pending && x in s.lifetimes && s.lifetimes[x].id == id
  }

  /** What becomes of a session that is offered. */
  function Offered(s: State, session: Session): Status {
    if !HasRoom(s) then Rejected
    else if session.id in s.waiters then Handed
    else if |s.sessions| < MAX_PENDING_SESSIONS then Pending
    else Rejected
  }

  /** What becomes of a newly announced session. */
  function Announced(s: State, m: StreamMessage): Status {
    if ValidMessage(m) then Offered(s, SessionOf(m)) else Rejected
  }

  ghost function StatusAfter(s: State, e: Event, x: SessionId): Status {
    var before := StatusOf(s, x);
    match e
    case StreamEvent(m) => if x == m.sid then Announced(s, m) else before
    case FetchEvent(_, id, plainGet, _) =>
      if plainGet && PendsUnder(s, x, id) then Fetched(s) else before
    case HandoverEvent(sid) => if x == sid then Fetched(s) else before
    case CancelEvent(id, source) =>
      if !Belongs(s, x, id, source) then before
      else if before == Downloading then Ended
      else if before == Pending then Rejected
      else before
    case SessionTimeout(sid) => if x == sid then Rejected else before
    case ActiveTimeout(id, sid) =>
      if x == sid && before == Downloading && x in s.lifetimes && s.lifetimes[x].id == id then Ended else before
    case _ => before
  }

  // ---------------------------------------------------------- handler steps

  lemma RepliedIs(replies: seq<Reply>, x: SessionId)
    ensures x in RepliedIn(replies) <==> Reply(x, true) in replies || Reply(x, false) in replies
  {
    if x in RepliedIn(replies) {
      var r :| r in replies && r.sid == x;
      assert r == Reply(x, r.started);
    }
  }

  /** What a status is read from. */
  ghost predicate SameParts(s: State, t: State, x: SessionId) {
    && (x in t.armed <==> x in s.armed) && (x in t.handed <==> x in s.handed) && (IsActive(t, x) <==> IsActive(s, x))
    && (Reply(x, false) in t.replies <==> Reply(x, false) in s.replies)
    && (Reply(x, true) in t.replies <==> Reply(x, true) in s.replies)
  }

  lemma RefusalStatus(s: State, x: SessionId, y: SessionId)
    requires AllSessions(s, {x})
    ensures StatusOf(Refusal(s, x), y) == if y == x then Rejected else StatusOf(s, y)
  {
    assert SessionOk(s, x, {x});
    if y != x {
      assert SameParts(s, Refusal(s, x), y);
    }
  }

  lemma StartedStatus(s: State, x: SessionId, f: FetchId, y: SessionId)
    requires AllSessions(s, {x}) && IdsOk(s) && x in s.lifetimes
    ensures StatusOf(Started(s, s.lifetimes[x], f), y) == if y == x then Downloading else StatusOf(s, y)
  {
    assert SessionOk(s, x, {x});
    RepliedIs(s.replies, x);
    if y != x {
      assert SameParts(s, Started(s, s.lifetimes[x], f), y);
    }
  }

  lemma ClaimStatus(s: State, x: SessionId, f: FetchId, y: SessionId)
    requires InvBut(s, {x}, {f})
    ensures x in s.lifetimes
    ensures StatusOf(Claim(s, s.lifetimes[x], f), y) == if y == x then Fetched(s) else StatusOf(s, y)
  {
    ClaimLimboIs(s, x, f);
    if HasRoom(s) {
      StartedStatus(s, x, f, y);
    } else {
      ExpireLimboIs(s, x, {f});
      RefusalStatus(s, x, y);
      assert SameParts(Refusal(s, x), Respond(Refusal(s, x), f, Gone), y);
    }
  }

  lemma OneReply(s: State, x: SessionId)
    requires RepliesOk(s)
    ensures !(Reply(x, true) in s.replies && Reply(x, false) in s.replies)
  {
  }

  // ------------------------------------------------------------- the events

  lemma FetchStatus(s: State, f: FetchId, id: Id, plainGet: bool, hasRange: bool, y: SessionId)
    requires Inv(s) && f !in s.seenFetches
    ensures StatusOf(OnFetch(s, f, id, plainGet, hasRange), y) == if plainGet && PendsUnder(s, y, id) then Fetched(s) else StatusOf(s, y)
  {
    PendingUnder(s, y, id);
    if plainGet && id in s.sessions {
      SeeFetch(s, f);
      PendingFetchStatus(s, f, id, hasRange, y);
    } else {
      OtherFetchStatus(s, f, id, plainGet, hasRange, y);
    }
  }

  lemma OtherFetchStatus(s: State, f: FetchId, id: Id, plainGet: bool, hasRange: bool, y: SessionId)
    requires !(plainGet && id in s.sessions)
    ensures StatusOf(OnFetch(s, f, id, plainGet, hasRange), y) == StatusOf(s, y)
  {
    assert SameParts(s, OnFetch(s, f, id, plainGet, hasRange), y);
  }

  /** A session is pending under its own id. */
  lemma PendingUnder(s: State, x: SessionId, id: Id)
    requires PendingOk(s) && IdsOk(s)
    ensures PendsUnder(s, x, id) <==> id in s.sessions && s.sessions[id].sid == x
  {
    if x in s.armed {
      assert ArmedOk(s, x);
    }
    if id in s.sessions {
      assert PendingEntryOk(s, id);
      assert ArmedOk(s, s.sessions[id].sid);
    }
  }

  lemma PendingFetchStatus(s: State, f: FetchId, id: Id, hasRange: bool, y: SessionId)
    requires InvBut(Seen(s, f), {}, {f}) && id in s.sessions
    ensures StatusOf(OnFetch(s, f, id, true, hasRange), y) == if y == s.sessions[id].sid then Fetched(s) else StatusOf(s, y)
  {
    SeenStatus(s, f, y);
    PendingClaimStatus(Seen(s, f), f, id, y);
    FetchIsClaim(s, f, id, hasRange);
  }

  lemma SeenStatus(s: State, f: FetchId, y: SessionId)
    ensures StatusOf(Seen(s, f), y) == StatusOf(s, y) && Fetched(Seen(s, f)) == Fetched(s)
  {
  }

  lemma FetchIsClaim(s: State, f: FetchId, id: Id, hasRange: bool)
    requires id in s.sessions
    ensures OnFetch(s, f, id, true, hasRange) == Claim(Seen(s, f).(sessions := s.sessions - {id}), s.sessions[id], f)
  {
  }

  lemma PendingClaimStatus(s: State, f: FetchId, id: Id, y: SessionId)
    requires InvBut(s, {}, {f}) && id in s.sessions
    ensures StatusOf(Claim(s.(sessions := s.sessions - {id}), s.sessions[id], f), y) ==
            if y == s.sessions[id].sid then Fetched(s) else StatusOf(s, y)
  {
    var session := s.sessions[id];
    assert PendingEntryOk(s, id);
    FetchClaims(s, session, f);
    TakePending(s, session.sid, {f});
    TakenStatus(s, session, y);
    TakenClaim(s, Taken(s, session), session.sid, f, y);
  }

  lemma TakenStatus(s: State, session: Session, y: SessionId)
    ensures y != session.sid ==> StatusOf(Taken(s, session), y) == StatusOf(s, y)
  {
    if y != session.sid {
      assert SameParts(s, Taken(s, session), y);
    }
  }

  lemma HandoverStatus(s: State, x: SessionId, y: SessionId)
    requires Inv(s) && x in s.handed
    ensures StatusOf(OnHandover(s, x), y) == if y == x then Fetched(s) else StatusOf(s, y)
  {
    TakenHandedStatus(s, x, y);
    TakeHanded(s, x);
    HandedSession(s, x);
    TakenClaim(s, s.(handed := s.handed - {x}), x, s.handed[x].fid, y);
  }

  /** A session was taken from s, and is claimed in t. */
  lemma TakenClaim(s: State, t: State, x: SessionId, f: FetchId, y: SessionId)
    requires InvBut(t, {x}, {f}) && t.active == s.active && (y != x ==> StatusOf(t, y) == StatusOf(s, y))
    ensures x in t.lifetimes && StatusOf(Claim(t, t.lifetimes[x], f), y) == if y == x then Fetched(s) else StatusOf(s, y)
  {
    ClaimStatus(t, x, f, y);
  }

  lemma HandedSession(s: State, x: SessionId)
    requires AllSessions(s, {}) && x in s.handed
    ensures x in s.lifetimes && s.handed[x].session == s.lifetimes[x]
  {
    assert SessionOk(s, x, {});
  }

  lemma TakenHandedStatus(s: State, x: SessionId, y: SessionId)
    ensures y != x ==> StatusOf(s.(handed := s.handed - {x}), y) == StatusOf(s, y)
  {
    if y != x {
      assert SameParts(s, s.(handed := s.handed - {x}), y);
    }
  }

  lemma ExpireStatus(s: State, x: SessionId, y: SessionId)
    requires Inv(s) && x in s.armed
    ensures StatusOf(Expire(s, s.armed[x]), y) == if y == x then Rejected else StatusOf(s, y)
  {
    var taken := Taken(s, s.armed[x]);
    TakePending(s, x, {});
    ExpireLimboIs(taken, x, {});
    ArmedUnclaimed(s, x);
    ExpireTaken(s, s.armed[x]);
    RefusalStatus(taken, x, y);
    TakenStatus(s, s.armed[x], y);
  }

  lemma ArmedUnclaimed(s: State, x: SessionId)
    requires PendingOk(s) && AllSessions(s, {}) && IdsOk(s) && x in s.armed
    ensures s.armed[x].sid == x && x !in s.claimed
  {
    assert ArmedOk(s, x);
    assert SessionOk(s, x, {});
  }

  lemma ReleaseStatus(s: State, id: Id, sid: SessionId, y: SessionId)
    requires AllActive(s) && AllSessions(s, {}) && RepliesOk(s)
    ensures StatusOf(ReleaseActive(s, id, sid), y) ==
            if y == sid && id in s.active && s.active[id].sid == sid then Ended else StatusOf(s, y)
  {
    var t := ReleaseActive(s, id, sid);
    if id in s.active && s.active[id].sid == sid {
      assert ActiveEntryOk(s, id);
      ActiveStatus(s, id);
      if y != sid {
        assert SameParts(s, t, y);
      }
    }
  }

  lemma ActiveStatus(s: State, id: Id)
    requires AllActive(s) && AllSessions(s, {}) && RepliesOk(s) && id in s.active
    ensures var x := s.active[id].sid;
            && Belongs(s, x, id, s.active[id].source) && StatusOf(s, x) == Downloading
            && x !in s.armed && x !in s.handed && Reply(x, true) in s.replies && Reply(x, false) !in s.replies
  {
    var x := s.active[id].sid;
    assert ActiveEntryOk(s, id);
    assert SessionOk(s, x, {});
    RepliedIs(s.replies, x);
    OneReply(s, x);
  }

  lemma StreamStatus(s: State, m: StreamMessage, y: SessionId)
    requires Inv(s) && m.sid !in s.seenSessions
    requires ValidMessage(m) ==> NewSession(s, SessionOf(m))
    ensures StatusOf(OnStream(s, m), y) == if y == m.sid then Announced(s, m) else StatusOf(s, y)
  {
    if ValidMessage(m) {
      ValidStatus(s, m, y);
    } else {
      InvalidStatus(s, m, y);
    }
  }

  lemma InvalidStatus(s: State, m: StreamMessage, y: SessionId)
    requires AllSessions(s, {}) && m.sid !in s.seenSessions && !ValidMessage(m)
    ensures StatusOf(OnStream(s, m), y) == if y == m.sid then Rejected else StatusOf(s, y)
  {
    assert SessionOk(s, m.sid, {});
    if y != m.sid {
      assert SameParts(s, OnStream(s, m), y);
    }
  }

  lemma ValidStatus(s: State, m: StreamMessage, y: SessionId)
    requires Inv(s) && ValidMessage(m) && NewSession(s, SessionOf(m))
    ensures StatusOf(OnStream(s, m), y) == if y == m.sid then Offered(s, SessionOf(m)) else StatusOf(s, y)
  {
    var session := SessionOf(m);
    BornKeeps(s, session);
    BornStatus(s, session, y);
    LimboIdFree(Born(s, session), m.sid, {m.sid}, {});
    BornOfferStatus(Born(s, session), session, y);
    ValidIs(s, m);
  }

  lemma ValidIs(s: State, m: StreamMessage)
    requires ValidMessage(m)
    ensures var offer := Offer(Born(s, SessionOf(m)), SessionOf(m));
            OnStream(s, m) == if offer.1 then offer.0 else Expire(offer.0, SessionOf(m))
    ensures Offered(Born(s, SessionOf(m)), SessionOf(m)) == Offered(s, SessionOf(m))
  {
  }

  lemma BornOfferStatus(s: State, session: Session, y: SessionId)
    requires InvBut(s, {session.sid}, {}) && session.sid in s.lifetimes && s.lifetimes[session.sid] == session
    requires session.id !in s.sessions
    ensures var offer := Offer(s, session);
            StatusOf(if offer.1 then offer.0 else Expire(offer.0, session), y) ==
            if y == session.sid then Offered(s, session) else StatusOf(s, y)
  {
    assert SessionOk(s, session.sid, {session.sid});
    if HasRoom(s) && session.id in s.waiters {
      HandedOverStatus(s, session, y);
    } else if HasRoom(s) && |s.sessions| < MAX_PENDING_SESSIONS {
      KeptStatus(s, session, y);
    } else {
      ExpireLimboIs(s, session.sid, {});
      RefusalStatus(s, session.sid, y);
    }
  }

  lemma HandedOverStatus(s: State, session: Session, y: SessionId)
    requires session.id in s.waiters && session.sid !in s.armed
    ensures StatusOf(HandedOver(s, session), y) == if y == session.sid then Handed else StatusOf(s, y)
  {
    if y != session.sid {
      assert SameParts(s, HandedOver(s, session), y);
    }
  }

  lemma KeptStatus(s: State, session: Session, y: SessionId)
    ensures StatusOf(Kept(s, session), y) == if y == session.sid then Pending else StatusOf(s, y)
  {
    if y != session.sid {
      assert SameParts(s, Kept(s, session), y);
    }
  }

  lemma BornStatus(s: State, session: Session, y: SessionId)
    requires session.sid !in s.lifetimes
    ensures y != session.sid ==> StatusOf(Born(s, session), y) == StatusOf(s, y)
  {
    if y != session.sid {
      assert SameParts(s, Born(s, session), y);
    }
  }

  lemma CancelStatus(s: State, id: Id, source: SourceId, y: SessionId)
    requires Inv(s)
    ensures StatusOf(OnCancel(s, id, source), y) == StatusAfter(s, CancelEvent(id, source), y)
  {
    ActiveUnder(s, y, id, source);
    PendsFrom(s, y, id, source);
    if id in s.active && s.active[id].source == source {
      ReleaseStatus(s, id, s.active[id].sid, y);
      NotBoth(s, id);
    } else if id in s.sessions && s.sessions[id].source == source {
      PendingHolds(s, id);
      ExpireStatus(s, s.sessions[id].sid, y);
    } else {
      GiveUpStatus(s, id, y);
    }
  }

  lemma PendsFrom(s: State, x: SessionId, id: Id, source: SourceId)
    requires PendingOk(s) && IdsOk(s)
    ensures StatusOf(s, x) == Pending && Belongs(s, x, id, source) <==>
            id in s.sessions && s.sessions[id].sid == x && s.sessions[id].source == source
  {
    PendingUnder(s, x, id);
    if id in s.sessions {
      assert PendingEntryOk(s, id);
      assert ArmedOk(s, s.sessions[id].sid);
    }
  }

  lemma TimeoutStatus(s: State, id: Id, sid: SessionId, y: SessionId)
    requires AllActive(s) && AllSessions(s, {}) && RepliesOk(s)
    ensures StatusOf(ReleaseActive(s, id, sid), y) == StatusAfter(s, ActiveTimeout(id, sid), y)
  {
    ReleaseStatus(s, id, sid, y);
    if id in s.active {
      ActiveStatus(s, id);
    }
  }

  lemma PendingHolds(s: State, id: Id)
    requires PendingOk(s) && id in s.sessions
    ensures s.sessions[id].sid in s.armed && s.armed[s.sessions[id].sid] == s.sessions[id]
  {
    assert PendingEntryOk(s, id);
  }

  lemma ActiveUnder(s: State, x: SessionId, id: Id, source: SourceId)
    requires AllActive(s) && AllSessions(s, {}) && RepliesOk(s)
    ensures StatusOf(s, x) == Downloading && Belongs(s, x, id, source) <==>
            id in s.active && s.active[id].sid == x && s.active[id].source == source
  {
    if id in s.active {
      ActiveStatus(s, id);
    }
  }

  lemma NotBoth(s: State, id: Id)
    requires PendingOk(s) && AllActive(s) && AllSessions(s, {}) && IdsOk(s) && id in s.active
    ensures id !in s.sessions
  {
    assert ActiveEntryOk(s, id);
    assert SessionOk(s, s.active[id].sid, {});
    forall i | i in s.sessions
      ensures i != id
    {
      assert PendingEntryOk(s, i);
      assert ArmedOk(s, s.sessions[i].sid);
      assert SessionOk(s, s.sessions[i].sid, {});
    }
  }

  lemma GiveUpStatus(s: State, id: Id, y: SessionId)
    ensures StatusOf(GiveUp(s, id), y) == StatusOf(s, y)
  {
    assert SameParts(s, GiveUp(s, id), y);
  }

  /** An event moves the sessions that it is about, as their own course says, and no other one. */
  lemma StatusFollows(s: State, e: Event, x: SessionId)
    requires Inv(s) && Possible(s, e) && FreshId(s, e)
    ensures StatusOf(Step(s, e), x) == StatusAfter(s, e, x)
  {
    match e
    case StreamEvent(m) => StreamStatus(s, m, x);
    case FetchEvent(fid, id, plainGet, hasRange) => FetchStatus(s, fid, id, plainGet, hasRange, x);
    case HandoverEvent(sid) => HandoverStatus(s, sid, x);
    case CancelEvent(id, source) => CancelStatus(s, id, source, x);
    case HeartbeatEvent(_, _) =>
    case CompleteEvent(_, _) =>
    case SessionTimeout(sid) => ExpireStatus(s, sid, x);
    case FetchTimeout(id) => GiveUpStatus(s, id, x);
    case ActiveTimeout(id, sid) => TimeoutStatus(s, id, sid, x);
  }

  // --------------------------------------------------------------- over runs

  /** In every run, each event moves each session exactly along its own course. */
  lemma SessionsGoTheirWay(events: seq<Event>, states: seq<State>, n: nat, x: SessionId)
    requires IsRun(events, states) && n < |events|
    ensures StatusOf(states[n + 1], x) == StatusAfter(states[n], events[n], x)
  {
    RunKeeps(events, states, n);
    FollowsAt(events, states, n);
    StatusFollows(states[n], events[n], x);
  }

  lemma FollowsAt(events: seq<Event>, states: seq<State>, i: nat)
    requires IsRun(events, states) && i < |events|
    ensures Follows(states[i], events[i], states[i + 1]) && FreshId(states[i], events[i])
  {
  }

  /** The course of a session: announced, fetched, ended, and never back. */
  predicate Before(a: Status, b: Status) {
    || a == b
    || a.Unseen?
    || ((a.Pending? || a.Handed?) && (b.Downloading? || b.Ended? || b.Rejected?))
    || (a.Downloading? && b.Ended?)
  }

  lemma StatusAdvances(s: State, e: Event, x: SessionId)
    requires Inv(s) && Possible(s, e)
    ensures Before(StatusOf(s, x), StatusAfter(s, e, x))
  {
    match e
    case StreamEvent(m) => SeenStatusOf(s, x);
    case HandoverEvent(sid) => SeenStatusOf(s, sid);
    case SessionTimeout(sid) => SeenStatusOf(s, sid);
    case _ =>
  }

  lemma SeenStatusOf(s: State, x: SessionId)
    requires AllSessions(s, {})
    ensures x !in s.seenSessions <==> StatusOf(s, x).Unseen?
    ensures x in s.handed ==> StatusOf(s, x).Handed?
  {
    assert SessionOk(s, x, {});
    RepliedIs(s.replies, x);
  }

  /** A session never goes back: one that was rejected or has ended stays so, and a download is only followed by its end. */
  lemma {:induction false} SessionsOnlyAdvance(events: seq<Event>, states: seq<State>, i: nat, j: nat, x: SessionId)
    requires IsRun(events, states) && i <= j < |states|
    ensures Before(StatusOf(states[i], x), StatusOf(states[j], x))
  {
    if i < j {
      SessionsOnlyAdvance(events, states, i, j - 1, x);
      NextAdvances(events, states, j - 1, x);
    }
  }

  lemma NextAdvances(events: seq<Event>, states: seq<State>, n: nat, x: SessionId)
    requires IsRun(events, states) && n < |events|
    ensures Before(StatusOf(states[n], x), StatusOf(states[n + 1], x))
  {
    SessionsGoTheirWay(events, states, n, x);
    RunKeeps(events, states, n);
    FollowsAt(events, states, n);
    StatusAdvances(states[n], events[n], x);
  }

  // ---------------------------------------------------------------- answers

  /** The answer to a fetch that takes a session. */
  function AnswerWith(s: State, fid: FetchId, session: Session): Answer {
    Answer(fid, if HasRoom(s) then Streamed(session.sid, session.size) else Gone)
  }

  /** The answers that an event leads to, at most one. */
  function NewAnswers(s: State, e: Event): seq<Answer>
    requires e.HandoverEvent? ==> e.sid in s.handed
  {
    match e
    case FetchEvent(fid, id, plainGet, hasRange) =>
      if !plainGet then [Answer(fid, Refused(if hasRange then 416 else 405))]
      else if id in s.sessions then [AnswerWith(s, fid, s.sessions[id])]
      else if id in s.waiters || |s.waiters| >= MAX_PENDING_FETCHES then [Answer(fid, Gone)]
      else []
    case HandoverEvent(sid) => [AnswerWith(s, s.handed[sid].fid, s.handed[sid].session)]
    case CancelEvent(id, source) =>
      if id in s.waiters && !(id in s.active && s.active[id].source == source) then [Answer(s.waiters[id], Gone)] else []
    case FetchTimeout(id) => if id in s.waiters then [Answer(s.waiters[id], Gone)] else []
    case _ => []
  }

  lemma ClaimAnswers(s: State, x: SessionId, f: FetchId)
    requires InvBut(s, {x}, {f})
    ensures x in s.lifetimes && Claim(s, s.lifetimes[x], f).answers == s.answers + [AnswerWith(s, f, s.lifetimes[x])]
  {
    ClaimLimboIs(s, x, f);
    ExpireLimboIs(s, x, {f});
  }

  lemma FetchAnswers(s: State, f: FetchId, id: Id, plainGet: bool, hasRange: bool)
    requires Inv(s) && f !in s.seenFetches
    ensures OnFetch(s, f, id, plainGet, hasRange).answers == s.answers + NewAnswers(s, FetchEvent(f, id, plainGet, hasRange))
  {
    if plainGet && id in s.sessions {
      SeeFetch(s, f);
      PendingAnswers(s, f, id, hasRange);
    } else {
      OtherFetchAnswers(s, f, id, plainGet, hasRange);
    }
  }

  lemma OtherFetchAnswers(s: State, f: FetchId, id: Id, plainGet: bool, hasRange: bool)
    requires !(plainGet && id in s.sessions)
    ensures OnFetch(s, f, id, plainGet, hasRange).answers == s.answers + NewAnswers(s, FetchEvent(f, id, plainGet, hasRange))
  {
  }

  lemma PendingAnswers(s: State, f: FetchId, id: Id, hasRange: bool)
    requires InvBut(Seen(s, f), {}, {f}) && id in s.sessions
    ensures OnFetch(s, f, id, true, hasRange).answers == s.answers + [AnswerWith(s, f, s.sessions[id])]
  {
    FetchIsClaim(s, f, id, hasRange);
    PendingClaimAnswers(Seen(s, f), f, id);
  }

  lemma PendingClaimAnswers(s: State, f: FetchId, id: Id)
    requires InvBut(s, {}, {f}) && id in s.sessions
    ensures Claim(s.(sessions := s.sessions - {id}), s.sessions[id], f).answers == s.answers + [AnswerWith(s, f, s.sessions[id])]
  {
    var session := s.sessions[id];
    assert PendingEntryOk(s, id);
    FetchClaims(s, session, f);
    TakePending(s, session.sid, {f});
    ClaimAnswers(Taken(s, session), session.sid, f);
  }

  lemma HandoverAnswers(s: State, x: SessionId)
    requires Inv(s) && x in s.handed
    ensures OnHandover(s, x).answers == s.answers + [AnswerWith(s, s.handed[x].fid, s.handed[x].session)]
  {
    TakeHanded(s, x);
    HandedSession(s, x);
    ClaimAnswers(s.(handed := s.handed - {x}), x, s.handed[x].fid);
  }

  lemma CancelAnswers(s: State, id: Id, source: SourceId)
    requires PendingOk(s)
    ensures OnCancel(s, id, source).answers == s.answers + NewAnswers(s, CancelEvent(id, source))
  {
    if id in s.sessions {
      assert PendingEntryOk(s, id);
    }
  }

  lemma StreamAnswers(s: State, m: StreamMessage)
    ensures OnStream(s, m).answers == s.answers
  {
    if ValidMessage(m) {
      ValidIs(s, m);
      OfferAnswers(Born(s, SessionOf(m)), SessionOf(m));
    }
  }

  lemma OfferAnswers(s: State, session: Session)
    ensures var offer := Offer(s, session);
            (if offer.1 then offer.0 else Expire(offer.0, session)).answers == s.answers
  {
  }

  lemma TimerAnswers(s: State, e: Event)
    requires Possible(s, e) && (e.SessionTimeout? || e.FetchTimeout? || e.ActiveTimeout?)
    ensures Step(s, e).answers == s.answers + NewAnswers(s, e)
  {
  }

  /** Which fetches an event answers and how: with the stream while there is room, and otherwise as gone. */
  lemma AnswersFollow(s: State, e: Event)
    requires Inv(s) && Possible(s, e)
    ensures Step(s, e).answers == s.answers + NewAnswers(s, e)
  {
    match e
    case StreamEvent(m) => StreamAnswers(s, m);
    case FetchEvent(fid, id, plainGet, hasRange) => FetchAnswers(s, fid, id, plainGet, hasRange);
    case HandoverEvent(sid) => HandoverAnswers(s, sid);
    case CancelEvent(id, source) => CancelAnswers(s, id, source);
    case HeartbeatEvent(_, _) =>
    case CompleteEvent(_, _) =>
    case _ => TimerAnswers(s, e);
  }

  /** The event puts the stream of x into an answer. */
  ghost predicate Streams(s: State, e: Event, x: SessionId)
    requires e.HandoverEvent? ==> e.sid in s.handed
  {
    exists a :: a in NewAnswers(s, e) && a.response.Streamed? && a.response.sid == x
  }

  lemma StreamsMeans(s: State, e: Event, x: SessionId)
    requires PendingOk(s) && IdsOk(s) && AllSessions(s, {}) && Possible(s, e)
    ensures Streams(s, e, x) <==>
            && HasRoom(s)
            && ((e.HandoverEvent? && e.sid == x) || (e.FetchEvent? && e.plainGet && PendsUnder(s, x, e.id)))
  {
    match e
    case FetchEvent(fid, id, plainGet, _) =>
      PendingUnder(s, x, id);
      if id in s.sessions {
        assert AnswerWith(s, fid, s.sessions[id]) in [AnswerWith(s, fid, s.sessions[id])];
      }
    case HandoverEvent(sid) =>
      HandedSession(s, sid);
      assert AnswerWith(s, s.handed[sid].fid, s.handed[sid].session) in NewAnswers(s, e);
    case _ =>
  }

  lemma BeginsMeans(s: State, e: Event, x: SessionId)
    requires AllSessions(s, {}) && Possible(s, e)
    ensures !StatusOf(s, x).Downloading? && StatusAfter(s, e, x).Downloading? <==>
            && HasRoom(s)
            && ((e.HandoverEvent? && e.sid == x) || (e.FetchEvent? && e.plainGet && PendsUnder(s, x, e.id)))
  {
    if e.HandoverEvent? {
      SeenStatusOf(s, e.sid);
    }
  }

  lemma StreamedMore(s: State, t: State, e: Event, x: SessionId)
    requires e.HandoverEvent? ==> e.sid in s.handed
    requires t.answers == s.answers + NewAnswers(s, e)
    ensures x in StreamedIn(t.answers) <==> x in StreamedIn(s.answers) || Streams(s, e, x)
  {
    if NewAnswers(s, e) == [] {
      assert t.answers == s.answers;
    } else {
      var a := NewAnswers(s, e)[0];
      assert NewAnswers(s, e) == [a];
      AnsweredAppend(s.answers, a);
    }
  }

  lemma UnstreamedUntilTaken(s: State, x: SessionId)
    requires AllSessions(s, {}) && RepliesOk(s) && (StatusOf(s, x).Pending? || StatusOf(s, x).Handed?)
    ensures x !in StreamedIn(s.answers)
  {
    assert SessionOk(s, x, {});
  }

  /** A session starts downloading in exactly that step of a run which puts its stream into the answer to a fetch. */
  lemma StartsExactlyWhenStreamed(events: seq<Event>, states: seq<State>, n: nat, x: SessionId)
    requires IsRun(events, states) && n < |events|
    ensures !StatusOf(states[n], x).Downloading? && StatusOf(states[n + 1], x).Downloading?
            <==> x !in StreamedIn(states[n].answers) && x in StreamedIn(states[n + 1].answers)
  {
    var s, e := states[n], events[n];
    RunKeeps(events, states, n);
    FollowsAt(events, states, n);
    StatusFollows(s, e, x);
    AnswersFollow(s, e);
    StartedIsStreamed(s, e, x);
  }

  lemma StartedIsStreamed(s: State, e: Event, x: SessionId)
    requires Inv(s) && Possible(s, e) && Step(s, e).answers == s.answers + NewAnswers(s, e)
    ensures !StatusOf(s, x).Downloading? && StatusAfter(s, e, x).Downloading?
            <==> x !in StreamedIn(s.answers) && x in StreamedIn(Step(s, e).answers)
  {
    StreamsMeans(s, e, x);
    BeginsMeans(s, e, x);
    StreamedMore(s, Step(s, e), e, x);
    if Streams(s, e, x) {
      TakenStatusOf(s, e, x);
      UnstreamedUntilTaken(s, x);
    }
  }

  lemma TakenStatusOf(s: State, e: Event, x: SessionId)
    requires AllSessions(s, {}) && Possible(s, e)
    requires (e.HandoverEvent? && e.sid == x) || (e.FetchEvent? && PendsUnder(s, x, e.id))
    ensures StatusOf(s, x).Pending? || StatusOf(s, x).Handed?
  {
    if e.HandoverEvent? {
      SeenStatusOf(s, x);
    }
  }
}
