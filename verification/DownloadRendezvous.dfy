/**
 The download service worker as a transition system: a page offers a stream under a random id, the browser fetches
 that id, in either order, and timers, capacity limits and single-use claims decide who gets what.
 */
module DownloadRendezvous {

  type Id = nat
  /** A session object: one stream with its reply port and its lifetime. */
  type SessionId = nat
  type FetchId = nat
  type SourceId = nat

  const PROTOCOL_VERSION: int := 1
  const MAX_PLAINTEXT_SIZE: int := 50 * 1024 * 1024 * 1024
  const MAX_PENDING_SESSIONS: nat := 4
  const MAX_PENDING_FETCHES: nat := 8
  const MAX_ACTIVE_DOWNLOADS: nat := 4

  datatype Session = Session(sid: SessionId, id: Id, source: SourceId, size: nat)
  datatype ActiveEntry = ActiveEntry(sid: SessionId, source: SourceId)
  /** A fetch whose waiting promise was resolved with a session that it has not claimed yet. */
  datatype Handover = Handover(session: Session, fid: FetchId)

  /** A reply on a session's port; the port is closed right after. */
  datatype Reply = Reply(sid: SessionId, started: bool)
  datatype Response = Streamed(sid: SessionId, contentLength: nat) | Gone | Refused(status: int)
  datatype Answer = Answer(fid: FetchId, response: Response)

  datatype State = State(
    sessions: map<Id, Session>,
    waiters: map<Id, FetchId>,
    active: map<Id, ActiveEntry>,
    /** Sessions whose timeout is armed. */
    armed: map<SessionId, Session>,
    handed: map<SessionId, Handover>,
    claimed: set<SessionId>,
    released: set<SessionId>,
    cancelled: set<SessionId>,
    replies: seq<Reply>,
    answers: seq<Answer>,
    // history
    lifetimes: map<SessionId, Session>,
    seenSessions: set<SessionId>,
    seenFetches: set<FetchId>
  )

  const INITIAL: State := State(map[], map[], map[], map[], map[], {}, {}, {}, [], [], map[], {}, {})

  // --------------------------------------------------------------- worker

  /** releaseActiveDownload: only for the entry that is registered. */
  function ReleaseActive(s: State, id: Id, sid: SessionId): State {
    if id in s.active && s.active[id].sid == sid then
      s.(active := s.active - {id}, released := s.released + {sid})
    else s
  }

  /** expireSession */
  function Expire(s: State, session: Session): State {
    if session.sid in s.claimed then s
    else
      s.(claimed := s.claimed + {session.sid},
         armed := s.armed - {session.sid},
         sessions := s.sessions - {session.id},
         replies := s.replies + [Reply(session.sid, false)],
         released := s.released + {session.sid},
         cancelled := s.cancelled + {session.sid})
  }

  function Respond(s: State, fid: FetchId, response: Response): State {
    s.(answers := s.answers + [Answer(fid, response)])
  }

  /** claimSession for the response of a fetch. */
  function Claim(s: State, session: Session, fid: FetchId): State {
    if session.sid in s.claimed then Respond(s, fid, Gone)
    else if |s.active| >= MAX_ACTIVE_DOWNLOADS then Respond(Expire(s, session), fid, Gone)
    else
      Respond(s.(claimed := s.claimed + {session.sid},
                 armed := s.armed - {session.sid},
                 sessions := s.sessions - {session.id},
                 active := s.active[session.id := ActiveEntry(session.sid, session.source)],
                 replies := s.replies + [Reply(session.sid, true)]),
              fid, Streamed(session.sid, session.size))
  }

  /** offerSession: handed to a waiting fetch, kept pending, or refused. */
  function Offer(s: State, session: Session): (State, bool) {
    if |s.active| >= MAX_ACTIVE_DOWNLOADS then (s, false)
    else if session.id in s.waiters then
      (s.(waiters := s.waiters - {session.id}, handed := s.handed[session.sid := Handover(session, s.waiters[session.id])]), true)
    else if session.id in s.sessions || |s.sessions| >= MAX_PENDING_SESSIONS then (s, false)
    else (s.(armed := s.armed[session.sid := session], sessions := s.sessions[session.id := session]), true)
  }

  /** A REDBOX_STREAM_DOWNLOAD message with a port. */
  datatype StreamMessage = StreamMessage(
    sid: SessionId,
    version: int,
    idWellFormed: bool,
    id: Id,
    nameLength: nat,
    size: int,
    readable: bool,
    hasSource: bool,
    source: SourceId
  )

  predicate ValidMessage(m: StreamMessage) {
    && m.version == PROTOCOL_VERSION
    && m.idWellFormed
    && 1 <= m.nameLength <= 100
    && 1 <= m.size <= MAX_PLAINTEXT_SIZE
    && m.readable
    && m.hasSource
  }

  function SessionOf(m: StreamMessage): Session
    requires ValidMessage(m)
  {
    Session(m.sid, m.id, m.source, m.size)
  }

  function OnStream(s: State, m: StreamMessage): State {
    var seen := s.(seenSessions := s.seenSessions + {m.sid});
    if !ValidMessage(m) then
      seen.(replies := s.replies + [Reply(m.sid, false)], cancelled := if m.readable then s.cancelled + {m.sid} else s.cancelled)
    else
      var session := SessionOf(m);
      var offer := Offer(seen.(lifetimes := s.lifetimes[m.sid := session]), session);
      if offer.1 then offer.0 else Expire(offer.0, session)
  }

  /** The fetch handler on a download path; `plainGet` is a GET without a range. */
  function OnFetch(s: State, fid: FetchId, id: Id, plainGet: bool, hasRange: bool): State {
    var seen := s.(seenFetches := s.seenFetches + {fid});
    if !plainGet then Respond(seen, fid, Refused(if hasRange then 416 else 405))
    else if id in s.sessions then Claim(seen.(sessions := s.sessions - {id}), s.sessions[id], fid)
    else if id in s.waiters || |s.waiters| >= MAX_PENDING_FETCHES then Respond(seen, fid, Gone)
    else seen.(waiters := s.waiters[id := fid])
  }

  /** The continuation of a waiting fetch runs with the session it was resolved with. */
  function OnHandover(s: State, sid: SessionId): State
    requires sid in s.handed
  {
    var h := s.handed[sid];
    Claim(s.(handed := s.handed - {sid}), h.session, h.fid)
  }

  /** A waiting fetch is resolved with no session. */
  function GiveUp(s: State, id: Id): State {
    if id in s.waiters then Respond(s.(waiters := s.waiters - {id}), s.waiters[id], Gone) else s
  }

  /** REDBOX_DOWNLOAD_CANCEL from a source. Heartbeat and complete messages only move the timer of an active entry. */
  function OnCancel(s: State, id: Id, source: SourceId): State {
    if id in s.active && s.active[id].source == source then ReleaseActive(s, id, s.active[id].sid)
    else if id in s.sessions && s.sessions[id].source == source then Expire(s, s.sessions[id])
    else GiveUp(s, id)
  }

  // ----------------------------------------------------------------- runs

  datatype Event =
    | StreamEvent(m: StreamMessage)
    | FetchEvent(fid: FetchId, id: Id, plainGet: bool, hasRange: bool)
    | HandoverEvent(sid: SessionId)
    | CancelEvent(id: Id, source: SourceId)
    | HeartbeatEvent(id: Id, source: SourceId)
    | CompleteEvent(id: Id, source: SourceId)
    | SessionTimeout(sid: SessionId)
    | FetchTimeout(id: Id)
    | ActiveTimeout(id: Id, sid: SessionId)

  function Step(s: State, e: Event): State
    requires e.HandoverEvent? ==> e.sid in s.handed
    requires e.SessionTimeout? ==> e.sid in s.armed
  {
    match e
    case StreamEvent(m) => OnStream(s, m)
    case FetchEvent(fid, id, plainGet, hasRange) => OnFetch(s, fid, id, plainGet, hasRange)
    case HandoverEvent(sid) => OnHandover(s, sid)
    case CancelEvent(id, source) => OnCancel(s, id, source)
    case HeartbeatEvent(_, _) => s
    case CompleteEvent(_, _) => s
    case SessionTimeout(sid) => Expire(s, s.armed[sid])
    case FetchTimeout(id) => GiveUp(s, id)
    case ActiveTimeout(id, sid) => ReleaseActive(s, id, sid)
  }

  /** Events come from new objects, and timers fire only while armed. Ids may still be reused. */
  ghost predicate Possible(s: State, e: Event) {
    match e
    case StreamEvent(m) => m.sid !in s.seenSessions
    case FetchEvent(fid, _, _, _) => fid !in s.seenFetches
    case HandoverEvent(sid) => sid in s.handed
    case SessionTimeout(sid) => sid in s.armed
    case _ => true
  }

  /** A page draws each id at random, so a stream never comes with an id that was offered before. */
  ghost predicate FreshId(s: State, e: Event) {
    e.StreamEvent? && ValidMessage(e.m) ==> forall x :: x in s.lifetimes ==> s.lifetimes[x].id != e.m.id
  }

  /** A run in which ids may be reused. */
  ghost predicate IsLooseRun(events: seq<Event>, states: seq<State>) {
    && |states| == |events| + 1
    && states[0] == INITIAL
    && forall i :: 0 <= i < |events| ==> Follows(states[i], events[i], states[i + 1])
  }

  ghost predicate Follows(s: State, e: Event, t: State) {
    Possible(s, e) && t == Step(s, e)
  }

  ghost predicate IsRun(events: seq<Event>, states: seq<State>) {
    IsLooseRun(events, states) && forall i :: 0 <= i < |events| ==> FreshId(states[i], events[i])
  }
}
