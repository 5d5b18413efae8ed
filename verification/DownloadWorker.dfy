/** The service worker's tables and handlers as they are updated in place, each proved against its transition. */
module DownloadWorker {
  import opened DownloadRendezvous
  import opened RendezvousSafety
  import opened RendezvousStatus

  class Worker {
    var sessions: map<Id, Session>
    var fetchWaiters: map<Id, FetchId>
    var activeDownloads: map<Id, ActiveEntry>
    /** The sessions with an armed timeout, and those that a waiting promise was resolved with. */
    var timeouts: map<SessionId, Session>
    var resolved: map<SessionId, Handover>
    /** The `claimed` flag of each session, and whether its lifetime was released and its stream cancelled. */
    var claimed: set<SessionId>
    var released: set<SessionId>
    var cancelled: set<SessionId>
    /** What was posted on session ports and given to respondWith. */
    var replies: seq<Reply>
    var answers: seq<Answer>
    ghost var lifetimes: map<SessionId, Session>
    ghost var seenSessions: set<SessionId>
    ghost var seenFetches: set<FetchId>

    ghost function Abs(): State
      reads this
    {
      State(sessions, fetchWaiters, activeDownloads, timeouts, resolved, claimed, released, cancelled, replies, answers,
            lifetimes, seenSessions, seenFetches)
    }

    constructor ()
      ensures Abs() == INITIAL && Inv(Abs())
    {
      sessions, fetchWaiters, activeDownloads, timeouts, resolved := map[], map[], map[], map[], map[];
      claimed, released, cancelled, replies, answers := {}, {}, {}, [], [];
      lifetimes, seenSessions, seenFetches := map[], {}, {};
      new;
      InitialInv();
    }

    method ReleaseActiveDownload(id: Id, sid: SessionId)
      modifies this
      ensures Abs() == ReleaseActive(old(Abs()), id, sid)
    {
      if id !in activeDownloads || activeDownloads[id].sid != sid {
        return;
      }
      activeDownloads := activeDownloads - {id};
      released := released + {sid};
    }

    /** A session leaves the pending table and its timeout is cleared; nobody can claim it any more. */
    method MarkClaimed(session: Session)
      modifies this`claimed, this`timeouts, this`sessions
      ensures claimed == old(claimed) + {session.sid}
      ensures timeouts == old(timeouts) - {session.sid}
      ensures sessions == old(sessions) - {session.id}
    {
      claimed := claimed + {session.sid};
      timeouts := timeouts - {session.sid};
      sessions := sessions - {session.id};
    }

    method ExpireSession(session: Session)
      modifies this
      ensures Abs() == Expire(old(Abs()), session)
    {
      if session.sid in claimed {
        return;
      }
      MarkClaimed(session);
      replies := replies + [Reply(session.sid, false)];
      released := released + {session.sid};
      cancelled := cancelled + {session.sid};
    }

    method RespondWith(fid: FetchId, response: Response)
      modifies this`answers
      ensures answers == old(answers) + [Answer(fid, response)]
    {
      answers := answers + [Answer(fid, response)];
    }

    method ClaimSession(session: Session, fid: FetchId)
      modifies this
      ensures Abs() == Claim(old(Abs()), session, fid)
    {
      if session.sid in claimed {
        RespondWith(fid, Gone);
        return;
      }
      if |activeDownloads| >= MAX_ACTIVE_DOWNLOADS {
        ExpireSession(session);
        RespondWith(fid, Gone);
        return;
      }
      StartDownload(session, fid);
    }

    /** The successful end of claimSession. */
    method StartDownload(session: Session, fid: FetchId)
      requires session.sid !in claimed && |activeDownloads| < MAX_ACTIVE_DOWNLOADS
      modifies this
      ensures Abs() == Claim(old(Abs()), session, fid)
    {
      var entry := ActiveEntry(session.sid, session.source);
      MarkClaimed(session);
      activeDownloads := activeDownloads[session.id := entry];
      replies := replies + [Reply(session.sid, true)];
      RespondWith(fid, Streamed(session.sid, session.size));
    }

    /** False when the fetch has to be answered as gone at once. */
    method WaitForSession(id: Id, fid: FetchId) returns (waits: bool)
      modifies this`fetchWaiters
      ensures waits <==> id !in old(fetchWaiters) && |old(fetchWaiters)| < MAX_PENDING_FETCHES
      ensures fetchWaiters == if waits then old(fetchWaiters)[id := fid] else old(fetchWaiters)
    {
      if id in fetchWaiters || |fetchWaiters| >= MAX_PENDING_FETCHES {
        return false;
      }
      fetchWaiters := fetchWaiters[id := fid];
      return true;
    }

    method OfferSession(session: Session) returns (taken: bool)
      modifies this
      ensures (Abs(), taken) == Offer(old(Abs()), session)
    {
      if |activeDownloads| >= MAX_ACTIVE_DOWNLOADS {
        return false;
      }
      if session.id in fetchWaiters {
        resolved := resolved[session.sid := Handover(session, fetchWaiters[session.id])];
        fetchWaiters := fetchWaiters - {session.id};
        return true;
      }
      if session.id in sessions || |sessions| >= MAX_PENDING_SESSIONS {
        return false;
      }
      timeouts := timeouts[session.sid := session];
      sessions := sessions[session.id := session];
      return true;
    }

    /** The message handler on REDBOX_STREAM_DOWNLOAD. */
    method HandleStream(m: StreamMessage)
      modifies this
      ensures Abs() == OnStream(old(Abs()), m)
    {
      seenSessions := seenSessions + {m.sid};
      if ValidMessage(m) {
        AcceptStream(SessionOf(m));
      } else {
        if m.readable {
          cancelled := cancelled + {m.sid};
        }
        replies := replies + [Reply(m.sid, false)];
      }
    }

    method AcceptStream(session: Session)
      modifies this
      ensures Abs() == var offer := Offer(old(Abs()).(lifetimes := old(lifetimes)[session.sid := session]), session);
                       if offer.1 then offer.0 else Expire(offer.0, session)
    {
      lifetimes := lifetimes[session.sid := session];
      var taken := OfferSession(session);
      if !taken {
        ExpireSession(session);
      }
    }

    /** The fetch handler on a download path. */
    method HandleFetch(fid: FetchId, id: Id, plainGet: bool, hasRange: bool)
      modifies this
      ensures Abs() == OnFetch(old(Abs()), fid, id, plainGet, hasRange)
    {
      seenFetches := seenFetches + {fid};
      if !plainGet {
        RespondWith(fid, Refused(if hasRange then 416 else 405));
        return;
      }
      if id in sessions {
        var existing := sessions[id];
        sessions := sessions - {id};
        ClaimSession(existing, fid);
        return;
      }
      var waits := WaitForSession(id, fid);
      if !waits {
        RespondWith(fid, Gone);
      }
    }

    /** The continuation of a waiting fetch, run with the session its promise was resolved with. */
    method ContinueFetch(sid: SessionId)
      requires sid in resolved
      modifies this
      ensures Abs() == OnHandover(old(Abs()), sid)
    {
      var handover := resolved[sid];
      resolved := resolved - {sid};
      ClaimSession(handover.session, handover.fid);
    }

    /** The timeout of a waiting fetch, and the cancellation of one. */
    method GiveUpWaiting(id: Id)
      modifies this
      ensures Abs() == GiveUp(old(Abs()), id)
    {
      if id in fetchWaiters {
        var fid := fetchWaiters[id];
        fetchWaiters := fetchWaiters - {id};
        RespondWith(fid, Gone);
      }
    }

    /** The message handler on REDBOX_DOWNLOAD_CANCEL. */
    method HandleCancel(id: Id, source: SourceId)
      modifies this
      ensures Abs() == OnCancel(old(Abs()), id, source)
    {
      if id in activeDownloads && activeDownloads[id].source == source {
        ReleaseActiveDownload(id, activeDownloads[id].sid);
        return;
      }
      if id in sessions && sessions[id].source == source {
        ExpireSession(sessions[id]);
        return;
      }
      GiveUpWaiting(id);
    }

    /**
     Whatever the event loop runs next keeps the invariant, moves the sessions that it is about along their course and
     no other one, and answers the fetches that it has to.
     */
    method Dispatch(e: Event)
      requires Inv(Abs()) && Possible(Abs(), e) && FreshId(Abs(), e)
      modifies this
      ensures Abs() == Step(old(Abs()), e) && Inv(Abs())
      ensures forall x :: StatusOf(Abs(), x) == StatusAfter(old(Abs()), e, x)
      ensures answers == old(answers) + NewAnswers(old(Abs()), e)
    {
      DispatchOutcome(Abs(), e);
      match e
      case StreamEvent(m) => HandleStream(m);
      case FetchEvent(fid, id, plainGet, hasRange) => HandleFetch(fid, id, plainGet, hasRange);
      case HandoverEvent(sid) => ContinueFetch(sid);
      case CancelEvent(id, source) => HandleCancel(id, source);
      case HeartbeatEvent(_, _) =>
      case CompleteEvent(_, _) =>
      case SessionTimeout(sid) => ExpireSession(timeouts[sid]);
      case FetchTimeout(id) => GiveUpWaiting(id);
      case ActiveTimeout(id, sid) => ReleaseActiveDownload(id, sid);
    }
  }

  lemma DispatchOutcome(s: State, e: Event)
    requires Inv(s) && Possible(s, e) && FreshId(s, e)
    ensures Inv(Step(s, e))
    ensures forall x :: StatusOf(Step(s, e), x) == StatusAfter(s, e, x)
    ensures Step(s, e).answers == s.answers + NewAnswers(s, e)
  {
    StepKeeps(s, e);
    AnswersFollow(s, e);
    forall x
      ensures StatusOf(Step(s, e), x) == StatusAfter(s, e, x)
    {
      StatusFollows(s, e, x);
    }
  }
}
