/** What the download worker guarantees to pages and to the browser, over every run. */
module DownloadGuarantees {
  import opened Sequences
  import opened DownloadRendezvous
  import opened RendezvousSafety

  /** Four pending sessions, eight waiting fetches and four active downloads at most, in every interleaving. */
  lemma TablesStayWithinLimits(events: seq<Event>, states: seq<State>, n: nat)
    requires IsRun(events, states) && n < |states|
    ensures |states[n].sessions| <= 4 && |states[n].waiters| <= 8 && |states[n].active| <= 4
  {
    RunKeeps(events, states, n);
  }

  /** No id is both pending and waited for. */
  lemma NeverPendingAndWaited(events: seq<Event>, states: seq<State>, n: nat, id: Id)
    requires IsRun(events, states) && n < |states|
    ensures !(id in states[n].sessions && id in states[n].waiters)
  {
    RunKeeps(events, states, n);
    if id in states[n].sessions {
      assert PendingEntryOk(states[n], id);
    }
  }

  /** A page hears at most once about its session. */
  lemma OneReplyPerSession(events: seq<Event>, states: seq<State>, n: nat, i: nat, j: nat)
    requires IsRun(events, states) && n < |states|
    requires i < |states[n].replies| && j < |states[n].replies| && states[n].replies[i].sid == states[n].replies[j].sid
    ensures i == j
  {
    RunKeeps(events, states, n);
  }

  ghost predicate StreamedAt(s: State, x: SessionId, k: nat) {
    k < |s.answers| && s.answers[k].response.Streamed? && s.answers[k].response.sid == x
  }

  /**
   A session that was replied to as started has its stream in exactly one response and uncancelled; one that was
   replied to with an error has it in no response and, if its message was valid, cancelled.
   */
  lemma ReplyTellsTheOutcome(events: seq<Event>, states: seq<State>, n: nat, r: Reply)
    requires IsRun(events, states) && n < |states| && r in states[n].replies
    ensures r.started ==> r.sid !in states[n].cancelled
    ensures r.started ==> exists k :: StreamedAt(states[n], r.sid, k)
    ensures !r.started ==> forall k :: !StreamedAt(states[n], r.sid, k)
    ensures !r.started && r.sid in states[n].lifetimes ==> r.sid in states[n].cancelled
    ensures forall k, l :: StreamedAt(states[n], r.sid, k) && StreamedAt(states[n], r.sid, l) ==> k == l
  {
    RunKeeps(events, states, n);
    OutcomeOf(states[n], r);
  }

  lemma OutcomeOf(s: State, r: Reply)
    requires RepliesOk(s) && AnswersOk(s) && r in s.replies
    ensures r.started ==> r.sid !in s.cancelled
    ensures r.started ==> exists k :: StreamedAt(s, r.sid, k)
    ensures !r.started ==> forall k :: !StreamedAt(s, r.sid, k)
    ensures !r.started && r.sid in s.lifetimes ==> r.sid in s.cancelled
    ensures forall k, l :: StreamedAt(s, r.sid, k) && StreamedAt(s, r.sid, l) ==> k == l
  {
    assert ReplyOk(s, r);
    if r.started {
      assert r.sid in StreamedIn(s.answers);
      var a :| a in s.answers && a.response.Streamed? && a.response.sid == r.sid;
      var k :| 0 <= k < |s.answers| && s.answers[k] == a;
      assert StreamedAt(s, r.sid, k);
    } else {
      forall k: nat | k < |s.answers| && s.answers[k].response.Streamed?
        ensures s.answers[k].response.sid != r.sid
      {
        assert s.answers[k] in s.answers;
        assert s.answers[k].response.sid in StreamedIn(s.answers);
      }
    }
  }

  /** A response carries a stream only if its page was told that the download started. */
  lemma StreamedWasAnnounced(events: seq<Event>, states: seq<State>, n: nat, x: SessionId, k: nat)
    requires IsRun(events, states) && n < |states| && StreamedAt(states[n], x, k)
    ensures Reply(x, true) in states[n].replies
    ensures x in states[n].lifetimes && states[n].answers[k].response.contentLength == states[n].lifetimes[x].size
  {
    var s := states[n];
    RunKeeps(events, states, n);
    assert s.answers[k] in s.answers && AnswerOk(s, s.answers[k]);
    assert x in StreamedIn(s.answers);
    assert x in RepliedIn(s.replies);
    var r :| r in s.replies && r.sid == x;
    assert ReplyOk(s, r);
  }

  /** A fetch is answered at most once, and until then it is waiting for a session or about to get one. */
  lemma OneAnswerPerFetch(events: seq<Event>, states: seq<State>, n: nat, f: FetchId)
    requires IsRun(events, states) && n < |states|
    ensures var s := states[n];
            (forall i, j :: 0 <= i < |s.answers| && 0 <= j < |s.answers| && s.answers[i].fid == f && s.answers[j].fid == f ==> i == j)
            && (f in s.seenFetches <==>
                  f in s.waiters.Values || f in HandedFetches(s.handed) || exists i :: 0 <= i < |s.answers| && s.answers[i].fid == f)
            && (f in AnsweredIn(s.answers) ==> f !in s.waiters.Values && f !in HandedFetches(s.handed))
  {
    var s := states[n];
    RunKeeps(events, states, n);
    if f in AnsweredIn(s.answers) {
      var a :| a in s.answers && a.fid == f;
      var i :| 0 <= i < |s.answers| && s.answers[i] == a;
      assert s.answers[i].fid == f;
    }
    forall i | 0 <= i < |s.answers| && s.answers[i].fid == f
      ensures f in AnsweredIn(s.answers)
    {
      assert s.answers[i] in s.answers;
    }
  }

  ghost predicate IsPending(s: State, x: SessionId) {
    x in s.lifetimes && s.lifetimes[x].id in s.sessions && s.sessions[s.lifetimes[x].id].sid == x
  }

  /** The worker is kept alive for a session exactly while it is pending, being handed over, or downloading. */
  lemma LifetimeIsExact(events: seq<Event>, states: seq<State>, n: nat, x: SessionId)
    requires IsRun(events, states) && n < |states| && x in states[n].lifetimes
    ensures x !in states[n].released <==> IsPending(states[n], x) || x in states[n].handed || IsActive(states[n], x)
  {
    var s := states[n];
    RunKeeps(events, states, n);
    assert SessionOk(s, x, {});
    if x in s.armed {
      assert ArmedOk(s, x);
    }
    if IsPending(s, x) {
      assert PendingEntryOk(s, s.lifetimes[x].id);
    }
  }

  // ------------------------------------------- a session is its message

  /** No session was born between s and t. */
  ghost predicate SameBirths(s: State, t: State) {
    t.lifetimes == s.lifetimes && t.seenSessions == s.seenSessions
  }

  lemma ExpireBears(s: State, session: Session)
    ensures SameBirths(s, Expire(s, session))
  {
  }

  lemma ClaimBears(s: State, session: Session, fid: FetchId)
    ensures SameBirths(s, Claim(s, session, fid))
  {
    ExpireBears(s, session);
  }

  lemma OfferBears(s: State, session: Session)
    ensures SameBirths(s, Offer(s, session).0)
  {
  }

  lemma FetchBears(s: State, fid: FetchId, id: Id, plainGet: bool, hasRange: bool)
    ensures SameBirths(s, OnFetch(s, fid, id, plainGet, hasRange))
  {
    if id in s.sessions {
      ClaimBears(s.(seenFetches := s.seenFetches + {fid}, sessions := s.sessions - {id}), s.sessions[id], fid);
    }
  }

  lemma HandoverBears(s: State, x: SessionId)
    requires x in s.handed
    ensures SameBirths(s, OnHandover(s, x))
  {
    ClaimBears(s.(handed := s.handed - {x}), s.handed[x].session, s.handed[x].fid);
  }

  lemma CancelBears(s: State, id: Id, source: SourceId)
    ensures SameBirths(s, OnCancel(s, id, source))
  {
    if id in s.sessions {
      ExpireBears(s, s.sessions[id]);
    }
  }

  lemma OtherStepsBear(s: State, e: Event)
    requires Possible(s, e) && !e.StreamEvent?
    ensures SameBirths(s, Step(s, e))
  {
    match e
    case FetchEvent(fid, id, plainGet, hasRange) => FetchBears(s, fid, id, plainGet, hasRange);
    case HandoverEvent(x) => HandoverBears(s, x);
    case CancelEvent(id, source) => CancelBears(s, id, source);
    case SessionTimeout(x) => ExpireBears(s, s.armed[x]);
    case _ =>
  }

  lemma StreamBears(s: State, m: StreamMessage)
    ensures OnStream(s, m).seenSessions == s.seenSessions + {m.sid}
    ensures OnStream(s, m).lifetimes == if ValidMessage(m) then s.lifetimes[m.sid := SessionOf(m)] else s.lifetimes
  {
    if ValidMessage(m) {
      var born := Born(s, SessionOf(m));
      OfferBears(born, SessionOf(m));
      ExpireBears(Offer(born, SessionOf(m)).0, SessionOf(m));
    }
  }

  lemma FollowsAt(events: seq<Event>, states: seq<State>, i: nat)
    requires IsRun(events, states) && i < |events|
    ensures Follows(states[i], events[i], states[i + 1])
  {
  }

  /** The worker has seen the message: its session has the lifetime that the message asks for, or none if it is invalid. */
  ghost predicate BornFrom(s: State, m: StreamMessage) {
    && m.sid in s.seenSessions
    && (m.sid in s.lifetimes <==> ValidMessage(m))
    && (ValidMessage(m) ==> s.lifetimes[m.sid] == SessionOf(m))
  }

  lemma StepBears(s: State, e: Event, m: StreamMessage)
    requires Possible(s, e) && BornFrom(s, m)
    ensures BornFrom(Step(s, e), m)
  {
    if e.StreamEvent? {
      StreamBears(s, e.m);
    } else {
      OtherStepsBear(s, e);
    }
  }

  lemma FirstBears(s: State, m: StreamMessage)
    requires IdsOk(s) && m.sid !in s.seenSessions
    ensures BornFrom(OnStream(s, m), m)
  {
    StreamBears(s, m);
  }

  /** What the worker keeps of a session is for ever what its page's message said. */
  lemma {:induction false} SessionIsItsMessage(events: seq<Event>, states: seq<State>, j: nat, n: nat)
    requires IsRun(events, states) && j < n < |states| && events[j].StreamEvent?
    ensures BornFrom(states[n], events[j].m)
  {
    if n == j + 1 {
      FirstBirth(events, states, j);
    } else {
      SessionIsItsMessage(events, states, j, n - 1);
      NextBirth(events, states, n - 1, events[j].m);
    }
  }

  /** A message gets a session exactly if it keeps to the protocol; any other is refused at once and its stream cancelled. */
  lemma AdmittedExactly(events: seq<Event>, states: seq<State>, j: nat)
    requires IsRun(events, states) && j < |events| && events[j].StreamEvent?
    ensures var m, s, t := events[j].m, states[j], states[j + 1];
            if m.version == 1 && m.idWellFormed && 1 <= m.nameLength <= 100 && 1 <= m.size <= 50 * 1024 * 1024 * 1024
               && m.readable && m.hasSource
            then m.sid in t.lifetimes && t.lifetimes[m.sid] == Session(m.sid, m.id, m.source, m.size)
            else && m.sid !in t.lifetimes && t.replies == s.replies + [Reply(m.sid, false)]
                 && t.cancelled == if m.readable then s.cancelled + {m.sid} else s.cancelled
  {
    FirstBirth(events, states, j);
    FollowsAt(events, states, j);
  }

  lemma FirstBirth(events: seq<Event>, states: seq<State>, j: nat)
    requires IsRun(events, states) && j < |events| && events[j].StreamEvent?
    ensures BornFrom(states[j + 1], events[j].m)
  {
    RunKeeps(events, states, j);
    FollowsAt(events, states, j);
    FirstBears(states[j], events[j].m);
  }

  lemma NextBirth(events: seq<Event>, states: seq<State>, n: nat, m: StreamMessage)
    requires IsRun(events, states) && n < |events| && BornFrom(states[n], m)
    ensures BornFrom(states[n + 1], m)
  {
    FollowsAt(events, states, n);
    StepBears(states[n], events[n], m);
  }

  /** The Content-Length of a stream's response is the size in the message that the stream came with. */
  lemma ResponseHasMessageSize(events: seq<Event>, states: seq<State>, j: nat, n: nat, k: nat)
    requires IsRun(events, states) && j < n < |states| && events[j].StreamEvent?
    requires StreamedAt(states[n], events[j].m.sid, k)
    ensures ValidMessage(events[j].m) && states[n].answers[k].response.contentLength == events[j].m.size
  {
    SessionIsItsMessage(events, states, j, n);
    StreamedWasAnnounced(events, states, n, events[j].m.sid, k);
  }

  // ------------------------------------------------- outcomes are final

  /** What was posted, answered, released or cancelled is never taken back. */
  ghost predicate Grows(s: State, t: State) {
    s.replies <= t.replies && s.answers <= t.answers && s.released <= t.released && s.cancelled <= t.cancelled
  }

  lemma ExpireGrows(s: State, session: Session)
    ensures Grows(s, Expire(s, session))
  {
  }

  lemma ClaimGrows(s: State, session: Session, fid: FetchId)
    ensures Grows(s, Claim(s, session, fid))
  {
    if session.sid !in s.claimed {
      if |s.active| >= MAX_ACTIVE_DOWNLOADS {
        ExpireGrows(s, session);
      } else {
        StartGrows(s, session, fid);
      }
    }
  }

  lemma StartGrows(s: State, session: Session, fid: FetchId)
    requires session.sid !in s.claimed && |s.active| < MAX_ACTIVE_DOWNLOADS
    ensures Grows(s, Claim(s, session, fid))
  {
  }

  lemma OfferGrows(s: State, session: Session)
    ensures Grows(s, Offer(s, session).0)
  {
  }

  lemma GrowsTwice(s: State, t: State, u: State)
    requires Grows(s, t) && Grows(t, u)
    ensures Grows(s, u)
  {
  }

  lemma StreamGrows(s: State, m: StreamMessage)
    ensures Grows(s, OnStream(s, m))
  {
    if ValidMessage(m) {
      var born := Born(s, SessionOf(m));
      var kept := Offer(born, SessionOf(m)).0;
      OfferGrows(born, SessionOf(m));
      ExpireGrows(kept, SessionOf(m));
      GrowsTwice(s, born, kept);
      GrowsTwice(s, kept, Expire(kept, SessionOf(m)));
    }
  }

  lemma FetchGrows(s: State, fid: FetchId, id: Id, plainGet: bool, hasRange: bool)
    ensures Grows(s, OnFetch(s, fid, id, plainGet, hasRange))
  {
    if id in s.sessions {
      ClaimGrows(s.(seenFetches := s.seenFetches + {fid}, sessions := s.sessions - {id}), s.sessions[id], fid);
    }
  }

  lemma CancelGrows(s: State, id: Id, source: SourceId)
    ensures Grows(s, OnCancel(s, id, source))
  {
    if id in s.sessions {
      ExpireGrows(s, s.sessions[id]);
    }
  }

  lemma HandoverGrows(s: State, x: SessionId)
    requires x in s.handed
    ensures Grows(s, OnHandover(s, x))
  {
    ClaimGrows(s.(handed := s.handed - {x}), s.handed[x].session, s.handed[x].fid);
  }

  lemma StepGrows(s: State, e: Event)
    requires Possible(s, e)
    ensures Grows(s, Step(s, e))
  {
    match e
    case StreamEvent(m) => StreamGrows(s, m);
    case FetchEvent(fid, id, plainGet, hasRange) => FetchGrows(s, fid, id, plainGet, hasRange);
    case HandoverEvent(x) => HandoverGrows(s, x);
    case CancelEvent(id, source) => CancelGrows(s, id, source);
    case HeartbeatEvent(_, _) =>
    case CompleteEvent(_, _) =>
    case SessionTimeout(x) => ExpireGrows(s, s.armed[x]);
    case FetchTimeout(_) =>
    case ActiveTimeout(_, _) =>
  }

  lemma {:induction false} OutcomesAreFinal(events: seq<Event>, states: seq<State>, i: nat, j: nat)
    requires IsLooseRun(events, states) && i <= j < |states|
    ensures Grows(states[i], states[j])
  {
    if i < j {
      OutcomesAreFinal(events, states, i, j - 1);
      assert Follows(states[j - 1], events[j - 1], states[j - 1 + 1]);
      StepGrows(states[j - 1], events[j - 1]);
    }
  }

  // ------------------------------------------------------- nothing is lost

  /** Nothing is left that a timer or a continuation could still move. */
  predicate Quiet(s: State) {
    s.armed == map[] && s.waiters == map[] && s.handed == map[] && s.active == map[]
  }

  /** Once things are quiet every fetch has its answer, every session its reply, and every lifetime is over. */
  lemma QuietMeansSettled(events: seq<Event>, states: seq<State>, n: nat)
    requires IsRun(events, states) && n < |states| && Quiet(states[n])
    ensures var s := states[n];
            && s.sessions == map[]
            && AnsweredIn(s.answers) == s.seenFetches
            && RepliedIn(s.replies) == s.seenSessions
            && s.released == s.lifetimes.Keys
  {
    var s := states[n];
    RunKeeps(events, states, n);
    forall id | id in s.sessions
      ensures s.sessions[id].sid in s.armed
    {
      assert PendingEntryOk(s, id);
    }
    forall x
      ensures x in RepliedIn(s.replies) <==> x in s.seenSessions
      ensures x in s.released <==> x in s.lifetimes
    {
      assert SessionOk(s, x, {});
    }
  }

  /** Timers and continuations, which need no new message and no new fetch. */
  predicate Internal(e: Event) {
    e.HandoverEvent? || e.SessionTimeout? || e.FetchTimeout? || e.ActiveTimeout?
  }

  ghost function Work(s: State): nat {
    |s.armed| + |s.waiters| + 2 * |s.handed| + |s.active|
  }

  /** An event that needs no outside help and leaves less to do. */
  ghost predicate Helps(s: State, e: Event) {
    Possible(s, e) && Internal(e) && Work(Step(s, e)) < Work(s)
  }

  lemma SomethingToDo(s: State) returns (e: Event)
    requires Inv(s) && !Quiet(s)
    ensures Helps(s, e)
  {
    if s.handed != map[] {
      var x :| x in s.handed;
      e := HandoverEvent(x);
      HandoverHelps(s, x);
    } else if s.armed != map[] {
      var x :| x in s.armed;
      e := SessionTimeout(x);
      ArmedUnclaimed(s, x);
      TimeoutHelps(s, x);
    } else if s.waiters != map[] {
      var id :| id in s.waiters;
      e := FetchTimeout(id);
      GiveUpHelps(s, id);
    } else {
      var id :| id in s.active;
      e := ActiveTimeout(id, s.active[id].sid);
      ReleaseHelps(s, id);
    }
  }

  lemma HandoverHelps(s: State, x: SessionId)
    requires x in s.handed
    ensures Helps(s, HandoverEvent(x))
  {
    HandoverWorks(s, x);
  }

  lemma ArmedUnclaimed(s: State, x: SessionId)
    requires Inv(s) && x in s.armed
    ensures s.armed[x].sid == x && x !in s.claimed
  {
    assert ArmedOk(s, x);
    assert SessionOk(s, x, {});
  }

  lemma TimeoutHelps(s: State, x: SessionId)
    requires x in s.armed && s.armed[x].sid == x && x !in s.claimed
    ensures Helps(s, SessionTimeout(x))
  {
    TimeoutWorks(s, x);
  }

  lemma GiveUpHelps(s: State, id: Id)
    requires id in s.waiters
    ensures Helps(s, FetchTimeout(id))
  {
    GiveUpWorks(s, id);
  }

  lemma ReleaseHelps(s: State, id: Id)
    requires id in s.active
    ensures Helps(s, ActiveTimeout(id, s.active[id].sid))
  {
    ReleaseWorks(s, id);
  }

  lemma ExpireWork(s: State, session: Session)
    ensures Work(Expire(s, session)) <= Work(s)
  {
    SmallerMap(s.armed, session.sid);
  }

  lemma TimeoutWorks(s: State, x: SessionId)
    requires x in s.armed && s.armed[x].sid == x && x !in s.claimed
    ensures Work(Expire(s, s.armed[x])) < Work(s)
  {
    SmallerMap(s.armed, x);
  }

  lemma GiveUpWorks(s: State, id: Id)
    requires id in s.waiters
    ensures Work(GiveUp(s, id)) < Work(s)
  {
    SmallerMap(s.waiters, id);
  }

  lemma ReleaseWorks(s: State, id: Id)
    requires id in s.active
    ensures Work(ReleaseActive(s, id, s.active[id].sid)) < Work(s)
  {
    SmallerMap(s.active, id);
  }

  lemma ClaimWork(s: State, session: Session, fid: FetchId)
    ensures Work(Claim(s, session, fid)) <= Work(s) + 1
  {
    if session.sid !in s.claimed && |s.active| < MAX_ACTIVE_DOWNLOADS {
      StartWork(s, session, fid);
    } else {
      ExpireWork(s, session);
    }
  }

  lemma StartWork(s: State, session: Session, fid: FetchId)
    requires session.sid !in s.claimed && |s.active| < MAX_ACTIVE_DOWNLOADS
    ensures Work(Claim(s, session, fid)) <= Work(s) + 1
  {
    SmallerMap(s.armed, session.sid);
    LargerMap(s.active, session.id, ActiveEntry(session.sid, session.source));
  }

  lemma HandoverWorks(s: State, x: SessionId)
    requires x in s.handed
    ensures Work(OnHandover(s, x)) < Work(s)
  {
    var t := s.(handed := s.handed - {x});
    SmallerMap(s.handed, x);
    assert Work(t) == Work(s) - 2;
    ClaimWork(t, s.handed[x].session, s.handed[x].fid);
  }

  /** From every reachable state, timers and continuations alone bring the worker to rest: nothing waits for ever. */
  lemma {:induction false} TimersSettleEverything(events: seq<Event>, states: seq<State>)
      returns (allEvents: seq<Event>, allStates: seq<State>)
    requires IsRun(events, states)
    ensures IsRun(allEvents, allStates) && events <= allEvents && states <= allStates
    ensures forall i :: |events| <= i < |allEvents| ==> Internal(allEvents[i])
    ensures Quiet(allStates[|allEvents|])
    decreases Work(states[|events|])
  {
    if Quiet(states[|events|]) {
      allEvents, allStates := events, states;
    } else {
      var e, t := ExtendRun(events, states);
      allEvents, allStates := TimersSettleEverything(events + [e], states + [t]);
      assert allEvents[|events|] == (events + [e])[|events|];
    }
  }

  lemma ExtendRun(events: seq<Event>, states: seq<State>) returns (e: Event, t: State)
    requires IsRun(events, states) && !Quiet(states[|events|])
    ensures Internal(e) && IsRun(events + [e], states + [t]) && Work(t) < Work(states[|events|])
  {
    RunKeeps(events, states, |events|);
    e := SomethingToDo(states[|events|]);
    t := Step(states[|events|], e);
    RunAppend(events, states, e, t);
  }

  lemma RunAppend(events: seq<Event>, states: seq<State>, e: Event, t: State)
    requires IsRun(events, states) && Follows(states[|events|], e, t) && FreshId(states[|events|], e)
    ensures IsRun(events + [e], states + [t])
  {
    var events', states' := events + [e], states + [t];
    forall i | 0 <= i < |events'|
      ensures Follows(states'[i], events'[i], states'[i + 1]) && FreshId(states'[i], events'[i])
    {
      if i < |events| {
        assert Follows(states[i], events[i], states[i + 1]);
      }
    }
  }
}
