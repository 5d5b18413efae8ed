/** What every reachable state of the download worker satisfies, whatever the order of messages, fetches and timers. */
module RendezvousSafety {
  import opened Sequences
  import opened DownloadRendezvous

  ghost function RepliedIn(replies: seq<Reply>): set<SessionId> {
    set r | r in replies :: r.sid
  }

  ghost function AnsweredIn(answers: seq<Answer>): set<FetchId> {
    set a | a in answers :: a.fid
  }

  /** The sessions whose stream went into a response. */
  ghost function StreamedIn(answers: seq<Answer>): set<SessionId> {
    set a | a in answers && a.response.Streamed? :: a.response.sid
  }

  /** The fetches being handed a session. */
  ghost function HandedFetches(handed: map<SessionId, Handover>): set<FetchId> {
    set x | x in handed :: handed[x].fid
  }

  ghost predicate WithinLimits(s: State) {
    |s.sessions| <= MAX_PENDING_SESSIONS && |s.waiters| <= MAX_PENDING_FETCHES && |s.active| <= MAX_ACTIVE_DOWNLOADS
  }

  /** Ids tell sessions apart. */
  ghost predicate IdsOk(s: State) {
    && (forall x :: x in s.lifetimes ==> s.lifetimes[x].sid == x && x in s.seenSessions)
    && (forall x, y :: x in s.lifetimes && y in s.lifetimes && x != y ==> s.lifetimes[x].id != s.lifetimes[y].id)
  }

  /** The pending sessions are those with an armed timeout; none is waited for. */
  ghost predicate PendingOk(s: State) {
    && (forall id :: id in s.sessions ==> PendingEntryOk(s, id))
    && (forall x :: x in s.armed ==> ArmedOk(s, x))
  }

  ghost predicate PendingEntryOk(s: State, id: Id)
    requires id in s.sessions
  {
    var session := s.sessions[id];
    session.id == id && id !in s.waiters && session.sid in s.armed && s.armed[session.sid] == session
  }

  ghost predicate ArmedOk(s: State, x: SessionId)
    requires x in s.armed
  {
    x in s.lifetimes && s.armed[x] == s.lifetimes[x] && s.armed[x].id in s.sessions && s.sessions[s.armed[x].id] == s.armed[x]
  }

  ghost predicate ActiveEntryOk(s: State, id: Id)
    requires id in s.active
  {
    var x := s.active[id].sid;
    x in s.lifetimes && s.lifetimes[x].id == id && s.lifetimes[x].source == s.active[id].source && x in s.claimed && Reply(x, true) in s.replies
  }

  ghost predicate IsActive(s: State, x: SessionId) {
    x in s.lifetimes && s.lifetimes[x].id in s.active && s.active[s.lifetimes[x].id].sid == x
  }

  /**
   Each session is pending, being handed over, or replied to, and only one of these; its lifetime is unresolved
   exactly while it is pending, being handed over or active. `limbo` are sessions in the hands of a handler.
   */
  ghost predicate SessionOk(s: State, x: SessionId, limbo: set<SessionId>) {
    var replied := x in RepliedIn(s.replies);
    && (x in s.seenSessions <==> x in s.armed || x in s.handed || replied || x in limbo)
    && (x in s.armed ==> x !in s.handed && !replied && x !in limbo)
    && (x in s.handed ==> !replied && x !in limbo && x in s.lifetimes && s.handed[x].session == s.lifetimes[x])
    && (x in limbo ==> !replied && x in s.lifetimes)
    && (x in s.claimed <==> replied && x in s.lifetimes)
    && (x in s.released ==> x in s.lifetimes)
    && (x in s.lifetimes ==> (x !in s.released <==> x in s.armed || x in s.handed || x in limbo || IsActive(s, x)))
  }

  /** A session that was replied to was started, with its stream in a response, or refused, with its stream cancelled. */
  ghost predicate ReplyOk(s: State, r: Reply) {
    && (r.started <==> r.sid in StreamedIn(s.answers))
    && (r.started ==> r.sid !in s.cancelled && r.sid in s.lifetimes)
    && (!r.started && r.sid in s.lifetimes ==> r.sid in s.cancelled)
  }

  ghost predicate RepliesOk(s: State) {
    && (forall i, j :: 0 <= i < j < |s.replies| ==> s.replies[i].sid != s.replies[j].sid)
    && (forall r :: r in s.replies ==> ReplyOk(s, r))
    && s.cancelled <= RepliedIn(s.replies) && StreamedIn(s.answers) <= RepliedIn(s.replies)
  }

  /** Each fetch is waiting, being handed a session, or answered, and only one of these. */
  ghost predicate FetchesOk(s: State, limbo: set<FetchId>) {
    && s.seenFetches == s.waiters.Values + HandedFetches(s.handed) + AnsweredIn(s.answers) + limbo
    && s.waiters.Values !! HandedFetches(s.handed) !! AnsweredIn(s.answers) !! limbo
    && (forall x, y :: x in s.waiters && y in s.waiters && x != y ==> s.waiters[x] != s.waiters[y])
    && (forall x, y :: x in s.handed && y in s.handed && x != y ==> s.handed[x].fid != s.handed[y].fid)
  }

  ghost predicate AnswerOk(s: State, a: Answer) {
    a.response.Streamed? ==> a.response.sid in s.lifetimes && s.lifetimes[a.response.sid].size == a.response.contentLength
  }

  ghost predicate AnswersOk(s: State) {
    && (forall i, j :: 0 <= i < j < |s.answers| ==> s.answers[i].fid != s.answers[j].fid)
    && (forall i, j :: 0 <= i < j < |s.answers| && s.answers[i].response.Streamed? && s.answers[j].response.Streamed? ==>
          s.answers[i].response.sid != s.answers[j].response.sid)
    && (forall a :: a in s.answers ==> AnswerOk(s, a))
  }

  ghost predicate AllSessions(s: State, limbo: set<SessionId>) {
    forall x :: SessionOk(s, x, limbo)
  }

  ghost predicate AllActive(s: State) {
    forall id :: id in s.active ==> ActiveEntryOk(s, id)
  }

  ghost predicate InvBut(s: State, limbo: set<SessionId>, open: set<FetchId>) {
    && WithinLimits(s) && IdsOk(s) && PendingOk(s) && AllActive(s)
    && AllSessions(s, limbo) && RepliesOk(s) && FetchesOk(s, open) && AnswersOk(s)
  }

  ghost predicate Inv(s: State) {
    InvBut(s, {}, {})
  }

  // ------------------------------------------------------------------ logs

  lemma RepliedAppend(replies: seq<Reply>, r: Reply)
    ensures RepliedIn(replies + [r]) == RepliedIn(replies) + {r.sid}
  {
    assert forall q :: q in replies + [r] <==> q in replies || q == r;
  }

  lemma AnsweredAppend(answers: seq<Answer>, a: Answer)
    ensures AnsweredIn(answers + [a]) == AnsweredIn(answers) + {a.fid}
    ensures StreamedIn(answers + [a]) == StreamedIn(answers) + if a.response.Streamed? then {a.response.sid} else {}
  {
    assert forall q :: q in answers + [a] <==> q in answers || q == a;
  }

  /** Removing one key of an injective map removes one value. */
  lemma RemoveWaiter(waiters: map<Id, FetchId>, id: Id)
    requires id in waiters && forall x, y :: x in waiters && y in waiters && x != y ==> waiters[x] != waiters[y]
    ensures (waiters - {id}).Values == waiters.Values - {waiters[id]}
  {
    forall f | f in waiters.Values - {waiters[id]}
      ensures f in (waiters - {id}).Values
    {
      var x :| x in waiters && waiters[x] == f;
      assert x in waiters - {id} && (waiters - {id})[x] == f;
    }
    forall f | f in (waiters - {id}).Values
      ensures f in waiters.Values - {waiters[id]}
    {
      var x :| x in waiters - {id} && (waiters - {id})[x] == f;
      assert waiters[x] == f;
    }
  }

  lemma AddWaiter(waiters: map<Id, FetchId>, id: Id, f: FetchId)
    requires id !in waiters
    ensures waiters[id := f].Values == waiters.Values + {f}
  {
    var w := waiters[id := f];
    forall g | g in waiters.Values + {f}
      ensures g in w.Values
    {
      if g == f {
        assert w[id] == f;
      } else {
        var x :| x in waiters && waiters[x] == g;
        assert w[x] == g;
      }
    }
  }

  // ------------------------------------------------------------ handler steps

  /** A session in limbo is under no other name: its id is neither pending nor active. */
  lemma LimboIdFree(s: State, x: SessionId, limbo: set<SessionId>, open: set<FetchId>)
    requires InvBut(s, limbo, open) && x in limbo
    ensures x in s.lifetimes && s.lifetimes[x].id !in s.sessions && s.lifetimes[x].id !in s.active
  {
    assert SessionOk(s, x, limbo);
    forall id | id in s.sessions
      ensures id != s.lifetimes[x].id
    {
      assert PendingEntryOk(s, id);
      assert ArmedOk(s, s.sessions[id].sid);
      assert SessionOk(s, s.sessions[id].sid, limbo);
    }
    forall id | id in s.active
      ensures id != s.lifetimes[x].id
    {
      assert ActiveEntryOk(s, id);
      assert SessionOk(s, s.active[id].sid, limbo);
    }
  }

  // ------------------------------------------------- one predicate at a time

  /** Of the logs, the pending and active entries look only at replies that were posted. */
  lemma SameEntries(s: State, t: State)
    requires PendingOk(s) && AllActive(s) && s.replies <= t.replies
    requires t.sessions == s.sessions && t.armed == s.armed && t.waiters == s.waiters && t.active == s.active
    requires t.lifetimes == s.lifetimes && s.claimed <= t.claimed
    ensures PendingOk(t) && AllActive(t)
  {
    forall id | id in t.active
      ensures ActiveEntryOk(t, id)
    {
      assert ActiveEntryOk(s, id);
    }
    forall id | id in t.sessions
      ensures PendingEntryOk(t, id)
    {
      assert PendingEntryOk(s, id);
    }
    forall y | y in t.armed
      ensures ArmedOk(t, y)
    {
      assert ArmedOk(s, y);
    }
  }

  lemma SameFetches(s: State, t: State, open: set<FetchId>)
    requires FetchesOk(s, open)
    requires t.seenFetches == s.seenFetches && t.waiters == s.waiters && t.handed == s.handed && t.answers == s.answers
    ensures FetchesOk(t, open)
  {
  }

  lemma SameReplies(s: State, t: State)
    requires RepliesOk(s)
    requires t.replies == s.replies && StreamedIn(t.answers) == StreamedIn(s.answers) && t.cancelled == s.cancelled
    requires t.lifetimes == s.lifetimes
    ensures RepliesOk(t)
  {
    forall r | r in t.replies
      ensures ReplyOk(t, r)
    {
      assert ReplyOk(s, r);
    }
  }

  lemma SameAnswers(s: State, t: State)
    requires AnswersOk(s) && t.answers == s.answers && t.lifetimes == s.lifetimes
    ensures AnswersOk(t)
  {
    forall a | a in t.answers
      ensures AnswerOk(t, a)
    {
      assert AnswerOk(s, a);
    }
  }

  lemma SameSessions(s: State, t: State, limbo: set<SessionId>)
    requires AllSessions(s, limbo)
    requires t.seenSessions == s.seenSessions && t.armed == s.armed && t.handed == s.handed && t.replies == s.replies
    requires t.claimed == s.claimed && t.lifetimes == s.lifetimes && t.released == s.released && t.active == s.active
    ensures AllSessions(t, limbo)
  {
    forall y
      ensures SessionOk(t, y, limbo)
    {
      assert SessionOk(s, y, limbo);
    }
  }

  lemma AnswersAppend(s: State, f: FetchId, response: Response)
    requires AnswersOk(s) && f !in AnsweredIn(s.answers)
    requires response.Streamed? ==>
               response.sid in s.lifetimes && s.lifetimes[response.sid].size == response.contentLength
               && response.sid !in StreamedIn(s.answers)
    ensures AnswersOk(Respond(s, f, response))
  {
    var t := Respond(s, f, response);
    forall i, j | 0 <= i < j < |t.answers|
      ensures t.answers[i].fid != t.answers[j].fid
      ensures t.answers[i].response.Streamed? && t.answers[j].response.Streamed? ==>
                t.answers[i].response.sid != t.answers[j].response.sid
    {
      assert t.answers[i] in s.answers;
      assert t.answers[i].fid in AnsweredIn(s.answers);
      assert t.answers[i].response.Streamed? ==> t.answers[i].response.sid in StreamedIn(s.answers);
    }
    forall a | a in t.answers
      ensures AnswerOk(t, a)
    {
      assert a in s.answers ==> AnswerOk(s, a);
    }
  }

  lemma FetchesAppend(s: State, f: FetchId, response: Response)
    requires FetchesOk(s, {f})
    ensures f !in AnsweredIn(s.answers)
    ensures FetchesOk(Respond(s, f, response), {})
  {
    AnsweredAppend(s.answers, Answer(f, response));
  }

  lemma RepliesAppend(s: State, t: State, x: SessionId, started: bool)
    requires RepliesOk(s) && x !in RepliedIn(s.replies) && x in s.lifetimes
    requires t.replies == s.replies + [Reply(x, started)] && t.lifetimes == s.lifetimes
    requires started ==> StreamedIn(t.answers) == StreamedIn(s.answers) + {x} && t.cancelled == s.cancelled
    requires !started ==> StreamedIn(t.answers) == StreamedIn(s.answers) && t.cancelled == s.cancelled + {x}
    ensures RepliesOk(t)
  {
    RepliedAppend(s.replies, Reply(x, started));
    forall r | r in t.replies
      ensures ReplyOk(t, r)
    {
      if r in s.replies {
        assert ReplyOk(s, r);
        assert r.sid in RepliedIn(s.replies);
      }
    }
    forall i, j | 0 <= i < j < |t.replies|
      ensures t.replies[i].sid != t.replies[j].sid
    {
      assert t.replies[i] in s.replies;
      assert t.replies[i].sid in RepliedIn(s.replies);
    }
  }

  // ----------------------------------------------------------- handler steps

  /** Refusing a session that is nowhere else. */
  function Refusal(s: State, x: SessionId): State {
    s.(claimed := s.claimed + {x}, replies := s.replies + [Reply(x, false)], released := s.released + {x}, cancelled := s.cancelled + {x})
  }

  lemma ExpireLimboIs(s: State, x: SessionId, open: set<FetchId>)
    requires InvBut(s, {x}, open)
    ensures x in s.lifetimes && x !in RepliedIn(s.replies) && Expire(s, s.lifetimes[x]) == Refusal(s, x)
  {
    LimboIdFree(s, x, {x}, open);
    assert SessionOk(s, x, {x});
    AbsentIsRefused(s, s.lifetimes[x]);
  }

  lemma AbsentIsRefused(s: State, session: Session)
    requires session.sid !in s.claimed && session.sid !in s.armed && session.id !in s.sessions
    ensures Expire(s, session) == Refusal(s, session.sid)
  {
    MinusAbsent(s.armed, {session.sid});
    MinusAbsent(s.sessions, {session.id});
  }

  lemma RefusalSessions(s: State, x: SessionId)
    requires AllSessions(s, {x}) && IdsOk(s) && x in s.lifetimes && s.lifetimes[x].id !in s.active
    ensures AllSessions(Refusal(s, x), {})
  {
    var t := Refusal(s, x);
    RepliedAppend(s.replies, Reply(x, false));
    forall y
      ensures SessionOk(t, y, {})
    {
      assert SessionOk(s, y, {x});
    }
  }

  /** A session in limbo is refused: its one reply is an error and its stream is cancelled. */
  lemma ExpireLimbo(s: State, x: SessionId, open: set<FetchId>)
    requires InvBut(s, {x}, open)
    ensures x in s.lifetimes && InvBut(Expire(s, s.lifetimes[x]), {}, open)
  {
    LimboIdFree(s, x, {x}, open);
    ExpireLimboIs(s, x, open);
    var t := Refusal(s, x);
    RefusalSessions(s, x);
    RepliesAppend(s, t, x, false);
    SameEntries(s, t);
    SameFetches(s, t, open);
    SameAnswers(s, t);
  }

  lemma AnswerLogs(s: State, f: FetchId, response: Response)
    requires RepliesOk(s) && FetchesOk(s, {f}) && AnswersOk(s) && !response.Streamed?
    ensures var t := Respond(s, f, response); RepliesOk(t) && FetchesOk(t, {}) && AnswersOk(t)
  {
    AnsweredAppend(s.answers, Answer(f, response));
    FetchesAppend(s, f, response);
    AnswersAppend(s, f, response);
    SameReplies(s, Respond(s, f, response));
  }

  lemma AnswerTables(s: State, limbo: set<SessionId>, f: FetchId, response: Response)
    requires PendingOk(s) && AllActive(s) && AllSessions(s, limbo)
    ensures var t := Respond(s, f, response); PendingOk(t) && AllActive(t) && AllSessions(t, limbo)
  {
    SameEntries(s, Respond(s, f, response));
    SameSessions(s, Respond(s, f, response), limbo);
  }

  /** A fetch in limbo is answered without a stream. */
  lemma AnswerLimbo(s: State, limbo: set<SessionId>, f: FetchId, response: Response)
    requires InvBut(s, limbo, {f}) && !response.Streamed?
    ensures InvBut(Respond(s, f, response), limbo, {})
  {
    AnswerLogs(s, f, response);
    AnswerTables(s, limbo, f, response);
  }

  /** The state in which claimSession starts the stream of a session that is nowhere else. */
  function Started(s: State, session: Session, f: FetchId): State {
    Respond(s.(claimed := s.claimed + {session.sid},
               active := s.active[session.id := ActiveEntry(session.sid, session.source)],
               replies := s.replies + [Reply(session.sid, true)]),
            f, Streamed(session.sid, session.size))
  }

  lemma StartSessions(s: State, x: SessionId, f: FetchId)
    requires AllSessions(s, {x}) && IdsOk(s) && x in s.lifetimes && s.lifetimes[x].id !in s.active
    ensures AllSessions(Started(s, s.lifetimes[x], f), {})
  {
    var t := Started(s, s.lifetimes[x], f);
    RepliedAppend(s.replies, Reply(x, true));
    forall y
      ensures SessionOk(t, y, {})
    {
      assert SessionOk(s, y, {x});
      assert SessionOk(s, x, {x});
      assert IsActive(t, y) <==> IsActive(s, y) || y == x;
    }
  }

  lemma StartEntries(s: State, x: SessionId, f: FetchId)
    requires PendingOk(s) && AllActive(s) && IdsOk(s) && x in s.lifetimes
    ensures PendingOk(Started(s, s.lifetimes[x], f)) && AllActive(Started(s, s.lifetimes[x], f))
  {
    var t := Started(s, s.lifetimes[x], f);
    forall id | id in t.active
      ensures ActiveEntryOk(t, id)
    {
      assert id in s.active ==> ActiveEntryOk(s, id);
    }
    forall id | id in t.sessions
      ensures PendingEntryOk(t, id)
    {
      assert PendingEntryOk(s, id);
    }
    forall y | y in t.armed
      ensures ArmedOk(t, y)
    {
      assert ArmedOk(s, y);
    }
  }

  lemma StartLogs(s: State, x: SessionId, f: FetchId)
    requires RepliesOk(s) && FetchesOk(s, {f}) && AnswersOk(s) && IdsOk(s)
    requires x in s.lifetimes && x !in RepliedIn(s.replies)
    ensures var t := Started(s, s.lifetimes[x], f);
            RepliesOk(t) && FetchesOk(t, {}) && AnswersOk(t)
  {
    var session := s.lifetimes[x];
    var t := Started(s, session, f);
    var response := Streamed(x, session.size);
    AnsweredAppend(s.answers, Answer(f, response));
    FetchesAppend(s, f, response);
    SameFetches(Respond(s, f, response), t, {});
    AnswersAppend(s, f, response);
    SameAnswers(Respond(s, f, response), t);
    RepliesAppend(s, t, x, true);
  }

  lemma StartLimbo(s: State, x: SessionId, f: FetchId)
    requires InvBut(s, {x}, {f}) && |s.active| < MAX_ACTIVE_DOWNLOADS
    ensures x in s.lifetimes && Inv(Started(s, s.lifetimes[x], f))
  {
    LimboIdFree(s, x, {x}, {f});
    ExpireLimboIs(s, x, {f});
    StartSessions(s, x, f);
    StartEntries(s, x, f);
    StartLogs(s, x, f);
  }

  /** claimSession on a session and a fetch that are in the handler's hands leaves neither open. */
  lemma ClaimLimbo(s: State, x: SessionId, f: FetchId)
    requires InvBut(s, {x}, {f})
    ensures x in s.lifetimes && Inv(Claim(s, s.lifetimes[x], f))
  {
    ClaimLimboIs(s, x, f);
    if |s.active| >= MAX_ACTIVE_DOWNLOADS {
      ExpireLimbo(s, x, {f});
      AnswerLimbo(Expire(s, s.lifetimes[x]), {}, f, Gone);
    } else {
      StartLimbo(s, x, f);
    }
  }

  lemma ClaimLimboIs(s: State, x: SessionId, f: FetchId)
    requires InvBut(s, {x}, {f})
    ensures x in s.lifetimes
    ensures Claim(s, s.lifetimes[x], f) ==
              if |s.active| >= MAX_ACTIVE_DOWNLOADS then Respond(Expire(s, s.lifetimes[x]), f, Gone) else Started(s, s.lifetimes[x], f)
  {
    LimboIdFree(s, x, {x}, {f});
    assert SessionOk(s, x, {x});
    MinusAbsent(s.armed, {x});
    MinusAbsent(s.sessions, {s.lifetimes[x].id});
  }

  // -------------------------------------------------------- taking sessions

  /** The state with a pending session taken out. */
  function Taken(s: State, session: Session): State {
    s.(sessions := s.sessions - {session.id}, armed := s.armed - {session.sid})
  }

  lemma TakenEntries(s: State, x: SessionId)
    requires PendingOk(s) && AllActive(s) && IdsOk(s) && x in s.armed
    ensures PendingOk(Taken(s, s.armed[x])) && AllActive(Taken(s, s.armed[x]))
  {
    assert ArmedOk(s, x);
    var t := Taken(s, s.armed[x]);
    forall id | id in t.sessions
      ensures PendingEntryOk(t, id)
    {
      assert PendingEntryOk(s, id);
      assert ArmedOk(s, s.sessions[id].sid);
    }
    forall y | y in t.armed
      ensures ArmedOk(t, y)
    {
      assert ArmedOk(s, y);
    }
    forall id | id in t.active
      ensures ActiveEntryOk(t, id)
    {
      assert ActiveEntryOk(s, id);
    }
  }

  lemma TakenSessions(s: State, x: SessionId)
    requires AllSessions(s, {}) && x in s.armed && s.armed[x].sid == x && x in s.lifetimes
    ensures AllSessions(Taken(s, s.armed[x]), {x})
  {
    var t := Taken(s, s.armed[x]);
    forall y
      ensures SessionOk(t, y, {x})
    {
      assert SessionOk(s, y, {});
      assert SessionOk(s, x, {});
    }
  }

  lemma SmallerMap<K, V>(m: map<K, V>, k: K)
    ensures |m - {k}| <= |m|
    ensures k in m ==> |m - {k}| == |m| - 1
  {
    assert (m - {k}).Keys == m.Keys - {k};
  }

  lemma TakePending(s: State, x: SessionId, open: set<FetchId>)
    requires InvBut(s, {}, open) && x in s.armed
    ensures x in s.lifetimes && s.armed[x] == s.lifetimes[x] && InvBut(Taken(s, s.armed[x]), {x}, open)
  {
    assert ArmedOk(s, x);
    var t := Taken(s, s.armed[x]);
    TakenEntries(s, x);
    TakenSessions(s, x);
    SameFetches(s, t, open);
    SameReplies(s, t);
    SameAnswers(s, t);
    SmallerMap(s.sessions, s.armed[x].id);
  }

  /** Expiring a pending session is taking it and refusing it. */
  lemma ExpirePending(s: State, x: SessionId, open: set<FetchId>)
    requires InvBut(s, {}, open) && x in s.armed
    ensures InvBut(Expire(s, s.armed[x]), {}, open)
  {
    TakePending(s, x, open);
    ExpireLimbo(Taken(s, s.armed[x]), x, open);
    assert s.armed[x].sid == x && x !in s.claimed by {
      assert ArmedOk(s, x);
      assert SessionOk(s, x, {});
    }
    ExpireTaken(s, s.armed[x]);
  }

  lemma ExpireTaken(s: State, session: Session)
    requires session.sid !in s.claimed
    ensures Expire(Taken(s, session), session) == Expire(s, session)
  {
    MinusTwice(s.armed, {session.sid}, {session.sid});
    MinusTwice(s.sessions, {session.id}, {session.id});
    assert {session.sid} + {session.sid} == {session.sid} && {session.id} + {session.id} == {session.id};
  }

  // ------------------------------------------------------------- the events

  lemma ReleaseKeeps(s: State, id: Id, sid: SessionId)
    requires Inv(s)
    ensures Inv(ReleaseActive(s, id, sid))
  {
    if id in s.active && s.active[id].sid == sid {
      var t := ReleaseActive(s, id, sid);
      SmallerMap(s.active, id);
      ReleaseSessions(s, id);
      ReleaseEntries(s, id);
      SameFetches(s, t, {});
      SameReplies(s, t);
      SameAnswers(s, t);
    }
  }

  lemma ReleaseSessions(s: State, id: Id)
    requires AllSessions(s, {}) && AllActive(s) && IdsOk(s) && id in s.active
    ensures AllSessions(ReleaseActive(s, id, s.active[id].sid), {})
  {
    var x := s.active[id].sid;
    var t := ReleaseActive(s, id, x);
    assert ActiveEntryOk(s, id);
    forall y
      ensures SessionOk(t, y, {})
    {
      assert SessionOk(s, y, {});
      assert SessionOk(s, x, {});
      assert IsActive(t, y) <==> IsActive(s, y) && y != x;
    }
  }

  lemma ReleaseEntries(s: State, id: Id)
    requires PendingOk(s) && AllActive(s) && id in s.active
    ensures var t := ReleaseActive(s, id, s.active[id].sid);
            PendingOk(t) && AllActive(t)
  {
    var t := ReleaseActive(s, id, s.active[id].sid);
    forall i | i in t.active
      ensures ActiveEntryOk(t, i)
    {
      assert ActiveEntryOk(s, i);
    }
    forall i | i in t.sessions
      ensures PendingEntryOk(t, i)
    {
      assert PendingEntryOk(s, i);
    }
    forall y | y in t.armed
      ensures ArmedOk(t, y)
    {
      assert ArmedOk(s, y);
    }
  }

  /** A waiting fetch is taken out of the waiting table. */
  function Unwaited(s: State, id: Id): State {
    s.(waiters := s.waiters - {id})
  }

  lemma TakeWaiter(s: State, id: Id)
    requires Inv(s) && id in s.waiters
    ensures InvBut(Unwaited(s, id), {}, {s.waiters[id]})
  {
    var t := Unwaited(s, id);
    SmallerMap(s.waiters, id);
    UnwaitedFetches(s, id);
    UnwaitedEntries(s, id);
    SameSessions(s, t, {});
    SameReplies(s, t);
    SameAnswers(s, t);
  }

  lemma UnwaitedFetches(s: State, id: Id)
    requires FetchesOk(s, {}) && id in s.waiters
    ensures FetchesOk(Unwaited(s, id), {s.waiters[id]})
  {
    RemoveWaiter(s.waiters, id);
    assert s.waiters[id] in s.waiters.Values;
  }

  lemma UnwaitedEntries(s: State, id: Id)
    requires PendingOk(s) && AllActive(s)
    ensures PendingOk(Unwaited(s, id)) && AllActive(Unwaited(s, id))
  {
    var t := Unwaited(s, id);
    forall i | i in t.active
      ensures ActiveEntryOk(t, i)
    {
      assert ActiveEntryOk(s, i);
    }
    forall i | i in t.sessions
      ensures PendingEntryOk(t, i)
    {
      assert PendingEntryOk(s, i);
    }
    forall y | y in t.armed
      ensures ArmedOk(t, y)
    {
      assert ArmedOk(s, y);
    }
  }

  lemma GiveUpKeeps(s: State, id: Id)
    requires Inv(s)
    ensures Inv(GiveUp(s, id))
  {
    if id in s.waiters {
      TakeWaiter(s, id);
      AnswerLimbo(Unwaited(s, id), {}, s.waiters[id], Gone);
    }
  }

  lemma CancelKeeps(s: State, id: Id, source: SourceId)
    requires Inv(s)
    ensures Inv(OnCancel(s, id, source))
  {
    if id in s.active && s.active[id].source == source {
      ReleaseKeeps(s, id, s.active[id].sid);
    } else if id in s.sessions && s.sessions[id].source == source {
      assert PendingEntryOk(s, id);
      ExpirePending(s, s.sessions[id].sid, {});
    } else {
      GiveUpKeeps(s, id);
    }
  }

  /** A new fetch. */
  function Seen(s: State, f: FetchId): State {
    s.(seenFetches := s.seenFetches + {f})
  }

  lemma SeeFetch(s: State, f: FetchId)
    requires Inv(s) && f !in s.seenFetches
    ensures InvBut(Seen(s, f), {}, {f})
  {
    var t := Seen(s, f);
    SameEntries(s, t);
    SameSessions(s, t, {});
    SameReplies(s, t);
    SameAnswers(s, t);
  }

  /** A fetch is put among the waiting ones. */
  function Waiting(s: State, id: Id, f: FetchId): State {
    s.(waiters := s.waiters[id := f])
  }

  lemma LargerMap<K, V>(m: map<K, V>, k: K, v: V)
    ensures |m[k := v]| <= |m| + 1
  {
    assert m[k := v].Keys == m.Keys + {k};
  }

  lemma WaitingLogs(s: State, id: Id, f: FetchId)
    requires AllSessions(s, {}) && RepliesOk(s) && AnswersOk(s)
    ensures var t := Waiting(s, id, f); AllSessions(t, {}) && RepliesOk(t) && AnswersOk(t)
  {
    var t := Waiting(s, id, f);
    SameSessions(s, t, {});
    SameReplies(s, t);
    SameAnswers(s, t);
  }

  lemma StartWaiting(s: State, id: Id, f: FetchId)
    requires InvBut(s, {}, {f}) && id !in s.waiters && id !in s.sessions && |s.waiters| < MAX_PENDING_FETCHES
    ensures Inv(Waiting(s, id, f))
  {
    WaitingFetches(s, id, f);
    WaitingEntries(s, id, f);
    WaitingLogs(s, id, f);
    LargerMap(s.waiters, id, f);
  }

  lemma WaitingFetches(s: State, id: Id, f: FetchId)
    requires FetchesOk(s, {f}) && id !in s.waiters
    ensures FetchesOk(Waiting(s, id, f), {})
  {
    AddWaiter(s.waiters, id, f);
    var t := Waiting(s, id, f);
    forall x, y | x in t.waiters && y in t.waiters && x != y
      ensures t.waiters[x] != t.waiters[y]
    {
      assert x != id ==> s.waiters[x] in s.waiters.Values;
      assert y != id ==> s.waiters[y] in s.waiters.Values;
    }
  }

  lemma WaitingEntries(s: State, id: Id, f: FetchId)
    requires PendingOk(s) && AllActive(s) && id !in s.sessions
    ensures PendingOk(Waiting(s, id, f)) && AllActive(Waiting(s, id, f))
  {
    var t := Waiting(s, id, f);
    forall i | i in t.active
      ensures ActiveEntryOk(t, i)
    {
      assert ActiveEntryOk(s, i);
    }
    forall i | i in t.sessions
      ensures PendingEntryOk(t, i)
    {
      assert PendingEntryOk(s, i);
    }
    forall y | y in t.armed
      ensures ArmedOk(t, y)
    {
      assert ArmedOk(s, y);
    }
  }

  lemma FetchKeeps(s: State, f: FetchId, id: Id, plainGet: bool, hasRange: bool)
    requires Inv(s) && f !in s.seenFetches
    ensures Inv(OnFetch(s, f, id, plainGet, hasRange))
  {
    SeeFetch(s, f);
    var seen := Seen(s, f);
    if !plainGet {
      AnswerLimbo(seen, {}, f, Refused(if hasRange then 416 else 405));
    } else if id in s.sessions {
      assert PendingEntryOk(s, id);
      var session := s.sessions[id];
      TakePending(seen, session.sid, {f});
      ClaimLimbo(Taken(seen, session), session.sid, f);
      FetchClaims(seen, session, f);
    } else if id in s.waiters || |s.waiters| >= MAX_PENDING_FETCHES {
      AnswerLimbo(seen, {}, f, Gone);
    } else {
      StartWaiting(seen, id, f);
    }
  }

  /** The fetch handler leaves the timeout to claimSession; taking it out at once makes no difference. */
  lemma FetchClaims(s: State, session: Session, f: FetchId)
    requires InvBut(s, {}, {f}) && session.sid in s.armed && s.armed[session.sid] == session
    ensures Claim(s.(sessions := s.sessions - {session.id}), session, f) == Claim(Taken(s, session), session, f)
  {
    assert SessionOk(s, session.sid, {});
    MinusTwice(s.armed, {session.sid}, {session.sid});
    assert {session.sid} + {session.sid} == {session.sid};
  }

  lemma HandoverKeeps(s: State, x: SessionId)
    requires Inv(s) && x in s.handed
    ensures Inv(OnHandover(s, x))
  {
    assert SessionOk(s, x, {});
    TakeHanded(s, x);
    ClaimLimbo(s.(handed := s.handed - {x}), x, s.handed[x].fid);
  }

  lemma TakeHanded(s: State, x: SessionId)
    requires Inv(s) && x in s.handed
    ensures InvBut(s.(handed := s.handed - {x}), {x}, {s.handed[x].fid})
  {
    var t := s.(handed := s.handed - {x});
    TakeHandedSessions(s, x);
    TakeHandedFetches(s, x);
    SameEntries(s, t);
    SameReplies(s, t);
    SameAnswers(s, t);
  }

  lemma TakeHandedSessions(s: State, x: SessionId)
    requires AllSessions(s, {}) && x in s.handed
    ensures AllSessions(s.(handed := s.handed - {x}), {x})
  {
    var t := s.(handed := s.handed - {x});
    forall y
      ensures SessionOk(t, y, {x})
    {
      assert SessionOk(s, y, {});
      assert SessionOk(s, x, {});
    }
  }

  lemma TakeHandedFetches(s: State, x: SessionId)
    requires FetchesOk(s, {}) && x in s.handed
    ensures FetchesOk(s.(handed := s.handed - {x}), {s.handed[x].fid})
  {
    var handed := s.handed - {x};
    assert HandedFetches(handed) == HandedFetches(s.handed) - {s.handed[x].fid} by {
      forall f | f in HandedFetches(s.handed) - {s.handed[x].fid}
        ensures f in HandedFetches(handed)
      {
        var y :| y in s.handed && s.handed[y].fid == f;
        assert y in handed;
      }
    }
    assert s.handed[x].fid in HandedFetches(s.handed);
  }

  // -------------------------------------------------------- stream messages

  /** A valid stream message creates a session with an unresolved lifetime. */
  function Born(s: State, session: Session): State {
    s.(seenSessions := s.seenSessions + {session.sid}, lifetimes := s.lifetimes[session.sid := session])
  }

  ghost predicate NewSession(s: State, session: Session) {
    session.sid !in s.seenSessions && forall x :: x in s.lifetimes ==> s.lifetimes[x].id != session.id
  }

  lemma BornSessions(s: State, session: Session)
    requires AllSessions(s, {}) && IdsOk(s) && NewSession(s, session)
    ensures AllSessions(Born(s, session), {session.sid})
  {
    var t := Born(s, session);
    forall y
      ensures SessionOk(t, y, {session.sid})
    {
      assert SessionOk(s, y, {});
      assert y in s.lifetimes ==> (IsActive(t, y) <==> IsActive(s, y));
    }
  }

  lemma BornEntries(s: State, session: Session)
    requires PendingOk(s) && AllActive(s) && session.sid !in s.lifetimes
    ensures PendingOk(Born(s, session)) && AllActive(Born(s, session))
  {
    var t := Born(s, session);
    forall i | i in t.active
      ensures ActiveEntryOk(t, i)
    {
      assert ActiveEntryOk(s, i);
    }
    forall i | i in t.sessions
      ensures PendingEntryOk(t, i)
    {
      assert PendingEntryOk(s, i);
    }
    forall y | y in t.armed
      ensures ArmedOk(t, y)
    {
      assert ArmedOk(s, y);
    }
  }

  lemma BornLogs(s: State, session: Session)
    requires RepliesOk(s) && AnswersOk(s) && session.sid !in RepliedIn(s.replies) && session.sid !in s.lifetimes
    ensures RepliesOk(Born(s, session)) && AnswersOk(Born(s, session))
  {
    var t := Born(s, session);
    forall r | r in t.replies
      ensures ReplyOk(t, r)
    {
      assert ReplyOk(s, r);
      assert r.sid in RepliedIn(s.replies);
    }
    forall a | a in t.answers
      ensures AnswerOk(t, a)
    {
      assert AnswerOk(s, a);
    }
  }

  /** Handed to a waiting fetch. */
  function HandedOver(s: State, session: Session): State
    requires session.id in s.waiters
  {
    s.(waiters := s.waiters - {session.id}, handed := s.handed[session.sid := Handover(session, s.waiters[session.id])])
  }

  lemma HandOverSessions(s: State, session: Session)
    requires AllSessions(s, {session.sid}) && session.id in s.waiters
    requires session.sid in s.lifetimes && s.lifetimes[session.sid] == session
    ensures AllSessions(HandedOver(s, session), {})
  {
    var t := HandedOver(s, session);
    forall y
      ensures SessionOk(t, y, {})
    {
      assert SessionOk(s, y, {session.sid});
      assert SessionOk(s, session.sid, {session.sid});
    }
  }

  lemma HandOverFetches(s: State, session: Session)
    requires FetchesOk(s, {}) && session.id in s.waiters && session.sid !in s.handed
    ensures FetchesOk(HandedOver(s, session), {})
  {
    var f := s.waiters[session.id];
    var t := HandedOver(s, session);
    RemoveWaiter(s.waiters, session.id);
    assert f in s.waiters.Values;
    assert HandedFetches(t.handed) == HandedFetches(s.handed) + {f} by {
      forall g | g in HandedFetches(s.handed) + {f}
        ensures g in HandedFetches(t.handed)
      {
        if g in HandedFetches(s.handed) {
          var x :| x in s.handed && s.handed[x].fid == g;
          assert x in t.handed && t.handed[x].fid == g;
        } else {
          assert t.handed[session.sid].fid == g;
        }
      }
    }
    forall x, y | x in t.handed && y in t.handed && x != y
      ensures t.handed[x].fid != t.handed[y].fid
    {
      assert x != session.sid ==> s.handed[x].fid in HandedFetches(s.handed);
      assert y != session.sid ==> s.handed[y].fid in HandedFetches(s.handed);
    }
  }

  /** Kept pending with an armed timeout. */
  function Kept(s: State, session: Session): State {
    s.(armed := s.armed[session.sid := session], sessions := s.sessions[session.id := session])
  }

  lemma KeepSessions(s: State, session: Session)
    requires AllSessions(s, {session.sid})
    ensures AllSessions(Kept(s, session), {})
  {
    var t := Kept(s, session);
    forall y
      ensures SessionOk(t, y, {})
    {
      assert SessionOk(s, y, {session.sid});
      assert SessionOk(s, session.sid, {session.sid});
    }
  }

  lemma KeepEntries(s: State, session: Session)
    requires PendingOk(s) && AllActive(s) && session.sid !in s.armed && session.id !in s.sessions && session.id !in s.waiters
    requires session.sid in s.lifetimes && s.lifetimes[session.sid] == session
    ensures PendingOk(Kept(s, session)) && AllActive(Kept(s, session))
  {
    var t := Kept(s, session);
    forall i | i in t.active
      ensures ActiveEntryOk(t, i)
    {
      assert ActiveEntryOk(s, i);
    }
    forall i | i in t.sessions
      ensures PendingEntryOk(t, i)
    {
      if i != session.id {
        assert PendingEntryOk(s, i);
      }
    }
    forall y | y in t.armed
      ensures ArmedOk(t, y)
    {
      if y != session.sid {
        assert ArmedOk(s, y);
      }
    }
  }

  lemma HandOverKeeps(s: State, session: Session)
    requires InvBut(s, {session.sid}, {}) && session.sid in s.lifetimes && s.lifetimes[session.sid] == session
    requires session.id in s.waiters
    ensures Inv(HandedOver(s, session))
  {
    assert SessionOk(s, session.sid, {session.sid});
    var t := HandedOver(s, session);
    HandOverSessions(s, session);
    HandOverFetches(s, session);
    UnwaitedEntries(s, session.id);
    SameEntries(Unwaited(s, session.id), t);
    SameLogs(s, t);
    SmallerMap(s.waiters, session.id);
  }

  lemma SameLogs(s: State, t: State)
    requires RepliesOk(s) && AnswersOk(s)
    requires t.replies == s.replies && t.answers == s.answers && t.cancelled == s.cancelled && t.lifetimes == s.lifetimes
    ensures RepliesOk(t) && AnswersOk(t)
  {
    SameReplies(s, t);
    SameAnswers(s, t);
  }

  lemma KeepPending(s: State, session: Session)
    requires InvBut(s, {session.sid}, {}) && session.sid in s.lifetimes && s.lifetimes[session.sid] == session
    requires session.id !in s.waiters && |s.sessions| < MAX_PENDING_SESSIONS
    ensures Inv(Kept(s, session))
  {
    LimboIdFree(s, session.sid, {session.sid}, {});
    assert SessionOk(s, session.sid, {session.sid});
    var t := Kept(s, session);
    KeepSessions(s, session);
    KeepEntries(s, session);
    SameFetches(s, t, {});
    SameLogs(s, t);
    LargerMap(s.sessions, session.id, session);
  }

  lemma OfferKeeps(s: State, session: Session)
    requires InvBut(s, {session.sid}, {}) && session.sid in s.lifetimes && s.lifetimes[session.sid] == session
    ensures var offer := Offer(s, session);
            if offer.1 then Inv(offer.0) else offer.0 == s
  {
    if |s.active| < MAX_ACTIVE_DOWNLOADS {
      if session.id in s.waiters {
        HandOverKeeps(s, session);
      } else if session.id !in s.sessions && |s.sessions| < MAX_PENDING_SESSIONS {
        KeepPending(s, session);
      }
    }
  }

  lemma BornIds(s: State, session: Session)
    requires IdsOk(s) && FetchesOk(s, {}) && NewSession(s, session)
    ensures IdsOk(Born(s, session)) && FetchesOk(Born(s, session), {})
  {
    SameFetches(s, Born(s, session), {});
  }

  lemma BornKeeps(s: State, session: Session)
    requires Inv(s) && NewSession(s, session)
    ensures InvBut(Born(s, session), {session.sid}, {})
  {
    assert SessionOk(s, session.sid, {});
    BornIds(s, session);
    BornSessions(s, session);
    BornEntries(s, session);
    BornLogs(s, session);
  }

  lemma StreamKeeps(s: State, m: StreamMessage)
    requires Inv(s) && m.sid !in s.seenSessions
    requires ValidMessage(m) ==> forall x :: x in s.lifetimes ==> s.lifetimes[x].id != m.id
    ensures Inv(OnStream(s, m))
  {
    if ValidMessage(m) {
      ValidKeeps(s, m);
    } else {
      InvalidKeeps(s, m);
    }
  }

  lemma ValidKeeps(s: State, m: StreamMessage)
    requires Inv(s) && ValidMessage(m) && NewSession(s, SessionOf(m))
    ensures Inv(OnStream(s, m))
  {
    var session := SessionOf(m);
    var born := Born(s, session);
    BornKeeps(s, session);
    OfferKeeps(born, session);
    if !Offer(born, session).1 {
      ExpireLimbo(born, m.sid, {});
    }
  }

  lemma InvalidKeeps(s: State, m: StreamMessage)
    requires Inv(s) && m.sid !in s.seenSessions && !ValidMessage(m)
    ensures Inv(OnStream(s, m))
  {
    assert SessionOk(s, m.sid, {});
    var t := OnStream(s, m);
    InvalidSessions(s, m);
    InvalidReplies(s, m);
    SameEntries(s, t);
    SameFetches(s, t, {});
    SameAnswers(s, t);
  }

  lemma InvalidSessions(s: State, m: StreamMessage)
    requires AllSessions(s, {}) && IdsOk(s) && m.sid !in s.seenSessions && !ValidMessage(m)
    ensures AllSessions(OnStream(s, m), {})
  {
    var t := OnStream(s, m);
    RepliedAppend(s.replies, Reply(m.sid, false));
    forall y
      ensures SessionOk(t, y, {})
    {
      assert SessionOk(s, y, {});
    }
  }

  lemma InvalidReplies(s: State, m: StreamMessage)
    requires RepliesOk(s) && IdsOk(s) && m.sid !in s.seenSessions && m.sid !in RepliedIn(s.replies) && !ValidMessage(m)
    ensures RepliesOk(OnStream(s, m))
  {
    var t := OnStream(s, m);
    RepliedAppend(s.replies, Reply(m.sid, false));
    forall r | r in t.replies
      ensures ReplyOk(t, r)
    {
      if r in s.replies {
        assert ReplyOk(s, r);
        assert r.sid in RepliedIn(s.replies);
      }
    }
    forall i, j | 0 <= i < j < |t.replies|
      ensures t.replies[i].sid != t.replies[j].sid
    {
      assert t.replies[i] in s.replies;
      assert t.replies[i].sid in RepliedIn(s.replies);
    }
  }

  // ------------------------------------------------------------------ runs

  lemma StepKeeps(s: State, e: Event)
    requires Inv(s) && Possible(s, e) && FreshId(s, e)
    ensures Inv(Step(s, e))
  {
    match e
    case StreamEvent(m) => StreamKeeps(s, m);
    case FetchEvent(fid, id, plainGet, hasRange) => FetchKeeps(s, fid, id, plainGet, hasRange);
    case HandoverEvent(sid) => HandoverKeeps(s, sid);
    case CancelEvent(id, source) => CancelKeeps(s, id, source);
    case HeartbeatEvent(_, _) =>
    case CompleteEvent(_, _) =>
    case SessionTimeout(sid) => ExpirePending(s, sid, {});
    case FetchTimeout(id) => GiveUpKeeps(s, id);
    case ActiveTimeout(id, sid) => ReleaseKeeps(s, id, sid);
  }

  lemma InitialInv()
    ensures Inv(INITIAL)
  {
    assert AllSessions(INITIAL, {});
    assert RepliesOk(INITIAL);
    assert AnswersOk(INITIAL);
  }

  lemma {:induction false} RunKeeps(events: seq<Event>, states: seq<State>, n: nat)
    requires IsRun(events, states) && n < |states|
    ensures Inv(states[n])
  {
    if n == 0 {
      InitialInv();
    } else {
      RunKeeps(events, states, n - 1);
      assert Follows(states[n - 1], events[n - 1], states[n - 1 + 1]);
      NextKeeps(states[n - 1], events[n - 1], states[n - 1 + 1]);
    }
  }

  lemma NextKeeps(s: State, e: Event, t: State)
    requires Inv(s) && Follows(s, e, t) && FreshId(s, e)
    ensures Inv(t)
  {
    StepKeeps(s, e);
  }
}
