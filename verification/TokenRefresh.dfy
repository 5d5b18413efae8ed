/**
 The response interceptor of the API client: however many requests fail with 401 at once, one refresh is in flight
 per tab. Several tabs share the stored tokens; it is stated exactly when a refresh presents a session key that was
 already rotated, and when good tokens are removed. Callbacks that run in one turn of the event loop are one step.
 */
module TokenRefresh {
  import opened Basics

  type Tab = nat
  type Key = nat

  /**
   A pending refreshPromise: the request is on its way, or its answer is. Lost is an answer with new tokens that did
   not arrive; the tab cannot tell it from a refusal.
   */
  datatype Flight = Sent(token: Key) | Rotated(key: Key) | Lost | Rejected

  datatype State = State(
    /** The tabs whose refreshPromise is not null. */
    flights: map<Tab, Flight>,
    /** The session key inside the stored refresh token; localStorage is shared by the tabs. */
    stored: Option<Key>,
    /** The session key of the user on the server. */
    current: Key,
    usedKeys: set<Key>
  )

  datatype Event =
    | Unauthorized(tab: Tab, retried: bool)
    | ServerAnswers(tab: Tab, drawn: Key)
    /** The request is refused for another reason or does not get through, or its answer gets lost. */
    | Fails(tab: Tab)
    | Delivered(tab: Tab)
    | LoggedIn
    | LoggedOut(drawn: Key)

  /** The interceptor on a 401. */
  function OnUnauthorized(s: State, tab: Tab, retried: bool): State {
    if retried || s.stored.None? || tab in s.flights then s
    else s.(flights := s.flights[tab := Sent(s.stored.value)])
  }

  /** The server's conditional update. */
  function OnServer(s: State, tab: Tab, drawn: Key): State
    requires tab in s.flights && s.flights[tab].Sent?
  {
    if s.flights[tab].token == s.current
    then s.(current := drawn, flights := s.flights[tab := Rotated(drawn)], usedKeys := s.usedKeys + {drawn})
    else s.(flights := s.flights[tab := Rejected])
  }

  /** The promise will reject: for the server, it matters whether it has rotated the key by then. */
  function OnFailure(s: State, tab: Tab): State
    requires tab in s.flights
  {
    s.(flights := s.flights[tab := if s.flights[tab].Rotated? || s.flights[tab].Lost? then Lost else Rejected])
  }

  /** The promise settles: the new tokens are stored, or the waiting requests remove the old ones. */
  function OnDelivered(s: State, tab: Tab): State
    requires tab in s.flights && !s.flights[tab].Sent?
  {
    s.(stored := if s.flights[tab].Rotated? then Some(s.flights[tab].key) else None, flights := s.flights - {tab})
  }

  ghost predicate Possible(s: State, e: Event) {
    match e
    case Unauthorized(_, _) => true
    case ServerAnswers(tab, drawn) => tab in s.flights && s.flights[tab].Sent? && drawn !in s.usedKeys
    case Fails(tab) => tab in s.flights
    case Delivered(tab) => tab in s.flights && !s.flights[tab].Sent?
    case LoggedIn => s.flights == map[]
    case LoggedOut(drawn) => s.flights == map[] && drawn !in s.usedKeys
  }

  function Step(s: State, e: Event): State
    requires e.ServerAnswers? ==> e.tab in s.flights && s.flights[e.tab].Sent?
    requires e.Fails? ==> e.tab in s.flights
    requires e.Delivered? ==> e.tab in s.flights && !s.flights[e.tab].Sent?
  {
    match e
    case Unauthorized(tab, retried) => OnUnauthorized(s, tab, retried)
    case ServerAnswers(tab, drawn) => OnServer(s, tab, drawn)
    case Fails(tab) => OnFailure(s, tab)
    case Delivered(tab) => OnDelivered(s, tab)
    case LoggedIn => s.(stored := Some(s.current))
    case LoggedOut(drawn) => s.(stored := None, current := drawn, usedKeys := s.usedKeys + {drawn})
  }

  ghost predicate Follows(s: State, e: Event, t: State) {
    Possible(s, e) && t == Step(s, e)
  }

  /** The user has registered, and one session key is known. */
  ghost predicate Starts(s: State) {
    s.flights == map[] && s.stored.None? && s.usedKeys == {s.current}
  }

  ghost predicate IsRun(events: seq<Event>, states: seq<State>) {
    && |states| == |events| + 1
    && Starts(states[0])
    && forall i :: 0 <= i < |events| ==> Follows(states[i], events[i], states[i + 1])
  }

  // -------------------------------------------------------- any number of tabs

  /** The server has rotated the key for this tab's refresh, and the tab has not taken the answer yet. */
  predicate Outstanding(s: State, tab: Tab) {
    tab in s.flights && (s.flights[tab].Rotated? || s.flights[tab].Lost?)
  }

  ghost predicate AnyOutstanding(s: State) {
    exists tab :: Outstanding(s, tab)
  }

  ghost predicate FlightOk(s: State, tab: Tab)
    requires tab in s.flights
  {
    match s.flights[tab]
    case Sent(token) => token in s.usedKeys && (token == s.current ==> !AnyOutstanding(s))
    case Rotated(key) => key == s.current
    case _ => true
  }

  /** A stored token carries the key of the server exactly if no rotation is outstanding, and at most one is. */
  ghost predicate Inv(s: State) {
    && s.current in s.usedKeys
    && (s.stored.Some? ==> s.stored.value in s.usedKeys && (s.stored.value == s.current <==> !AnyOutstanding(s)))
    && (forall tab :: tab in s.flights ==> FlightOk(s, tab))
    && (forall tab, other :: Outstanding(s, tab) && Outstanding(s, other) ==> tab == other)
  }

  /** A step after which the same rotations are outstanding, and tokens and keys are as before. */
  lemma SameOutstanding(s: State, t: State)
    requires Inv(s) && (forall tab :: Outstanding(t, tab) <==> Outstanding(s, tab))
    requires t.current == s.current && t.usedKeys == s.usedKeys
    requires t.stored.Some? ==> t.stored == s.stored
    requires forall tab :: tab in t.flights ==>
               || (tab in s.flights && t.flights[tab] == s.flights[tab])
               || t.flights[tab].Rejected? || t.flights[tab].Lost?
               || (s.stored.Some? && t.flights[tab] == Sent(s.stored.value))
    ensures Inv(t)
  {
    assert AnyOutstanding(t) <==> AnyOutstanding(s);
    forall tab | tab in t.flights
      ensures FlightOk(t, tab)
    {
      assert tab in s.flights ==> FlightOk(s, tab);
    }
  }

  lemma RotationKeeps(s: State, tab: Tab, drawn: Key)
    requires Inv(s) && Possible(s, ServerAnswers(tab, drawn)) && s.flights[tab].token == s.current
    ensures Inv(OnServer(s, tab, drawn))
  {
    var t := OnServer(s, tab, drawn);
    assert FlightOk(s, tab);
    assert Outstanding(t, tab);
    forall x | x != tab
      ensures !Outstanding(t, x)
    {
      assert !Outstanding(s, x);
    }
    forall x | x in t.flights
      ensures FlightOk(t, x)
    {
      if x != tab {
        assert FlightOk(s, x) && !Outstanding(s, x);
      }
    }
  }

  lemma DeliveryKeeps(s: State, tab: Tab)
    requires Inv(s) && Possible(s, Delivered(tab))
    ensures Inv(OnDelivered(s, tab))
  {
    var t := OnDelivered(s, tab);
    assert FlightOk(s, tab);
    assert forall x :: Outstanding(t, x) ==> Outstanding(s, x) && x != tab;
    if s.flights[tab].Rotated? {
      assert Outstanding(s, tab);
      assert !AnyOutstanding(t);
    }
    forall x | x in t.flights
      ensures FlightOk(t, x)
    {
      assert FlightOk(s, x);
    }
  }

  lemma StepKeeps(s: State, e: Event)
    requires Inv(s) && Possible(s, e)
    ensures Inv(Step(s, e))
  {
    match e
    case ServerAnswers(tab, drawn) =>
      if s.flights[tab].token == s.current {
        RotationKeeps(s, tab, drawn);
      } else {
        SameOutstanding(s, Step(s, e));
      }
    case Delivered(tab) => DeliveryKeeps(s, tab);
    case LoggedIn => assert !AnyOutstanding(Step(s, e));
    case LoggedOut(_) =>
    case _ => SameOutstanding(s, Step(s, e));
  }

  lemma {:induction false} RunKeeps(events: seq<Event>, states: seq<State>, n: nat)
    requires IsRun(events, states) && n < |states|
    ensures Inv(states[n])
  {
    if n > 0 {
      RunKeeps(events, states, n - 1);
      assert Follows(states[n - 1], events[n - 1], states[n - 1 + 1]);
      StepKeeps(states[n - 1], events[n - 1]);
    }
  }

  // --------------------------------------------- exactly when one is refused

  /** Event k sends the request of this tab that is still on its way in state n. */
  ghost predicate SentAt(events: seq<Event>, states: seq<State>, k: nat, n: nat, tab: Tab)
    requires |states| == |events| + 1 && k < n < |states|
  {
    && events[k] == Unauthorized(tab, false) && tab !in states[k].flights
    && forall i :: k < i <= n ==> tab in states[i].flights && states[i].flights[tab].Sent?
  }

  /** Event j is an answer with which the server rotates the key. */
  ghost predicate RotatesAt(events: seq<Event>, states: seq<State>, j: nat)
    requires |states| == |events| + 1 && j < |events|
  {
    events[j].ServerAnswers? && events[j].tab in states[j + 1].flights && states[j + 1].flights[events[j].tab].Rotated?
  }

  /**
   Another tab's refresh overtook the request that event k sent: the server rotated the key for it before state n, and
   its tab had not settled it when event k sent the old token.
   */
  ghost predicate OvertakenBy(events: seq<Event>, states: seq<State>, j: nat, k: nat, n: nat)
    requires |states| == |events| + 1 && k < n < |states|
  {
    && j < n && RotatesAt(events, states, j)
    && forall i :: j < i <= k ==> Outstanding(states[i], events[j].tab)
  }

  ghost predicate Overtaken(events: seq<Event>, states: seq<State>, k: nat, n: nat)
    requires |states| == |events| + 1 && k < n < |states|
  {
    exists j: nat :: OvertakenBy(events, states, j, k, n)
  }

  lemma FollowsAt(events: seq<Event>, states: seq<State>, n: nat)
    requires IsRun(events, states) && n < |events|
    ensures Follows(states[n], events[n], states[n + 1])
  {
  }

  /** An outstanding rotation was made by an earlier answer and has been outstanding ever since. */
  lemma {:induction false} OutstandingSince(events: seq<Event>, states: seq<State>, n: nat, tab: Tab) returns (j: nat)
    requires IsRun(events, states) && n < |states| && Outstanding(states[n], tab)
    ensures j < n && RotatesAt(events, states, j) && events[j].tab == tab
    ensures forall i :: j < i <= n ==> Outstanding(states[i], tab)
  {
    FollowsAt(events, states, n - 1);
    if Outstanding(states[n - 1], tab) {
      j := OutstandingSince(events, states, n - 1, tab);
    } else {
      j := n - 1;
    }
  }

  /** A request on its way carries an old key exactly if another tab's refresh has overtaken it. */
  lemma {:induction false} StaleExactlyIfOvertaken(events: seq<Event>, states: seq<State>, k: nat, n: nat, tab: Tab)
    requires IsRun(events, states) && k < n < |states| && SentAt(events, states, k, n, tab)
    ensures states[n].flights[tab].token != states[n].current <==> Overtaken(events, states, k, n)
  {
    if n == k + 1 {
      StaleAtOnce(events, states, k, tab);
    } else {
      StaleExactlyIfOvertaken(events, states, k, n - 1, tab);
      StaleLater(events, states, k, n - 1, tab);
    }
  }

  lemma StaleAtOnce(events: seq<Event>, states: seq<State>, k: nat, tab: Tab)
    requires IsRun(events, states) && k < |events| && SentAt(events, states, k, k + 1, tab)
    ensures states[k + 1].flights[tab].token != states[k + 1].current <==> Overtaken(events, states, k, k + 1)
  {
    RunKeeps(events, states, k);
    FollowsAt(events, states, k);
    if AnyOutstanding(states[k]) {
      var other :| Outstanding(states[k], other);
      var j := OutstandingSince(events, states, k, other);
      assert OvertakenBy(events, states, j, k, k + 1);
    } else {
      forall j: nat | j < k + 1 && RotatesAt(events, states, j)
        ensures !OvertakenBy(events, states, j, k, k + 1)
      {
        assert j != k;
        assert !Outstanding(states[k], events[j].tab);
      }
    }
  }

  lemma StaleLater(events: seq<Event>, states: seq<State>, k: nat, n: nat, tab: Tab)
    requires IsRun(events, states) && k < n < |events| && SentAt(events, states, k, n + 1, tab)
    requires states[n].flights[tab].token != states[n].current <==> Overtaken(events, states, k, n)
    ensures states[n + 1].flights[tab].token != states[n + 1].current <==> Overtaken(events, states, k, n + 1)
  {
    RunKeeps(events, states, n);
    FollowsAt(events, states, n);
    assert FlightOk(states[n], tab);
    assert states[n].flights != map[];
    if RotatesAt(events, states, n) {
      assert OvertakenBy(events, states, n, k, n + 1);
      assert states[n + 1].current != states[n + 1].flights[tab].token;
    } else {
      assert states[n + 1].current == states[n].current;
      assert states[n + 1].flights[tab] == states[n].flights[tab];
      if Overtaken(events, states, k, n) {
        var j: nat :| OvertakenBy(events, states, j, k, n);
        assert OvertakenBy(events, states, j, k, n + 1);
      } else if Overtaken(events, states, k, n + 1) {
        var j: nat :| OvertakenBy(events, states, j, k, n + 1);
        assert OvertakenBy(events, states, j, k, n);
      }
    }
  }

  /**
   With any number of tabs: the server refuses a refresh as stale if and only if, since its token was sent, it has
   rotated the key for another tab, or had done so before and that tab had not settled it yet.
   */
  lemma RefusedExactlyIfOvertaken(events: seq<Event>, states: seq<State>, k: nat, n: nat, tab: Tab)
    requires IsRun(events, states) && k < n < |events| && SentAt(events, states, k, n, tab)
    requires events[n].ServerAnswers? && events[n].tab == tab
    ensures states[n + 1].flights[tab].Rejected? <==> Overtaken(events, states, k, n)
    ensures states[n + 1].flights[tab].Rotated? <==> !Overtaken(events, states, k, n)
  {
    FollowsAt(events, states, n);
    StaleExactlyIfOvertaken(events, states, k, n, tab);
  }

  /** Every request that reaches the server was sent by some event of the run. */
  lemma {:induction false} SentBySomeEvent(events: seq<Event>, states: seq<State>, n: nat, tab: Tab) returns (k: nat)
    requires IsRun(events, states) && n < |states| && tab in states[n].flights && states[n].flights[tab].Sent?
    ensures k < n && SentAt(events, states, k, n, tab)
  {
    FollowsAt(events, states, n - 1);
    if tab in states[n - 1].flights && states[n - 1].flights[tab].Sent? {
      k := SentBySomeEvent(events, states, n - 1, tab);
    } else {
      k := n - 1;
    }
  }

  /** The refresh that overtakes is another tab's. */
  lemma OvertakerIsAnother(events: seq<Event>, states: seq<State>, j: nat, k: nat, n: nat, tab: Tab)
    requires IsRun(events, states) && k < n < |states| && SentAt(events, states, k, n, tab) && OvertakenBy(events, states, j, k, n)
    ensures events[j].tab != tab
  {
    FollowsAt(events, states, j);
    if j >= k {
      assert tab in states[j + 1].flights && states[j + 1].flights[tab].Sent?;
    } else {
      assert Outstanding(states[k], events[j].tab);
    }
  }

  // ------------------------------------------------- exactly when tokens go

  /** Event k sends the request of this tab, event m settles its fate, and the promise is pending until state n. */
  ghost predicate Flies(events: seq<Event>, states: seq<State>, k: nat, m: nat, n: nat, tab: Tab)
    requires |states| == |events| + 1 && n < |states|
  {
    && k < m < n && SentAt(events, states, k, m, tab)
    && forall i :: m < i <= n ==> tab in states[i].flights && !states[i].flights[tab].Sent?
  }

  /** The request failed while it was still on its way: the server has not rotated the key for it. */
  ghost predicate FailedFirst(events: seq<Event>, states: seq<State>, n: nat, tab: Tab)
    requires |states| == |events| + 1 && n < |states|
  {
    exists k: nat, m: nat :: Flies(events, states, k, m, n, tab) && events[m] == Fails(tab)
  }

  /** The server refused the request because another tab's refresh had overtaken it. */
  ghost predicate RefusedAsStale(events: seq<Event>, states: seq<State>, n: nat, tab: Tab)
    requires |states| == |events| + 1 && n < |states|
  {
    exists k: nat, m: nat :: Flies(events, states, k, m, n, tab) && events[m].ServerAnswers? && Overtaken(events, states, k, m)
  }

  /** Every promise that is about to settle comes from a request that was sent and answered, or failed, in the run. */
  lemma {:induction false} FlightHistory(events: seq<Event>, states: seq<State>, n: nat, tab: Tab) returns (k: nat, m: nat)
    requires IsRun(events, states) && n < |states| && tab in states[n].flights && !states[n].flights[tab].Sent?
    ensures Flies(events, states, k, m, n, tab)
  {
    FollowsAt(events, states, n - 1);
    if tab in states[n - 1].flights && !states[n - 1].flights[tab].Sent? {
      k, m := FlightHistory(events, states, n - 1, tab);
    } else {
      m := n - 1;
      k := SentBySomeEvent(events, states, m, tab);
    }
  }

  lemma SettledAt(events: seq<Event>, states: seq<State>, k: nat, m: nat, n: nat, tab: Tab)
    requires IsRun(events, states) && n < |states| && Flies(events, states, k, m, n, tab)
    ensures events[m] == Fails(tab) || (events[m].ServerAnswers? && events[m].tab == tab)
    ensures states[m + 1].flights[tab].Rejected? <==>
            events[m] == Fails(tab) || (events[m].ServerAnswers? && Overtaken(events, states, k, m))
  {
    FollowsAt(events, states, m);
    assert tab in states[m].flights && states[m].flights[tab].Sent?;
    if events[m].ServerAnswers? {
      RefusedExactlyIfOvertaken(events, states, k, m, tab);
    }
  }

  lemma {:induction false} RejectedStays(events: seq<Event>, states: seq<State>, m: nat, n: nat, tab: Tab)
    requires IsRun(events, states) && m < n < |states|
    requires forall i :: m < i <= n ==> tab in states[i].flights && !states[i].flights[tab].Sent?
    ensures states[n].flights[tab].Rejected? <==> states[m + 1].flights[tab].Rejected?
  {
    if m + 1 < n {
      RejectedStays(events, states, m, n - 1, tab);
      FollowsAt(events, states, n - 1);
    }
  }

  /** A refresh is rejected if and only if its request failed before the server rotated the key, or was refused as stale. */
  lemma RejectedExactlyWhen(events: seq<Event>, states: seq<State>, n: nat, tab: Tab)
    requires IsRun(events, states) && n < |states| && tab in states[n].flights && !states[n].flights[tab].Sent?
    ensures states[n].flights[tab].Rejected? <==> FailedFirst(events, states, n, tab) || RefusedAsStale(events, states, n, tab)
  {
    var k0, m0 := FlightHistory(events, states, n, tab);
    forall k: nat, m: nat | Flies(events, states, k, m, n, tab)
      ensures states[n].flights[tab].Rejected? <==>
              events[m] == Fails(tab) || (events[m].ServerAnswers? && Overtaken(events, states, k, m))
    {
      SettledAt(events, states, k, m, n, tab);
      RejectedStays(events, states, m, n, tab);
    }
  }

  /**
   When a promise settles, tokens that still carry the key of the server are removed if and only if the request failed
   before the server rotated the key, or was refused as stale, and no rotation is outstanding by then.
   */
  lemma GoodTokensLostExactlyWhen(events: seq<Event>, states: seq<State>, n: nat, tab: Tab)
    requires IsRun(events, states) && n < |events| && events[n] == Delivered(tab)
    ensures states[n].stored == Some(states[n].current) && states[n + 1].stored.None? <==>
            && (FailedFirst(events, states, n, tab) || RefusedAsStale(events, states, n, tab))
            && states[n].stored.Some? && !AnyOutstanding(states[n])
  {
    FollowsAt(events, states, n);
    RejectedExactlyWhen(events, states, n, tab);
    LostByRejection(events, states, n, tab);
  }

  lemma LostByRejection(events: seq<Event>, states: seq<State>, n: nat, tab: Tab)
    requires IsRun(events, states) && n < |events| && events[n] == Delivered(tab)
    ensures states[n].stored == Some(states[n].current) && states[n + 1].stored.None?
            <==> tab in states[n].flights && states[n].flights[tab].Rejected? && states[n].stored.Some? && !AnyOutstanding(states[n])
  {
    RunKeeps(events, states, n);
    FollowsAt(events, states, n);
    assert states[n].flights[tab].Lost? ==> Outstanding(states[n], tab);
    assert states[n].flights[tab].Rotated? ==> Outstanding(states[n], tab);
  }

  /** A promise that settles ends the refresh of its tab; it stores the server's key if it brings new tokens, and none otherwise. */
  lemma DeliveryStores(events: seq<Event>, states: seq<State>, n: nat)
    requires IsRun(events, states) && n < |events| && events[n].Delivered?
    ensures var s, t, tab := states[n], states[n + 1], events[n].tab;
            && tab in s.flights && !s.flights[tab].Sent?
            && t.stored == (if s.flights[tab].Rotated? then Some(s.current) else None)
            && t.flights == s.flights - {tab} && t.current == s.current
  {
    RunKeeps(events, states, n);
    FollowsAt(events, states, n);
    assert FlightOk(states[n], events[n].tab);
  }

  /** With no rotation outstanding, and so with no refresh pending, a stored token carries the key of the server. */
  lemma StoredTokenIsCurrent(events: seq<Event>, states: seq<State>, n: nat)
    requires IsRun(events, states) && n < |states| && states[n].stored.Some?
    ensures states[n].stored.value == states[n].current <==> !AnyOutstanding(states[n])
    ensures states[n].flights == map[] ==> states[n].stored.value == states[n].current
  {
    RunKeeps(events, states, n);
  }

  // ------------------------------------------------------------ one at a time

  /** A refresh is sent only while no tab has one pending, as a lock across tabs would have it; one tab alone always does. */
  ghost predicate OneAtATime(events: seq<Event>, states: seq<State>)
    requires |states| == |events| + 1
  {
    forall i :: 0 <= i < |events| && Sends(states[i], events[i]) ==> states[i].flights == map[]
  }

  /** The event sends a refresh. */
  predicate Sends(s: State, e: Event) {
    e.Unauthorized? && !e.retried && s.stored.Some? && e.tab !in s.flights
  }

  lemma {:induction false} AtMostOneFlight(events: seq<Event>, states: seq<State>, n: nat)
    requires IsRun(events, states) && OneAtATime(events, states) && n < |states|
    ensures forall tab, other :: tab in states[n].flights && other in states[n].flights ==> tab == other
  {
    if n > 0 {
      AtMostOneFlight(events, states, n - 1);
      FollowsAt(events, states, n - 1);
      assert Sends(states[n - 1], events[n - 1]) ==> states[n - 1].flights == map[];
    }
  }

  lemma AloneIsNotOvertaken(events: seq<Event>, states: seq<State>, j: nat, k: nat, n: nat, tab: Tab)
    requires IsRun(events, states) && OneAtATime(events, states) && k < n < |states| && SentAt(events, states, k, n, tab)
    ensures !OvertakenBy(events, states, j, k, n)
  {
    FollowsAt(events, states, k);
    assert Sends(states[k], events[k]);
    if k <= j < n {
      AtMostOneFlight(events, states, j + 1);
      assert tab in states[j + 1].flights && states[j + 1].flights[tab].Sent?;
    } else if j < k && events[j].ServerAnswers? {
      assert !Outstanding(states[k], events[j].tab);
    }
  }

  /** Then no refresh is refused for being stale: the server rotates the key of every request that reaches it. */
  lemma RefreshIsNeverStale(events: seq<Event>, states: seq<State>, n: nat, tab: Tab, drawn: Key)
    requires IsRun(events, states) && OneAtATime(events, states) && n < |states| && Possible(states[n], ServerAnswers(tab, drawn))
    ensures Step(states[n], ServerAnswers(tab, drawn)).flights[tab] == Rotated(drawn)
  {
    var k := SentBySomeEvent(events, states, n, tab);
    forall j: nat
      ensures !OvertakenBy(events, states, j, k, n)
    {
      AloneIsNotOvertaken(events, states, j, k, n, tab);
    }
    StaleExactlyIfOvertaken(events, states, k, n, tab);
  }

  lemma {:induction false} StoredWhileAlone(events: seq<Event>, states: seq<State>, k: nat, n: nat, tab: Tab)
    requires IsRun(events, states) && OneAtATime(events, states) && k < n < |states| && events[k] == Unauthorized(tab, false)
    requires tab !in states[k].flights && forall i :: k < i <= n ==> tab in states[i].flights
    ensures states[n].stored.Some?
  {
    FollowsAt(events, states, n - 1);
    if k + 1 < n {
      StoredWhileAlone(events, states, k, n - 1, tab);
      AtMostOneFlight(events, states, n - 1);
      assert tab in states[n - 1].flights;
    }
  }

  /** Then current tokens are removed if and only if the request failed before the server rotated the key for it. */
  lemma OneAtATimeLosesExactlyOnFailure(events: seq<Event>, states: seq<State>, n: nat, tab: Tab)
    requires IsRun(events, states) && OneAtATime(events, states) && n < |events| && events[n] == Delivered(tab)
    ensures states[n].stored == Some(states[n].current) && states[n + 1].stored.None? <==> FailedFirst(events, states, n, tab)
  {
    FollowsAt(events, states, n);
    GoodTokensLostExactlyWhen(events, states, n, tab);
    RejectedExactlyWhen(events, states, n, tab);
    forall k: nat, m: nat | Flies(events, states, k, m, n, tab)
      ensures !Overtaken(events, states, k, m) && states[n].stored.Some?
    {
      AloneStored(events, states, k, m, n, tab);
    }
    if FailedFirst(events, states, n, tab) {
      AtMostOneFlight(events, states, n);
      assert !AnyOutstanding(states[n]);
    }
  }

  lemma AloneStored(events: seq<Event>, states: seq<State>, k: nat, m: nat, n: nat, tab: Tab)
    requires IsRun(events, states) && OneAtATime(events, states) && n < |states| && Flies(events, states, k, m, n, tab)
    ensures !Overtaken(events, states, k, m) && states[n].stored.Some?
  {
    forall j: nat
      ensures !OvertakenBy(events, states, j, k, m)
    {
      AloneIsNotOvertaken(events, states, j, k, m, tab);
    }
    forall i | k < i <= n
      ensures tab in states[i].flights
    {
    }
    StoredWhileAlone(events, states, k, n, tab);
  }

  predicate InTab(e: Event, tab: Tab) {
    e.LoggedIn? || e.LoggedOut? || e.tab == tab
  }

  /** A single tab sends one refresh at a time: single flight. */
  lemma OneTabIsOneAtATime(events: seq<Event>, states: seq<State>, tab: Tab)
    requires IsRun(events, states) && forall i :: 0 <= i < |events| ==> InTab(events[i], tab)
    ensures OneAtATime(events, states)
  {
    forall i | 0 <= i < |events| && Sends(states[i], events[i])
      ensures states[i].flights == map[]
    {
      OnlyTab(events, states, i, tab);
      assert InTab(events[i], tab);
    }
  }

  lemma {:induction false} OnlyTab(events: seq<Event>, states: seq<State>, n: nat, tab: Tab)
    requires IsRun(events, states) && n < |states| && forall i :: 0 <= i < |events| ==> InTab(events[i], tab)
    ensures states[n].flights.Keys <= {tab}
  {
    if n > 0 {
      OnlyTab(events, states, n - 1, tab);
      FollowsAt(events, states, n - 1);
      assert InTab(events[n - 1], tab);
    }
  }

  /**
   Two tabs share the stored token but not the promise: both send it, the server rotates it for the first one, and
   the refusal of the second removes the new tokens that the first one has stored.
   */
  lemma TwoTabsLogOut() returns (events: seq<Event>, states: seq<State>)
    ensures IsRun(events, states) && |events| == 7
    ensures states[6].stored == Some(states[6].current) && states[7].stored.None? && states[7].flights == map[]
  {
    var s0 := State(map[], None, 0, {0});
    var s1 := State(map[], Some(0), 0, {0});
    var s2 := State(map[0 := Sent(0)], Some(0), 0, {0});
    var s3 := State(map[0 := Sent(0), 1 := Sent(0)], Some(0), 0, {0});
    var s4 := State(map[0 := Rotated(1), 1 := Sent(0)], Some(0), 1, {0, 1});
    var s5 := State(map[0 := Rotated(1), 1 := Rejected], Some(0), 1, {0, 1});
    var s6 := State(map[1 := Rejected], Some(1), 1, {0, 1});
    var s7 := State(map[], None, 1, {0, 1});
    events := [LoggedIn, Unauthorized(0, false), Unauthorized(1, false), ServerAnswers(0, 1), ServerAnswers(1, 2), Delivered(0), Delivered(1)];
    states := [s0, s1, s2, s3, s4, s5, s6, s7];
    assert Follows(s0, LoggedIn, s1) && Follows(s1, Unauthorized(0, false), s2) && Follows(s2, Unauthorized(1, false), s3);
    assert Follows(s3, ServerAnswers(0, 1), s4) by {
      assert OnServer(s3, 0, 1).flights == s4.flights;
    }
    assert Follows(s4, ServerAnswers(1, 2), s5) by {
      assert OnServer(s4, 1, 2).flights == s5.flights;
    }
    assert Follows(s5, Delivered(0), s6) by {
      assert OnDelivered(s5, 0).flights == s6.flights;
    }
    assert Follows(s6, Delivered(1), s7) by {
      assert OnDelivered(s6, 1).flights == s7.flights;
    }
  }

  /** One tab is enough: a refresh that does not get through removes tokens that are still good. */
  lemma OneTabLosesOnFailure() returns (events: seq<Event>, states: seq<State>)
    ensures IsRun(events, states) && |events| == 4 && OneAtATime(events, states) && events[2] == Fails(0)
    ensures states[3].stored == Some(states[3].current) && states[4].stored.None?
  {
    var s0 := State(map[], None, 0, {0});
    var s1 := State(map[], Some(0), 0, {0});
    var s2 := State(map[0 := Sent(0)], Some(0), 0, {0});
    var s3 := State(map[0 := Rejected], Some(0), 0, {0});
    var s4 := State(map[], None, 0, {0});
    events, states := [LoggedIn, Unauthorized(0, false), Fails(0), Delivered(0)], [s0, s1, s2, s3, s4];
    assert Follows(s0, LoggedIn, s1) && Follows(s1, Unauthorized(0, false), s2);
    assert Follows(s2, Fails(0), s3) by {
      assert OnFailure(s2, 0).flights == s3.flights;
    }
    assert Follows(s3, Delivered(0), s4) by {
      assert OnDelivered(s3, 0).flights == s4.flights;
    }
  }

  // --------------------------------------------------------- one tab's client

  /** The module state of the client; `attempts` counts the refresh requests sent. */
  class ApiClient {
    var refreshToken: Option<Key>
    var refreshPromise: Option<Flight>
    var attempts: nat

    constructor ()
      ensures refreshToken.None? && refreshPromise.None? && attempts == 0
    {
      refreshToken, refreshPromise, attempts := None, None, 0;
    }

    /** The state of the model in which this is the only tab. */
    ghost function Abs(tab: Tab, current: Key, usedKeys: set<Key>): State
      reads this
    {
      State(if refreshPromise.Some? then map[tab := refreshPromise.value] else map[], refreshToken, current, usedKeys)
    }

    /** False when the request is rejected without waiting for a refresh. */
    method OnResponse401(retried: bool, ghost tab: Tab, ghost current: Key, ghost usedKeys: set<Key>) returns (waits: bool)
      modifies this
      ensures Abs(tab, current, usedKeys) == OnUnauthorized(old(Abs(tab, current, usedKeys)), tab, retried)
      ensures waits <==> !retried && refreshToken.Some?
      ensures waits ==> refreshPromise.Some?
      ensures attempts == old(attempts) + if waits && old(refreshPromise).None? then 1 else 0
    {
      if retried || refreshToken.None? {
        return false;
      }
      if refreshPromise.None? {
        refreshPromise := Some(Sent(refreshToken.value));
        attempts := attempts + 1;
      }
      return true;
    }

    method OnSettled(ghost tab: Tab, ghost current: Key, ghost usedKeys: set<Key>)
      requires refreshPromise.Some? && !refreshPromise.value.Sent?
      modifies this
      ensures Abs(tab, current, usedKeys) == OnDelivered(old(Abs(tab, current, usedKeys)), tab)
      ensures attempts == old(attempts)
    {
      if refreshPromise.value.Rotated? {
        refreshToken := Some(refreshPromise.value.key);
      } else {
        refreshToken := None;
      }
      refreshPromise := None;
    }

    /** A 401 that comes in, or the refresh that settles: a step of the model, which keeps its invariant. */
    method Dispatch(e: Event, ghost tab: Tab, ghost current: Key, ghost usedKeys: set<Key>)
      requires Inv(Abs(tab, current, usedKeys)) && Possible(Abs(tab, current, usedKeys), e)
      requires (e.Unauthorized? || e.Delivered?) && e.tab == tab
      modifies this
      ensures Abs(tab, current, usedKeys) == Step(old(Abs(tab, current, usedKeys)), e) && Inv(Abs(tab, current, usedKeys))
      ensures attempts == old(attempts) + if Sends(old(Abs(tab, current, usedKeys)), e) then 1 else 0
    {
      StepKeeps(Abs(tab, current, usedKeys), e);
      match e
      case Unauthorized(_, retried) => var _ := OnResponse401(retried, tab, current, usedKeys);
      case Delivered(_) => OnSettled(tab, current, usedKeys);
    }
  }
}
