/**
 Registrations that overlap: the code is looked up before its transaction, which only counts down. It is stated exactly
 when an invite code can be used more often than it allows.
 */
module RegistrationRace {

  type Request = nat

  /** One invite code, and the registrations that found it usable and have not had their transaction yet. */
  datatype State = State(usage: int, isValid: bool, checked: set<Request>)

  datatype Event =
    | Checks(r: Request)
    | Commits(r: Request)
    /** The transaction fails, because the user name is taken, say. */
    | Fails(r: Request)
    | Switches(isValid: bool)

  predicate Passes(s: State, e: Event) {
    e.Checks? && s.isValid && s.usage > 0
  }

  predicate Possible(s: State, e: Event) {
    match e
    case Checks(r) => r !in s.checked
    case Commits(r) => r in s.checked
    case Fails(r) => r in s.checked
    case Switches(_) => true
  }

  function Step(s: State, e: Event): State {
    match e
    case Checks(r) => if s.isValid && s.usage > 0 then s.(checked := s.checked + {r}) else s
    case Commits(r) => s.(usage := s.usage - 1, checked := s.checked - {r})
    case Fails(r) => s.(checked := s.checked - {r})
    case Switches(isValid) => s.(isValid := isValid)
  }

  ghost predicate Follows(s: State, e: Event, t: State) {
    Possible(s, e) && t == Step(s, e)
  }

  ghost predicate Continues(events: seq<Event>, states: seq<State>) {
    && |states| == |events| + 1
    && forall i :: 0 <= i < |events| ==> Follows(states[i], events[i], states[i + 1])
  }

  /** A run from a new code with some uses. */
  ghost predicate IsRun(events: seq<Event>, states: seq<State>) {
    Continues(events, states) && states[0].usage >= 0 && states[0].checked == {}
  }

  /** The accounts that the first n events make. */
  function Made(events: seq<Event>, n: nat): nat
    requires n <= |events|
  {
    if n == 0 then 0 else Made(events, n - 1) + if events[n - 1].Commits? then 1 else 0
  }

  lemma {:induction false} MadeIsUsed(events: seq<Event>, states: seq<State>, n: nat)
    requires Continues(events, states) && n <= |events|
    ensures Made(events, n) == states[0].usage - states[n].usage
  {
    if n > 0 {
      MadeIsUsed(events, states, n - 1);
      assert Follows(states[n - 1], events[n - 1], states[n - 1 + 1]);
    }
  }

  // -------------------------------------------------------------- overuse

  /** Events that only commit registrations that have been checked already. */
  ghost predicate OnlyCommits(events: seq<Event>) {
    forall i :: 0 <= i < |events| ==> events[i].Commits?
  }

  /** The run goes on, by commits of registrations that have found the code usable, to less than no uses. */
  ghost predicate Overuses(s: State, events: seq<Event>, states: seq<State>) {
    Continues(events, states) && states[0] == s && OnlyCommits(events) && states[|events|].usage < 0
  }

  ghost predicate CanBeOverused(s: State) {
    exists events, states :: Overuses(s, events, states)
  }

  lemma {:induction false} CommitsCount(events: seq<Event>, states: seq<State>, n: nat)
    requires Continues(events, states) && OnlyCommits(events) && n <= |events|
    ensures states[n].usage == states[0].usage - n && |states[n].checked| == |states[0].checked| - n
  {
    if n > 0 {
      CommitsCount(events, states, n - 1);
      assert Follows(states[n - 1], events[n - 1], states[n - 1 + 1]);
    }
  }

  lemma {:induction false} CommitAll(s: State) returns (events: seq<Event>, states: seq<State>)
    ensures Continues(events, states) && OnlyCommits(events) && states[0] == s && |events| == |s.checked|
    decreases |s.checked|
  {
    if s.checked == {} {
      events, states := [], [s];
    } else {
      var r :| r in s.checked;
      var next := Step(s, Commits(r));
      var laterEvents, laterStates := CommitAll(next);
      events, states := [Commits(r)] + laterEvents, [s] + laterStates;
      forall i | 0 <= i < |events|
        ensures Follows(states[i], events[i], states[i + 1])
      {
        if i > 0 {
          assert Follows(laterStates[i - 1], laterEvents[i - 1], laterStates[i - 1 + 1]);
        }
      }
    }
  }

  /** A code can be overused from here exactly if more registrations have found it usable than it has uses left. */
  lemma OverusableExactlyWhen(s: State)
    ensures CanBeOverused(s) <==> |s.checked| > s.usage
  {
    if |s.checked| > s.usage {
      var events, states := CommitAll(s);
      CommitsCount(events, states, |events|);
      assert Overuses(s, events, states);
    }
    forall events, states | Overuses(s, events, states)
      ensures |s.checked| > s.usage
    {
      CommitsCount(events, states, |events|);
    }
  }

  lemma {:induction false} CheckedInTime(events: seq<Event>, states: seq<State>, n: nat)
    requires IsRun(events, states) && n <= |events|
    requires forall i :: 0 <= i < n && Passes(states[i], events[i]) ==> |states[i].checked| < states[i].usage
    ensures |states[n].checked| <= states[n].usage
  {
    if n > 0 {
      CheckedInTime(events, states, n - 1);
      assert Follows(states[n - 1], events[n - 1], states[n - 1 + 1]);
    }
  }

  /**
   At no point of a run can a code be overused if and only if every registration that found it usable did so while fewer
   others were still to commit than it had uses left.
   */
  lemma SafeExactlyWhenCheckedInTime(events: seq<Event>, states: seq<State>, n: nat)
    requires IsRun(events, states) && n <= |events|
    ensures (forall i :: 0 <= i <= n ==> !CanBeOverused(states[i]))
       <==> (forall i :: 0 <= i < n && Passes(states[i], events[i]) ==> |states[i].checked| < states[i].usage)
  {
    forall i | 0 <= i <= n
      ensures CanBeOverused(states[i]) <==> |states[i].checked| > states[i].usage
    {
      OverusableExactlyWhen(states[i]);
    }
    if forall i :: 0 <= i < n && Passes(states[i], events[i]) ==> |states[i].checked| < states[i].usage {
      forall i | 0 <= i <= n
        ensures !CanBeOverused(states[i])
      {
        CheckedInTime(events, states, i);
      }
    } else {
      var i :| 0 <= i < n && Passes(states[i], events[i]) && |states[i].checked| >= states[i].usage;
      assert Follows(states[i], events[i], states[i + 1]);
      assert CanBeOverused(states[i + 1]);
    }
  }

  /** Registrations one after the other, each with its transaction before the next one looks its code up. */
  ghost predicate OneAtATime(events: seq<Event>, states: seq<State>)
    requires |states| == |events| + 1
  {
    forall i :: 0 <= i < |events| && Passes(states[i], events[i]) ==> states[i].checked == {}
  }

  /** Then no code ever makes more accounts than it has uses. */
  lemma OneAtATimeNeverOveruses(events: seq<Event>, states: seq<State>, n: nat)
    requires IsRun(events, states) && OneAtATime(events, states) && n <= |events|
    ensures Made(events, n) <= states[0].usage
  {
    CheckedInTime(events, states, n);
    MadeIsUsed(events, states, n);
  }

  /** Two registrations that look the same code up before either has its transaction: a code for one account makes two. */
  lemma TwoAtOnce() returns (events: seq<Event>, states: seq<State>)
    ensures IsRun(events, states) && states[0].usage == 1
    ensures Made(events, |events|) == 2 && states[|events|].usage == -1
  {
    var s0 := State(1, true, {});
    var s1 := Step(s0, Checks(1));
    var s2 := Step(s1, Checks(2));
    var s3 := Step(s2, Commits(1));
    var s4 := Step(s3, Commits(2));
    events, states := [Checks(1), Checks(2), Commits(1), Commits(2)], [s0, s1, s2, s3, s4];
    MadeIsUsed(events, states, |events|);
  }
}
