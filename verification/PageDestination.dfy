/**
 The page's side of a browser download (createDestination): callbacks of the worker, of timers, of the abort signal
 and of the transferred stream settle one `ready` promise, drive a heartbeat and end the destination.
 */
module PageDestination {

  datatype Ready = Waiting | Started | Failed
  datatype Control = Heartbeat | Complete | Cancel
  /** The writer of the transferred stream. */
  datatype Writer = Open | Closing | Closed | Errored

  datatype State = State(
    terminal: bool,
    ready: Ready,
    /** How often one of the two callbacks of `ready` was called. */
    settlements: nat,
    heartbeating: bool,
    startTimer: bool,
    /** The reply port is open and the worker's state changes are listened to. */
    listening: bool,
    aborted: bool,
    abortListener: bool,
    writer: Writer,
    /** close() was called, and then its writer.close() too. */
    closeCalled: bool,
    closeBegun: bool,
    workerGone: bool,
    posted: seq<Control>,
    delivered: seq<nat>
  )

  const INITIAL: State :=
    State(false, Waiting, 0, false, true, true, false, true, Open, false, false, false, [], [])

  function PostControl(s: State, c: Control): State {
    if s.workerGone then s else s.(posted := s.posted + [c])
  }

  function StopHeartbeat(s: State): State {
    s.(heartbeating := false)
  }

  function StartHeartbeat(s: State): State {
    if s.heartbeating || s.terminal then s else PostControl(s.(heartbeating := true), Heartbeat)
  }

  function Settled(s: State, outcome: Ready): State {
    s.(ready := outcome, settlements := s.settlements + 1, startTimer := false, listening := false)
  }

  function SettleReady(s: State, ok: bool): State {
    if !s.ready.Waiting? then s
    else
      var t := Settled(s, if ok then Started else Failed);
      if ok then StartHeartbeat(t) else t
  }

  /** writer.abort: a close in flight may still succeed. */
  function AbortWriter(s: State): State {
    if s.writer.Open? then s.(writer := Errored) else s
  }

  function OnStartTimeout(s: State): State {
    AbortWriter(PostControl(SettleReady(s, false), Cancel))
  }

  /** The listener of the abort signal. */
  function OnAbort(s: State): State {
    if s.terminal then s
    else AbortWriter(PostControl(SettleReady(StopHeartbeat(s.(terminal := true)), false), Cancel))
  }

  function AbortSignal(s: State): State {
    if s.aborted then s
    else if s.abortListener then OnAbort(s.(aborted := true, abortListener := false))
    else s.(aborted := true)
  }

  /** destination.abort, which does what the listener does and removes it. */
  function Abort(s: State): State {
    if s.terminal then s else OnAbort(s.(abortListener := false))
  }

  /** The rejection of writer.closed is turned into an abort of the download. */
  function OnWriterFailed(s: State): State {
    if !s.terminal && !s.aborted then AbortSignal(s) else s
  }

  /** The end of close(), after writer.close() was fulfilled. */
  function FinishClose(s: State): State {
    PostControl(StopHeartbeat(s.(terminal := true, abortListener := false, closeBegun := false)), Complete)
  }

  function OnWorkerStopped(s: State): State {
    var t := s.(workerGone := true);
    if s.listening then SettleReady(t, false) else t
  }

  datatype Event =
    | WorkerReply(started: bool)
    | ReplyUnreadable
    | WorkerStopped
    | StartTimedOut
    | HeartbeatTick
    | SignalAborted
    | ReaderCancelled
    | WriterFailed
    | SliceDelivered(size: nat)
    | CloseCalled
    | CloseBegins
    | CloseSettled(ok: bool)
    | CloseFinishes
    | AbortCalled

  ghost predicate Possible(s: State, e: Event) {
    match e
    case WorkerReply(_) => s.listening
    case ReplyUnreadable => s.listening
    case WorkerStopped => true
    case StartTimedOut => s.startTimer
    case HeartbeatTick => s.heartbeating
    case SignalAborted => true
    case ReaderCancelled => true
    case WriterFailed => s.writer.Errored?
    case SliceDelivered(_) => s.ready.Started? && !s.terminal && !s.aborted && s.writer.Open?
    case CloseCalled => !s.closeCalled
    case CloseBegins => s.closeCalled && !s.closeBegun && s.ready.Started? && s.writer.Open?
    case CloseSettled(_) => s.writer.Closing?
    case CloseFinishes => s.closeBegun && s.writer.Closed?
    case AbortCalled => true
  }

  function Step(s: State, e: Event): State {
    match e
    case WorkerReply(started) => SettleReady(s, started)
    case ReplyUnreadable => SettleReady(s, false)
    case WorkerStopped => OnWorkerStopped(s)
    case StartTimedOut => OnStartTimeout(s)
    case HeartbeatTick => PostControl(s, Heartbeat)
    case SignalAborted => AbortSignal(s)
    case ReaderCancelled => if s.writer.Closed? then s else s.(writer := Errored)
    case WriterFailed => OnWriterFailed(s)
    case SliceDelivered(size) => s.(delivered := s.delivered + [size])
    case CloseCalled => if s.terminal then s else s.(closeCalled := true)
    case CloseBegins => s.(writer := Closing, closeBegun := true)
    case CloseSettled(ok) => s.(writer := if ok then Closed else Errored)
    case CloseFinishes => FinishClose(s)
    case AbortCalled => Abort(s)
  }

  ghost predicate Follows(s: State, e: Event, t: State) {
    Possible(s, e) && t == Step(s, e)
  }

  ghost predicate IsRun(events: seq<Event>, states: seq<State>) {
    && |states| == |events| + 1
    && states[0] == INITIAL
    && forall i :: 0 <= i < |events| ==> Follows(states[i], events[i], states[i + 1])
  }

  // ------------------------------------------------------------- invariant

  /** Once something else was posted, no heartbeat is. */
  ghost predicate HeartbeatsFirst(posted: seq<Control>) {
    forall i, j :: 0 <= i < j < |posted| && !posted[i].Heartbeat? ==> !posted[j].Heartbeat?
  }

  ghost predicate Inv(s: State) {
    && s.settlements == (if s.ready.Waiting? then 0 else 1)
    && (s.ready.Waiting? <==> s.startTimer) && (s.ready.Waiting? <==> s.listening)
    && (s.heartbeating <==> s.ready.Started? && !s.terminal)
    && (s.terminal ==> !s.ready.Waiting? && !s.writer.Open? && !s.abortListener)
    && (!s.terminal ==> s.abortListener)
    && (s.aborted ==> s.terminal)
    && (s.closeBegun ==> s.ready.Started? && s.closeCalled && !s.writer.Open?)
    && (s.writer.Closing? || s.writer.Closed? ==> s.ready.Started? && s.closeCalled)
    && (Complete in s.posted ==> s.writer.Closed? && s.terminal)
    && (s.writer.Closing? ==> s.closeBegun)
    && (s.writer.Closed? && !s.closeBegun ==> s.workerGone || Complete in s.posted)
    && (s.delivered != [] ==> s.ready.Started?)
    && (s.terminal ==> s.workerGone || Cancel in s.posted || Complete in s.posted)
    && HeartbeatsFirst(s.posted)
    && ((exists i :: 0 <= i < |s.posted| && !s.posted[i].Heartbeat?) ==> !s.heartbeating && !s.ready.Waiting?)
  }

  lemma PostKeepsOrder(posted: seq<Control>, c: Control)
    requires HeartbeatsFirst(posted)
    requires c.Heartbeat? ==> forall i :: 0 <= i < |posted| ==> posted[i].Heartbeat?
    ensures HeartbeatsFirst(posted + [c])
  {
  }

  lemma StepKeeps(s: State, e: Event)
    requires Inv(s) && Possible(s, e)
    ensures Inv(Step(s, e))
  {
    forall c: Control | !c.Heartbeat? || s.heartbeating || s.ready.Waiting?
      ensures HeartbeatsFirst(s.posted + [c])
    {
      PostKeepsOrder(s.posted, c);
    }
  }

  lemma {:induction false} RunKeeps(events: seq<Event>, states: seq<State>, n: nat)
    requires IsRun(events, states) && n < |states|
    ensures Inv(states[n])
  {
    if n > 0 {
      RunKeeps(events, states, n - 1);
      assert Follows(states[n - 1], events[n - 1], states[n - 1 + 1]);
      StepKeeps(states[n - 1], events[n - 1]);
    }
  }

  // -------------------------------------------------------------- guarantees

  /** `ready` settles at most once, when it does it clears its timer and listeners, and it never changes its mind. */
  lemma ReadySettlesOnce(events: seq<Event>, states: seq<State>, n: nat)
    requires IsRun(events, states) && n < |states|
    ensures states[n].settlements <= 1
    ensures states[n].settlements == 1 <==> !states[n].ready.Waiting?
    ensures states[n].settlements == 1 <==> !states[n].startTimer
    ensures states[n].settlements == 1 <==> !states[n].listening
  {
    RunKeeps(events, states, n);
  }

  /** The callbacks that settle a `ready` that is still waiting. */
  predicate Settles(e: Event) {
    || e.WorkerReply? || e.ReplyUnreadable? || e.WorkerStopped? || e.StartTimedOut?
    || e.SignalAborted? || e.WriterFailed? || e.AbortCalled?
  }

  /** Event i is the first one of the run that settles `ready`. */
  ghost predicate FirstSettles(events: seq<Event>, i: nat)
    requires i < |events|
  {
    Settles(events[i]) && forall j :: 0 <= j < i ==> !Settles(events[j])
  }

  lemma SettlingStep(s: State, e: Event)
    requires Inv(s) && Possible(s, e)
    ensures Step(s, e).ready == if s.ready.Waiting? && Settles(e) then if e == WorkerReply(true) then Started else Failed else s.ready
  {
    match e
    case WorkerReply(_) =>
    case ReplyUnreadable =>
    case WorkerStopped =>
    case StartTimedOut =>
    case SignalAborted =>
    case WriterFailed =>
    case AbortCalled =>
    case _ =>
  }

  /**
   What `ready` tells, exactly: it waits until the first reply, timeout, abort or end of the worker, is fulfilled if that
   was the worker's reply that the download has started, and is rejected if it was anything else.
   */
  lemma {:induction false} ReadyTellsTheReply(events: seq<Event>, states: seq<State>, n: nat)
    requires IsRun(events, states) && n < |states|
    ensures states[n].ready.Waiting? <==> forall i :: 0 <= i < n ==> !Settles(events[i])
    ensures states[n].ready.Started? <==> exists i :: 0 <= i < n && FirstSettles(events, i) && events[i] == WorkerReply(true)
    ensures states[n].ready.Failed? <==> exists i :: 0 <= i < n && FirstSettles(events, i) && events[i] != WorkerReply(true)
  {
    if n > 0 {
      ReadyTellsTheReply(events, states, n - 1);
      RunKeeps(events, states, n - 1);
      assert Follows(states[n - 1], events[n - 1], states[n - 1 + 1]);
      SettlingStep(states[n - 1], events[n - 1]);
      assert states[n - 1].ready.Waiting? && Settles(events[n - 1]) ==> FirstSettles(events, n - 1);
    }
  }

  /** An abort, whoever calls it, ends the destination at once, and the worker is told unless it is gone. */
  lemma AbortEnds(events: seq<Event>, states: seq<State>, n: nat)
    requires IsRun(events, states) && n < |events| && (events[n].SignalAborted? || events[n].AbortCalled? || events[n].WriterFailed?)
    ensures states[n + 1].terminal
    ensures !states[n].terminal && !states[n].workerGone ==> states[n + 1].posted == states[n].posted + [Cancel]
  {
    RunKeeps(events, states, n);
    assert Follows(states[n], events[n], states[n + 1]);
  }

  /** The first heartbeat is posted with the start, and each tick of the timer posts one, while the worker is there. */
  lemma HeartbeatsArePosted(events: seq<Event>, states: seq<State>, n: nat)
    requires IsRun(events, states) && n < |events| && !states[n].workerGone
    requires events[n].HeartbeatTick? || (states[n].ready.Waiting? && events[n] == WorkerReply(true))
    ensures states[n + 1].posted == states[n].posted + [Heartbeat]
  {
    RunKeeps(events, states, n);
    assert Follows(states[n], events[n], states[n + 1]);
  }

  /** What never changes back: the outcome of `ready`, the end of the destination, and what it sent after its end. */
  ghost predicate Later(s: State, t: State) {
    && (!s.ready.Waiting? ==> t.ready == s.ready)
    && (s.terminal ==> t.terminal && t.delivered == s.delivered)
    && s.posted <= t.posted && s.delivered <= t.delivered
    && (s.writer.Closed? ==> t.writer.Closed? && t.delivered == s.delivered)
  }

  lemma StepIsLater(s: State, e: Event)
    requires Inv(s) && Possible(s, e)
    ensures Later(s, Step(s, e))
  {
  }

  lemma LaterTwice(s: State, t: State, u: State)
    requires Later(s, t) && Later(t, u)
    ensures Later(s, u)
  {
  }

  lemma NextIsLater(events: seq<Event>, states: seq<State>, i: nat)
    requires IsRun(events, states) && i < |events|
    ensures Later(states[i], states[i + 1])
  {
    RunKeeps(events, states, i);
    assert Follows(states[i], events[i], states[i + 1]);
    StepIsLater(states[i], events[i]);
  }

  lemma {:induction false} LaterChain(states: seq<State>, i: nat, j: nat)
    requires i <= j < |states| && forall k :: i <= k < j ==> Later(states[k], states[k + 1])
    ensures Later(states[i], states[j])
  {
    if i < j {
      LaterChain(states, i, j - 1);
      assert Later(states[j - 1], states[j - 1 + 1]);
      LaterTwice(states[i], states[j - 1], states[j]);
    }
  }

  lemma RunIsLater(events: seq<Event>, states: seq<State>, i: nat, j: nat)
    requires IsRun(events, states) && i <= j < |states|
    ensures Later(states[i], states[j])
  {
    forall k | i <= k < j
      ensures Later(states[k], states[k + 1])
    {
      NextIsLater(events, states, k);
    }
    LaterChain(states, i, j);
  }

  /** The heartbeat timer runs exactly between a successful start and the end. */
  lemma HeartbeatRunsWhileDownloading(events: seq<Event>, states: seq<State>, n: nat)
    requires IsRun(events, states) && n < |states|
    ensures states[n].heartbeating <==> states[n].ready.Started? && !states[n].terminal
  {
    RunKeeps(events, states, n);
  }

  /** Each step posts at most one message, and a heartbeat only after a successful start and before the end. */
  lemma OnePost(s: State, e: Event)
    requires Inv(s) && Possible(s, e)
    ensures PostsOne(s, Step(s, e))
  {
    match e
    case WorkerReply(_) =>
    case ReplyUnreadable =>
    case WorkerStopped =>
    case StartTimedOut =>
    case HeartbeatTick =>
    case SignalAborted =>
    case ReaderCancelled =>
    case WriterFailed =>
    case SliceDelivered(_) =>
    case CloseCalled =>
    case CloseBegins =>
    case CloseSettled(_) =>
    case CloseFinishes =>
    case AbortCalled =>
  }

  ghost predicate PostsOne(s: State, t: State) {
    || t.posted == s.posted
    || (t.posted == s.posted + [Heartbeat] && t.ready.Started? && !t.terminal)
    || t.posted == s.posted + [Cancel]
    || t.posted == s.posted + [Complete]
  }

  lemma HeartbeatsAreTimely(events: seq<Event>, states: seq<State>, n: nat)
    requires IsRun(events, states) && n < |events|
    ensures PostsOne(states[n], states[n + 1])
  {
    RunKeeps(events, states, n);
    assert Follows(states[n], events[n], states[n + 1]);
    OnePost(states[n], events[n]);
  }

  /** The worker never gets a heartbeat after it was told that the download is complete or cancelled. */
  lemma NoHeartbeatAfterTheEnd(events: seq<Event>, states: seq<State>, n: nat, i: nat, j: nat)
    requires IsRun(events, states) && n < |states|
    requires i < j < |states[n].posted| && !states[n].posted[i].Heartbeat?
    ensures !states[n].posted[j].Heartbeat?
  {
    RunKeeps(events, states, n);
  }

  /** An ended destination has no timer or listener left, can deliver nothing more, and has told the worker how it ended. */
  lemma EndedIsQuiet(events: seq<Event>, states: seq<State>, n: nat)
    requires IsRun(events, states) && n < |states| && states[n].terminal
    ensures var s := states[n];
            && !s.startTimer && !s.listening && !s.heartbeating && !s.abortListener && !s.writer.Open?
            && (s.workerGone || Cancel in s.posted || Complete in s.posted)
            && forall m :: n <= m < |states| ==> states[m].terminal && states[m].delivered == s.delivered
  {
    RunKeeps(events, states, n);
    forall m | n <= m < |states|
      ensures states[m].terminal && states[m].delivered == states[n].delivered
    {
      RunIsLater(events, states, n, m);
    }
  }

  /** A completed download was started, its stream was closed regularly, and nothing was delivered after that. */
  lemma CompletionIsRegular(events: seq<Event>, states: seq<State>, n: nat)
    requires IsRun(events, states) && n < |states| && Complete in states[n].posted
    ensures var s := states[n];
            s.ready.Started? && s.closeCalled && s.writer.Closed? && s.terminal
    ensures forall m :: n <= m < |states| ==> states[m].delivered == states[n].delivered
  {
    RunKeeps(events, states, n);
    forall m | n <= m < |states|
      ensures states[m].delivered == states[n].delivered
    {
      RunIsLater(events, states, n, m);
    }
  }

  /** A start timeout does not end the destination itself; the rejected writer that it causes does. */
  lemma TimeoutEndsThroughTheWriter(events: seq<Event>, states: seq<State>, n: nat)
    requires IsRun(events, states) && n < |states| && states[n].startTimer
    ensures var t := Step(states[n], StartTimedOut);
            t.ready.Failed? && !t.terminal && t.writer.Errored? && Possible(t, WriterFailed)
            && Step(t, WriterFailed).terminal && Step(t, WriterFailed).aborted
  {
    RunKeeps(events, states, n);
  }

  // ------------------------------------------------------------- as callbacks

  /** The closure variables of createDestination, updated in place by its callbacks. */
  class Destination {
    var terminal: bool
    var ready: Ready
    var settlements: nat
    var heartbeating: bool
    var startTimer: bool
    var listening: bool
    var aborted: bool
    var abortListener: bool
    var writer: Writer
    var closeCalled: bool
    var closeBegun: bool
    var workerGone: bool
    var posted: seq<Control>
    var delivered: seq<nat>

    ghost function Abs(): State
      reads this
    {
      State(terminal, ready, settlements, heartbeating, startTimer, listening, aborted, abortListener, writer,
            closeCalled, closeBegun, workerGone, posted, delivered)
    }

    constructor ()
      ensures Abs() == INITIAL && Inv(Abs())
    {
      terminal, ready, settlements, heartbeating, startTimer, listening := false, Waiting, 0, false, true, true;
      aborted, abortListener, writer, closeCalled, closeBegun, workerGone := false, true, Open, false, false, false;
      posted, delivered := [], [];
    }

    method PostControlMessage(c: Control)
      modifies this`posted
      ensures Abs() == PostControl(old(Abs()), c)
    {
      if !workerGone {
        posted := posted + [c];
      }
    }

    method BeginHeartbeat()
      modifies this`posted, this`heartbeating
      ensures Abs() == StartHeartbeat(old(Abs()))
    {
      if heartbeating || terminal {
        return;
      }
      PostControlMessage(Heartbeat);
      heartbeating := true;
    }

    method Unlisten(outcome: Ready)
      modifies this`ready, this`settlements, this`startTimer, this`listening
      ensures Abs() == Settled(old(Abs()), outcome)
    {
      ready, settlements := outcome, settlements + 1;
      startTimer := false;
      listening := false;
    }

    method Settle(ok: bool)
      modifies this`ready, this`settlements, this`startTimer, this`listening, this`posted, this`heartbeating
      ensures Abs() == SettleReady(old(Abs()), ok)
    {
      if !ready.Waiting? {
        return;
      }
      Unlisten(if ok then Started else Failed);
      if ok {
        BeginHeartbeat();
      }
    }

    method AbortTheWriter()
      modifies this`writer
      ensures Abs() == AbortWriter(old(Abs()))
    {
      if writer.Open? {
        writer := Errored;
      }
    }

    method StartTimeout()
      modifies this
      ensures Abs() == OnStartTimeout(old(Abs()))
    {
      Settle(false);
      PostControlMessage(Cancel);
      AbortTheWriter();
    }

    method HandleAbort()
      modifies this
      ensures Abs() == OnAbort(old(Abs()))
    {
      if terminal {
        return;
      }
      terminal := true;
      heartbeating := false;
      Settle(false);
      PostControlMessage(Cancel);
      AbortTheWriter();
    }

    method RaiseAbort()
      modifies this
      ensures Abs() == AbortSignal(old(Abs()))
    {
      if !aborted {
        aborted := true;
        if abortListener {
          abortListener := false;
          HandleAbort();
        }
      }
    }

    method AbortDestination()
      modifies this
      ensures Abs() == Abort(old(Abs()))
    {
      if terminal {
        return;
      }
      abortListener := false;
      HandleAbort();
    }

    /** close() after its two awaits. */
    method EndClose()
      modifies this
      ensures Abs() == FinishClose(old(Abs()))
    {
      PostControlMessage(Complete);
      heartbeating := false;
      terminal := true;
      abortListener := false;
      closeBegun := false;
    }

    method WorkerStateChanged()
      modifies this
      ensures Abs() == OnWorkerStopped(old(Abs()))
    {
      workerGone := true;
      if listening {
        Settle(false);
      }
    }

    /** Whatever callback runs next, it makes the step of the model and keeps the invariant. */
    method Dispatch(e: Event)
      requires Inv(Abs()) && Possible(Abs(), e)
      modifies this
      ensures Abs() == Step(old(Abs()), e) && Inv(Abs())
    {
      StepKeeps(Abs(), e);
      match e
      case WorkerReply(started) => Settle(started);
      case ReplyUnreadable => Settle(false);
      case WorkerStopped => WorkerStateChanged();
      case StartTimedOut => StartTimeout();
      case HeartbeatTick => PostControlMessage(Heartbeat);
      case SignalAborted => RaiseAbort();
      case ReaderCancelled => if !writer.Closed? { writer := Errored; }
      case WriterFailed => if !terminal && !aborted { RaiseAbort(); }
      case SliceDelivered(size) => delivered := delivered + [size];
      case CloseCalled => if !terminal { closeCalled := true; }
      case CloseBegins => writer, closeBegun := Closing, true;
      case CloseSettled(ok) => writer := if ok then Closed else Errored;
      case CloseFinishes => EndClose();
      case AbortCalled => AbortDestination();
    }
  }
}
