/**
 A browser download as a whole: the page's program, from the awaited `ready` through the decoding loop and the slices of
 each write to close() or abort(), step by step between its awaits, while the callbacks of the destination may run in
 between. It is composed with the service worker that gave the browser the stream.
 */
module BrowserDownload {
  import opened Sequences
  import opened Bytes
  import opened FileFormat
  import opened Aead
  import opened StreamDecoder
  import opened StreamDecryptor
  import opened TransportSlices
  import D = PageDestination
  import R = DownloadRendezvous
  import G = DownloadGuarantees

  /** What is downloaded: the file key, the validated metadata, and what the network will deliver. */
  datatype Download = Download(key: AeadKey, m: DownloadMetadata, bytes: seq<Byte>, ending: Ending)

  ghost predicate Sound(c: Download) {
    SoundGeometry(c.m) && c.key.Valid()
  }

  /** Where the program of the page is. `i` is the chunk to be read next. */
  datatype Page =
    | AwaitingReady
    | Reading(i: nat, mode: Mode, rest: seq<Byte>)
    | Writing(i: nat, mode: Mode, rest: seq<Byte>, data: seq<Byte>, offset: nat)
    | DecodedAll
    | Closing
    | Succeeded
    | Catching
    | GaveUp

  /** `written` are the writes that have returned, `sent` the slices that the stream has taken. */
  datatype State = State(page: Page, dest: D.State, written: seq<seq<Byte>>, sent: seq<seq<Byte>>)

  const INITIAL: State := State(AwaitingReady, D.INITIAL, [], [])

  datatype Event =
    /** A callback of the destination, or the continuation of its close(). */
    | Callback(e: D.Event)
    | ReadyObserved
    /** An abort that is noticed, a failed fetch, a response that does not match. */
    | GivesUp
    | ReadsFrame
    | WritesSlice
    | WriteFails
    | Drains
    | CallsClose
    | CloseReturns
    | CloseRejects
    | CallsAbort

  /** What is not a step of the page's program. The page also aborts the destination when it goes away, after the signal. */
  predicate IsCallback(d: D.State, e: D.Event) {
    !e.SliceDelivered? && !e.CloseCalled? && (e.AbortCalled? ==> d.aborted)
  }

  /** The slice that the write loop is at. */
  function SliceAt(data: seq<Byte>, offset: nat): seq<Byte>
    requires offset <= |data|
  {
    if offset + TRANSPORT_CHUNK_SIZE < |data| then data[offset..offset + TRANSPORT_CHUNK_SIZE] else data[offset..]
  }

  ghost predicate Possible(c: Download, s: State, e: Event)
    requires Sound(c)
  {
    match e
    case Callback(callback) => IsCallback(s.dest, callback) && D.Possible(s.dest, callback)
    case ReadyObserved => s.page.AwaitingReady? && s.dest.ready.Started?
    case GivesUp => s.page.AwaitingReady? || s.page.Reading? || s.page.DecodedAll?
    case ReadsFrame => s.page.Reading? && s.page.i < c.m.chunkCount
    case WritesSlice =>
      s.page.Writing? && s.page.offset < |s.page.data|
      && D.Possible(s.dest, D.SliceDelivered(|SliceAt(s.page.data, s.page.offset)|))
    case WriteFails => s.page.Writing?
    case Drains => s.page.Reading? && s.page.i == c.m.chunkCount
    case CallsClose => s.page.DecodedAll? && !s.dest.aborted && D.Possible(s.dest, D.CloseCalled)
    case CloseReturns => s.page.Closing? && s.dest.writer.Closed? && !s.dest.closeBegun
    case CloseRejects => s.page.Closing? && (s.dest.ready.Failed? || s.dest.writer.Errored?)
    case CallsAbort => s.page.Catching?
  }

  /** One round of the chunk loop up to its write. */
  function ReadFrame(c: Download, s: State): State
    requires SoundGeometry(c.m) && s.page.Reading? && s.page.i < c.m.chunkCount
  {
    FramesTile(c.m, s.page.i);
    var n := FrameLength(c.m, s.page.i);
    if |s.page.rest| < n then s.(page := Catching)
    else
      match DecryptFrame(c.key, s.page.rest[..n], c.m, s.page.i, s.page.mode)
      case FrameRejected(_) => s.(page := Catching)
      case FrameOpened(p, mode) => s.(page := Writing(s.page.i + 1, mode, s.page.rest[n..], p, 0))
  }

  /** One slice is taken by the stream; after the last one the write returns. */
  function WriteSlice(s: State): State
    requires s.page.Writing? && s.page.offset < |s.page.data|
  {
    var slice := SliceAt(s.page.data, s.page.offset);
    var next := s.page.offset + TRANSPORT_CHUNK_SIZE;
    var t := s.(dest := D.Step(s.dest, D.SliceDelivered(|slice|)), sent := s.sent + [slice]);
    if next < |s.page.data| then t.(page := s.page.(offset := next))
    else t.(page := Reading(s.page.i, s.page.mode, s.page.rest), written := s.written + [s.page.data])
  }

  ghost function Step(c: Download, s: State, e: Event): State
    requires Sound(c) && Possible(c, s, e)
  {
    match e
    case Callback(callback) => s.(dest := D.Step(s.dest, callback))
    case ReadyObserved => s.(page := Reading(0, Unknown, c.bytes))
    case GivesUp => s.(page := Catching)
    case ReadsFrame => ReadFrame(c, s)
    case WritesSlice => WriteSlice(s)
    case WriteFails => s.(page := Catching)
    case Drains => s.(page := if s.page.rest == [] && c.ending.Done? then DecodedAll else Catching)
    case CallsClose => s.(page := Closing, dest := D.Step(s.dest, D.CloseCalled))
    case CloseReturns => s.(page := Succeeded)
    case CloseRejects => s.(page := Catching)
    case CallsAbort => s.(page := GaveUp, dest := D.Step(s.dest, D.AbortCalled))
  }

  ghost predicate Follows(c: Download, s: State, e: Event, t: State)
    requires Sound(c)
  {
    Possible(c, s, e) && t == Step(c, s, e)
  }

  ghost predicate IsRun(c: Download, events: seq<Event>, states: seq<State>)
    requires Sound(c)
  {
    && |states| == |events| + 1
    && states[0] == INITIAL
    && forall i :: 0 <= i < |events| ==> Follows(c, states[i], events[i], states[i + 1])
  }

  // ------------------------------------------------------------- invariant

  ghost function Result(c: Download): Decoded
    requires Sound(c)
  {
    Decode(c.key, c.m, c.bytes, c.ending)
  }

  function Sizes(parts: seq<seq<Byte>>): seq<nat> {
    seq(|parts|, i requires 0 <= i < |parts| => |parts[i]|)
  }

  /** The decoder completed, and every slice of every chunk was taken. */
  ghost predicate AllSent(c: Download, s: State)
    requires Sound(c)
  {
    Result(c).outcome.Completed? && s.written == Result(c).written && s.sent == Transported(Result(c).written)
  }

  ghost predicate PageOk(c: Download, s: State)
    requires Sound(c)
  {
    match s.page
    case AwaitingReady => s.written == [] && s.sent == []
    case Reading(i, mode, rest) =>
      && i <= c.m.chunkCount && s.sent == Transported(s.written)
      && Resumes(Result(c), s.written, DecodeFrom(c.key, c.m, i, mode, rest, c.ending))
    case Writing(i, mode, rest, data, offset) =>
      && i <= c.m.chunkCount && offset < |data|
      && s.sent + SlicesFrom(data, offset) == Transported(s.written + [data])
      && Resumes(Result(c), s.written + [data], DecodeFrom(c.key, c.m, i, mode, rest, c.ending))
    case DecodedAll => AllSent(c, s)
    case Closing => AllSent(c, s) && s.dest.closeCalled
    case Succeeded => AllSent(c, s) && s.dest.closeCalled && s.dest.writer.Closed? && !s.dest.closeBegun
    case Catching => s.sent <= Transported(Result(c).written)
    case GaveUp => s.sent <= Transported(Result(c).written) && s.dest.terminal
  }

  ghost predicate DestOk(c: Download, s: State)
    requires Sound(c)
  {
    && D.Inv(s.dest) && s.dest.delivered == Sizes(s.sent)
    && (s.dest.terminal ==> s.dest.aborted || s.dest.closeCalled || s.page.GaveUp?)
    && (s.dest.closeCalled ==> AllSent(c, s) && (s.page.Closing? || s.page.Succeeded? || s.page.Catching? || s.page.GaveUp?))
  }

  /** close() is called only after everything was sent. */
  ghost predicate Inv(c: Download, s: State)
    requires Sound(c)
  {
    PageOk(c, s) && DestOk(c, s)
  }

  // -------------------------------------------------------------- transport

  lemma {:induction false} TransportedAppend(a: seq<seq<Byte>>, b: seq<seq<Byte>>)
    ensures Transported(a + b) == Transported(a) + Transported(b)
  {
    if a == [] {
      assert a + b == b;
      AppendNothing(Transported(b));
    } else {
      TransportedAppend(a[1..], b);
      assert (a + b)[1..] == a[1..] + b;
      ConcatAssociates(SlicesFrom(a[0], 0), Transported(a[1..]), Transported(b));
    }
  }

  lemma TransportedOne(a: seq<seq<Byte>>, data: seq<Byte>)
    ensures Transported(a + [data]) == Transported(a) + SlicesFrom(data, 0)
  {
    TransportedAppend(a, [data]);
    assert [data][1..] == [];
    AppendNothing(SlicesFrom(data, 0));
  }

  /** Whatever the loops are at, what was sent is a part of what the whole decoding sends. */
  lemma SentIsPrefix(c: Download, s: State)
    requires Sound(c) && PageOk(c, s)
    ensures s.sent <= Transported(Result(c).written)
  {
    match s.page
    case Reading(i, mode, rest) =>
      TransportedAppend(s.written, DecodeFrom(c.key, c.m, i, mode, rest, c.ending).written);
    case Writing(i, mode, rest, data, offset) =>
      TransportedAppend(s.written + [data], DecodeFrom(c.key, c.m, i, mode, rest, c.ending).written);
      assert s.sent <= Transported(s.written + [data]);
    case _ =>
  }

  lemma SizesAppend(parts: seq<seq<Byte>>, part: seq<Byte>)
    ensures Sizes(parts + [part]) == Sizes(parts) + [|part|]
  {
  }

  function Sum(sizes: seq<nat>): nat {
    if sizes == [] then 0 else Sum(sizes[..|sizes| - 1]) + sizes[|sizes| - 1]
  }

  lemma {:induction false} SumOfSizes(parts: seq<seq<Byte>>)
    ensures Sum(Sizes(parts)) == |Flatten(parts)|
  {
    if parts != [] {
      var n := |parts| - 1;
      SumOfSizes(parts[..n]);
      assert parts == parts[..n] + [parts[n]];
      FlattenSnoc(parts[..n], parts[n]);
      SizesAppend(parts[..n], parts[n]);
    }
  }

  // -------------------------------------------------------------- the steps

  /** What a callback leaves as it was: what was delivered, and a stream that has been closed. */
  ghost predicate Undelivered(d: D.State, t: D.State) {
    && t.delivered == d.delivered && t.closeCalled == d.closeCalled
    && (d.writer.Closed? && !d.closeBegun ==> t.writer.Closed? && !t.closeBegun)
    && (t.terminal ==> d.terminal || t.aborted || d.closeBegun)
    && (d.aborted ==> t.aborted) && (d.terminal ==> t.terminal)
  }

  lemma CallbackKeeps(c: Download, s: State, e: D.Event)
    requires Sound(c) && Inv(c, s) && IsCallback(s.dest, e) && D.Possible(s.dest, e)
    ensures Inv(c, s.(dest := D.Step(s.dest, e)))
  {
    D.StepKeeps(s.dest, e);
    CallbackDelivers(s.dest, e);
  }

  lemma CallbackDelivers(d: D.State, e: D.Event)
    requires IsCallback(d, e) && D.Possible(d, e)
    ensures Undelivered(d, D.Step(d, e))
  {
    match e
    case WorkerReply(started) => SettlingDelivers(d, started);
    case ReplyUnreadable => SettlingDelivers(d, false);
    case WorkerStopped => SettlingDelivers(d.(workerGone := true), false);
    case StartTimedOut => SettlingDelivers(d, false);
    case SignalAborted => SignalDelivers(d);
    case WriterFailed => SignalDelivers(d);
    case AbortCalled => AbortDelivers(d);
    case _ => CloseDelivers(d, e);
  }

  lemma SettlingDelivers(d: D.State, ok: bool)
    ensures var t := D.SettleReady(d, ok); Undelivered(d, t) && t.writer == d.writer && t.terminal == d.terminal
  {
  }

  /** What the settling of `ready` and a message to the worker leave as they were. */
  ghost predicate SameStream(d: D.State, t: D.State) {
    && t.delivered == d.delivered && t.closeCalled == d.closeCalled && t.closeBegun == d.closeBegun
    && t.writer == d.writer && t.aborted == d.aborted && t.terminal == d.terminal
  }

  lemma PostingSameStream(d: D.State, control: D.Control)
    ensures SameStream(d, D.PostControl(d, control))
  {
  }

  lemma FailingSameStream(d: D.State)
    ensures SameStream(d, D.SettleReady(d, false))
  {
  }

  lemma EndingDelivers(d: D.State)
    requires d.aborted
    ensures Undelivered(d, D.OnAbort(d))
  {
    var stopped := D.StopHeartbeat(d.(terminal := true));
    var settled := D.SettleReady(stopped, false);
    FailingSameStream(stopped);
    PostingSameStream(settled, D.Cancel);
  }

  lemma SignalDelivers(d: D.State)
    ensures Undelivered(d, D.AbortSignal(d))
  {
    EndingDelivers(d.(aborted := true, abortListener := false));
  }

  lemma AbortDelivers(d: D.State)
    requires d.aborted
    ensures Undelivered(d, D.Abort(d))
  {
    EndingDelivers(d.(abortListener := false));
  }

  lemma OwnAbortDelivers(d: D.State)
    ensures D.Abort(d).delivered == d.delivered && D.Abort(d).closeCalled == d.closeCalled
  {
    SettlingDelivers(D.StopHeartbeat(d.(abortListener := false, terminal := true)), false);
  }

  lemma CloseDelivers(d: D.State, e: D.Event)
    requires e.HeartbeatTick? || e.ReaderCancelled? || e.CloseBegins? || e.CloseSettled? || e.CloseFinishes?
    requires D.Possible(d, e)
    ensures Undelivered(d, D.Step(d, e))
  {
  }

  lemma ReadFrameKeeps(c: Download, s: State)
    requires Sound(c) && Inv(c, s) && s.page.Reading? && s.page.i < c.m.chunkCount
    ensures Inv(c, ReadFrame(c, s))
  {
    var i, mode, rest := s.page.i, s.page.mode, s.page.rest;
    FramesTile(c.m, i);
    DecodeStep(c.key, c.m, i, mode, rest, c.ending);
    SentIsPrefix(c, s);
    var n := FrameLength(c.m, i);
    if |rest| >= n {
      var r := DecryptFrame(c.key, rest[..n], c.m, i, mode);
      if r.FrameOpened? {
        OpenedFrameLength(c.key, c.m, rest[..n], i, mode);
        ResumesAfter(Result(c), s.written, r.plaintext, DecodeFrom(c.key, c.m, i + 1, r.mode, rest[n..], c.ending));
        TransportedOne(s.written, r.plaintext);
      }
    }
  }

  lemma WriteSliceKeeps(c: Download, s: State)
    requires Sound(c) && Inv(c, s) && Possible(c, s, WritesSlice)
    ensures Inv(c, WriteSlice(s))
  {
    var data, offset := s.page.data, s.page.offset;
    var slice := SliceAt(data, offset);
    D.StepKeeps(s.dest, D.SliceDelivered(|slice|));
    SizesAppend(s.sent, slice);
    var next := offset + TRANSPORT_CHUNK_SIZE;
    if next < |data| {
      assert SlicesFrom(data, offset) == [slice] + SlicesFrom(data, next);
      AppendShift(s.sent, slice, SlicesFrom(data, next));
    } else {
      assert SlicesFrom(data, offset) == [slice];
    }
  }

  lemma DrainsKeeps(c: Download, s: State)
    requires Sound(c) && Inv(c, s) && Possible(c, s, Drains)
    ensures Inv(c, Step(c, s, Drains))
  {
    SentIsPrefix(c, s);
    AppendNothing(s.written);
  }

  lemma StepKeeps(c: Download, s: State, e: Event)
    requires Sound(c) && Inv(c, s) && Possible(c, s, e)
    ensures Inv(c, Step(c, s, e))
  {
    SentIsPrefix(c, s);
    match e
    case Callback(callback) => CallbackKeeps(c, s, callback);
    case ReadyObserved =>
      AppendNothing(Result(c).written);
    case ReadsFrame => ReadFrameKeeps(c, s);
    case WritesSlice => WriteSliceKeeps(c, s);
    case Drains => DrainsKeeps(c, s);
    case CallsClose => D.StepKeeps(s.dest, D.CloseCalled);
    case CallsAbort =>
      D.StepKeeps(s.dest, D.AbortCalled);
      OwnAbortDelivers(s.dest);
    case _ =>
  }

  lemma {:induction false} RunKeeps(c: Download, events: seq<Event>, states: seq<State>, n: nat)
    requires Sound(c) && IsRun(c, events, states) && n < |states|
    ensures Inv(c, states[n])
  {
    if n > 0 {
      RunKeeps(c, events, states, n - 1);
      assert Follows(c, states[n - 1], events[n - 1], states[n - 1 + 1]);
      StepKeeps(c, states[n - 1], events[n - 1]);
    }
  }

  // -------------------------------------------------------------- guarantees

  lemma SumDelivered(c: Download, s: State)
    requires Sound(c) && Inv(c, s)
    ensures Sum(s.dest.delivered) == |Flatten(s.sent)|
  {
    SumOfSizes(s.sent);
  }

  /** How a download ended well for the stream, for the worker, or for the page. */
  ghost predicate IsComplete(s: State) {
    s.dest.writer.Closed? || D.Complete in s.dest.posted || s.page.Succeeded?
  }

  lemma CompleteSentAll(c: Download, s: State)
    requires Sound(c) && Inv(c, s) && IsComplete(s)
    ensures AllSent(c, s)
  {
  }

  /**
   If the stream was closed, the worker told that it is complete, or the page shows that it is, then the decoder accepted
   the whole file, and the stream was given all of it: exactly the announced number of bytes.
   */
  lemma CompleteIsWhole(c: Download, events: seq<Event>, states: seq<State>, n: nat)
    requires Sound(c) && IsRun(c, events, states) && n < |states| && IsComplete(states[n])
    ensures Result(c).outcome.Completed?
    ensures Flatten(states[n].sent) == Flatten(Result(c).written)
    ensures Sum(states[n].dest.delivered) == c.m.plaintextSize
  {
    RunKeeps(c, events, states, n);
    CompleteSentAll(c, states[n]);
    SumDelivered(c, states[n]);
    TransportKeepsBytes(Result(c).written);
    CompletedSendsPlaintextSize(c.key, c.m, c.bytes, c.ending);
  }

  /** A page that shows success has closed the stream, and has told the worker unless that is gone. */
  lemma SuccessIsReported(c: Download, events: seq<Event>, states: seq<State>, n: nat)
    requires Sound(c) && IsRun(c, events, states) && n < |states| && states[n].page.Succeeded?
    ensures states[n].dest.writer.Closed?
    ensures states[n].dest.workerGone || D.Complete in states[n].dest.posted
  {
    RunKeeps(c, events, states, n);
  }

  /** A page that has given up has ended its destination: no heartbeat is left, and the worker knows unless it is gone. */
  lemma FailureIsReported(c: Download, events: seq<Event>, states: seq<State>, n: nat)
    requires Sound(c) && IsRun(c, events, states) && n < |states| && states[n].page.GaveUp?
    ensures var d := states[n].dest;
            && d.terminal && !d.heartbeating && !d.startTimer && !d.writer.Open?
            && (d.workerGone || D.Cancel in d.posted || D.Complete in d.posted)
  {
    RunKeeps(c, events, states, n);
  }

  /** At any time, however the download goes on or breaks off, the stream was given leading bytes of what is decoded. */
  lemma DeliveredIsPrefix(c: Download, events: seq<Event>, states: seq<State>, n: nat)
    requires Sound(c) && IsRun(c, events, states) && n < |states|
    ensures Flatten(states[n].sent) <= Flatten(Result(c).written)
    ensures Sum(states[n].dest.delivered) == |Flatten(states[n].sent)| <= c.m.plaintextSize
  {
    RunKeeps(c, events, states, n);
    var s := states[n];
    SumDelivered(c, s);
    SentIsPrefix(c, s);
    PrefixFlattens(s.sent, Transported(Result(c).written));
    TransportKeepsBytes(Result(c).written);
    WrittenFits(c.key, c.m, c.bytes, c.ending);
  }

  lemma PrefixFlattens(a: seq<seq<Byte>>, b: seq<seq<Byte>>)
    requires a <= b
    ensures Flatten(a) <= Flatten(b)
  {
    assert b == a + b[|a|..];
    FlattenAppend(a, b[|a|..]);
  }

  /** Under a key that sealed one file only, the stream is given leading bytes of that file, and all of it if complete. */
  lemma DeliveredIsTheFile(c: Download, file: seq<Byte>, events: seq<Event>, states: seq<State>, n: nat)
    requires Sound(c) && |file| == c.m.plaintextSize && OnlySeals(c.key, c.m, file)
    requires IsRun(c, events, states) && n < |states|
    ensures Flatten(states[n].sent) <= file
    ensures IsComplete(states[n]) ==> Flatten(states[n].sent) == file
  {
    DeliveredIsPrefix(c, events, states, n);
    PositionBinding(c.key, c.m, file, c.bytes, c.ending);
    PrefixFlattens(Result(c).written, PlainChunks(c.m, file));
    ChunksMakeFile(c.m, file);
    if IsComplete(states[n]) {
      CompleteIsWhole(c, events, states, n);
    }
  }

  /**
   The page reads on exactly as the decoding goes on: a frame brings the next chunk to write if there is one, and is given
   up otherwise; the end of the file is accepted exactly if the decoding is. Neither tells the worker or the stream.
   */
  lemma DecodingGoesOn(c: Download, events: seq<Event>, states: seq<State>, n: nat)
    requires Sound(c) && IsRun(c, events, states) && n < |events|
    ensures var s, t, done := states[n], states[n + 1], |states[n].written|;
            && (events[n].ReadsFrame? ==>
                  && t == s.(page := t.page)
                  && if done < |Result(c).written| then t.page.Writing? && t.page.data == Result(c).written[done] && t.page.offset == 0
                     else t.page.Catching?)
            && (events[n].Drains? ==> t == s.(page := if Result(c).outcome.Completed? then DecodedAll else Catching))
  {
    RunKeeps(c, events, states, n);
    var s := states[n];
    assert Follows(c, s, events[n], states[n + 1]);
    match events[n]
    case ReadsFrame => DecodeStep(c.key, c.m, s.page.i, s.page.mode, s.page.rest, c.ending);
    case _ =>
  }

  /** The page is past its wait for the worker. */
  predicate HasStarted(page: Page) {
    page.Reading? || page.Writing? || page.DecodedAll? || page.Closing? || page.Succeeded?
  }

  lemma StepStarts(c: Download, s: State, e: Event)
    requires Sound(c) && Inv(c, s) && Possible(c, s, e) && (HasStarted(s.page) ==> s.dest.ready.Started?)
    ensures HasStarted(Step(c, s, e).page) ==> Step(c, s, e).dest.ready.Started?
    ensures Step(c, s, e).dest.ready.Started? && !s.dest.ready.Started? ==> e == Callback(D.WorkerReply(true))
  {
    match e
    case Callback(callback) => D.SettlingStep(s.dest, callback);
    case WritesSlice => D.SettlingStep(s.dest, D.SliceDelivered(|SliceAt(s.page.data, s.page.offset)|));
    case CallsClose => D.SettlingStep(s.dest, D.CloseCalled);
    case CallsAbort => D.SettlingStep(s.dest, D.AbortCalled);
    case _ =>
  }

  lemma {:induction false} ReplyBefore(c: Download, events: seq<Event>, states: seq<State>, n: nat)
    requires Sound(c) && IsRun(c, events, states) && n < |states|
    ensures HasStarted(states[n].page) ==> states[n].dest.ready.Started?
    ensures states[n].dest.ready.Started? ==> exists i :: 0 <= i < n && events[i] == Callback(D.WorkerReply(true))
  {
    if n > 0 {
      ReplyBefore(c, events, states, n - 1);
      NextStarts(c, events, states, n - 1);
    }
  }

  /**
   The page asks for the file and decodes it only after the worker has replied that the download has started; without
   that reply nothing is ever given to the stream.
   */
  lemma StartsOnlyAfterReply(c: Download, events: seq<Event>, states: seq<State>, n: nat)
    requires Sound(c) && IsRun(c, events, states) && n < |states|
    requires HasStarted(states[n].page) || states[n].dest.delivered != []
    ensures exists i :: 0 <= i < n && events[i] == Callback(D.WorkerReply(true))
  {
    RunKeeps(c, events, states, n);
    ReplyBefore(c, events, states, n);
  }

  lemma NextStarts(c: Download, events: seq<Event>, states: seq<State>, n: nat)
    requires Sound(c) && IsRun(c, events, states) && n < |events| && (HasStarted(states[n].page) ==> states[n].dest.ready.Started?)
    ensures HasStarted(states[n + 1].page) ==> states[n + 1].dest.ready.Started?
    ensures states[n + 1].dest.ready.Started? && !states[n].dest.ready.Started? ==> events[n] == Callback(D.WorkerReply(true))
  {
    RunKeeps(c, events, states, n);
    assert Follows(c, states[n], events[n], states[n + 1]);
    StepStarts(c, states[n], events[n]);
  }

  // -------------------------------------------------------------- the worker

  /**
   The response that the worker gave the browser for the stream of this page announces the size that the page sent. The
   stream never brings more, brings leading bytes of what is decoded, and brings exactly that many once it is complete.
   */
  lemma ResponseIsFilled(c: Download, events: seq<Event>, states: seq<State>, n: nat,
                         workerEvents: seq<R.Event>, workerStates: seq<R.State>, j: nat, w: nat, k: nat)
    requires Sound(c) && IsRun(c, events, states) && n < |states|
    requires R.IsRun(workerEvents, workerStates) && j < w < |workerStates|
    requires workerEvents[j].StreamEvent? && workerEvents[j].m.size == c.m.plaintextSize
    requires G.StreamedAt(workerStates[w], workerEvents[j].m.sid, k)
    ensures var length := workerStates[w].answers[k].response.contentLength;
            && Sum(states[n].dest.delivered) <= length
            && (IsComplete(states[n]) ==> Sum(states[n].dest.delivered) == length)
  {
    G.ResponseHasMessageSize(workerEvents, workerStates, j, w, k);
    DeliveredIsPrefix(c, events, states, n);
    if IsComplete(states[n]) {
      CompleteIsWhole(c, events, states, n);
    }
  }
}
