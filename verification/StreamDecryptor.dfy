/**
 streamDecryptToFile as it runs: frames are reassembled in place from network chunks of any size, under an abort
 signal, into a writable that may fail. It is proved to compute Decode of the concatenated bytes.
 */
module StreamDecryptor {
  import opened Basics
  import opened Sequences
  import opened Bytes
  import opened FileFormat
  import opened Aead
  import opened StreamDecoder

  /** An abort signal; `patience` is the number of checks it still passes, negative if it is never raised. */
  class AbortSignal {
    var patience: int

    constructor (patience: int)
      ensures this.patience == patience
    {
      this.patience := patience;
    }

    predicate Armed()
      reads this
    {
      patience >= 0
    }

    method Check() returns (aborted: bool)
      modifies this
      ensures aborted ==> old(Armed())
      ensures Armed() == old(Armed())
      ensures patience == if old(patience) > 0 then old(patience) - 1 else old(patience)
      ensures aborted == (old(patience) == 0)
    {
      aborted := patience == 0;
      if patience > 0 {
        patience := patience - 1;
      }
    }
  }

  datatype ReadResult = Value(bytes: seq<Byte>) | EndOfStream | ReadRejected

  /** The reader of the network stream: the chunks still to come and how the stream ends. */
  class NetworkReader {
    var chunks: seq<seq<Byte>>
    var ending: Ending

    constructor (chunks: seq<seq<Byte>>, ending: Ending)
      ensures this.chunks == chunks && this.ending == ending
    {
      this.chunks, this.ending := chunks, ending;
    }

    method Read() returns (r: ReadResult)
      modifies this
      ensures ending == old(ending)
      ensures old(chunks) == [] ==> chunks == [] && r == if ending.Broken? then ReadRejected else EndOfStream
      ensures old(chunks) != [] ==> r == Value(old(chunks)[0]) && chunks == old(chunks)[1..]
    {
      if chunks == [] {
        r := if ending.Broken? then ReadRejected else EndOfStream;
      } else {
        r := Value(chunks[0]);
        chunks := chunks[1..];
      }
    }
  }

  /** The destination; `room` is the number of writes it still accepts, negative if it never fails. */
  class SequentialWritable {
    var written: seq<seq<Byte>>
    var room: int

    constructor (room: int)
      ensures written == [] && this.room == room
    {
      written, this.room := [], room;
    }

    predicate MayFail()
      reads this
    {
      room >= 0
    }

    method Write(data: seq<Byte>) returns (ok: bool)
      modifies this
      ensures ok == (old(room) != 0)
      ensures written == if ok then old(written) + [data] else old(written)
      ensures MayFail() == old(MayFail())
    {
      ok := room != 0;
      if ok {
        written := written + [data];
        room := if room > 0 then room - 1 else room;
      }
    }
  }

  datatype FrameRead = Frame(frame: array<Byte>) | NoFrame(why: Failure)

  datatype RefillResult = Refilled | Skipped | Stopped(why: Failure)

  /** The cursor shared by the reads of one download. */
  class FrameReader {
    const reader: NetworkReader
    const signal: AbortSignal
    const encryptedSize: nat
    var networkChunk: seq<Byte>
    var networkOffset: nat
    var receivedBytes: nat

    constructor (reader: NetworkReader, signal: AbortSignal, encryptedSize: nat)
      ensures this.reader == reader && this.signal == signal && this.encryptedSize == encryptedSize
      ensures networkChunk == [] && networkOffset == 0 && receivedBytes == 0
    {
      this.reader, this.signal, this.encryptedSize := reader, signal, encryptedSize;
      networkChunk, networkOffset, receivedBytes := [], 0, 0;
    }

    predicate Valid()
      reads this
    {
      networkOffset <= |networkChunk|
    }

    /** The bytes that were not yet handed out. */
    ghost function Remaining(): seq<Byte>
      requires Valid()
      reads this, reader
    {
      networkChunk[networkOffset..] + Flatten(reader.chunks)
    }

    /** Fetches the next network chunk if the current one is used up; an empty one is skipped. */
    method Refill() returns (r: RefillResult)
      requires Valid()
      modifies this, reader
      ensures Valid() && reader.ending == old(reader.ending) && receivedBytes == old(receivedBytes)
      ensures Remaining() == old(Remaining())
      ensures r.Stopped? ==> Remaining() == [] && r.why == if reader.ending.Broken? then SourceBroken else EndedEarly
      ensures r.Refilled? ==> networkOffset < |networkChunk| && |reader.chunks| <= old(|reader.chunks|)
      ensures r.Skipped? ==> |reader.chunks| < old(|reader.chunks|)
    {
      r := Refilled;
      if networkOffset >= |networkChunk| {
        assert networkChunk[networkOffset..] == [];
        var next := reader.Read();
        match next
        case EndOfStream => r := Stopped(EndedEarly);
        case ReadRejected => r := Stopped(SourceBroken);
        case Value(bytes) =>
          assert old(Flatten(reader.chunks)) == bytes + Flatten(reader.chunks);
          if |bytes| == 0 {
            r := Skipped;
          } else {
            networkChunk, networkOffset := bytes, 0;
          }
      }
    }

    /** Copies what the current network chunk offers into the frame, in place. */
    method CopyInto(frame: array<Byte>, frameOffset: nat) returns (copied: nat)
      requires Valid() && networkOffset < |networkChunk| && frameOffset < frame.Length
      modifies this, frame
      ensures Valid()
      ensures 0 < copied <= frame.Length - frameOffset && copied <= |old(Remaining())|
      ensures frame[..frameOffset + copied] == old(frame[..frameOffset]) + old(Remaining())[..copied]
      ensures Remaining() == old(Remaining())[copied..]
      ensures receivedBytes == old(receivedBytes) + copied
    {
      copied := Min(frame.Length - frameOffset, |networkChunk| - networkOffset);
      forall k | 0 <= k < copied {
        frame[frameOffset + k] := networkChunk[networkOffset + k];
      }
      TakeFront(networkChunk, networkOffset, copied, Flatten(reader.chunks));
      assert frame[..frameOffset + copied] == old(frame[..frameOffset]) + networkChunk[networkOffset..networkOffset + copied];
      networkOffset := networkOffset + copied;
      receivedBytes := receivedBytes + copied;
    }

    /**
     readFrame: fills a frame of the expected length, taking what each network chunk offers. It hands out the
     next bytes of the stream, however they were cut.
     */
    method ReadFrame(expectedLength: nat) returns (r: FrameRead)
      requires Valid() && expectedLength > 0
      requires receivedBytes + expectedLength <= encryptedSize
      modifies this, reader, signal
      ensures Valid() && reader.ending == old(reader.ending) && signal.Armed() == old(signal.Armed())
      ensures r.Frame? ==>
                && fresh(r.frame)
                && expectedLength <= |old(Remaining())|
                && r.frame[..] == old(Remaining())[..expectedLength]
                && Remaining() == old(Remaining())[expectedLength..]
                && receivedBytes == old(receivedBytes) + expectedLength
      ensures r.NoFrame? ==>
                || (r.why == Aborted && signal.Armed())
                || (|old(Remaining())| < expectedLength && r.why == if reader.ending.Broken? then SourceBroken else EndedEarly)
    {
      var frame := new Byte[expectedLength](_ => 0);
      var frameOffset := 0;
      ghost var stream := Remaining();

      while frameOffset < expectedLength
        invariant Valid() && frameOffset <= expectedLength
        invariant reader.ending == old(reader.ending) && signal.Armed() == old(signal.Armed())
        invariant receivedBytes == old(receivedBytes) + frameOffset
        invariant frameOffset <= |stream|
        invariant frame[..frameOffset] == stream[..frameOffset]
        invariant Remaining() == stream[frameOffset..]
        decreases expectedLength - frameOffset, |reader.chunks|
      {
        var aborted := signal.Check();
        if aborted {
          return NoFrame(Aborted);
        }

        var refill := Refill();
        if refill.Stopped? {
          return NoFrame(refill.why);
        }
        if refill.Skipped? {
          continue;
        }

        var copied := CopyInto(frame, frameOffset);
        ExtendPrefix(stream, frameOffset, copied);
        frameOffset := frameOffset + copied;

        if receivedBytes > encryptedSize {
          assert false;  // 'larger than expected' cannot be raised
        }
      }

      if networkOffset >= |networkChunk| {
        assert networkChunk[networkOffset..] == [][..];
        networkChunk, networkOffset := [], 0;
      }
      assert frame[..] == frame[..expectedLength];
      r := Frame(frame);
    }
  }

  /** Taking n elements off the front of a chunk takes them off the front of the stream. */
  lemma TakeFront<T>(chunk: seq<T>, offset: nat, n: nat, later: seq<T>)
    requires offset + n <= |chunk|
    ensures (chunk[offset..] + later)[..n] == chunk[offset..offset + n]
    ensures (chunk[offset..] + later)[n..] == chunk[offset + n..] + later
  {
  }

  lemma ExtendPrefix<T>(stream: seq<T>, done: nat, n: nat)
    requires done <= |stream| && n <= |stream[done..]|
    ensures stream[..done + n] == stream[..done] + stream[done..][..n]
    ensures stream[done..][n..] == stream[done + n..]
  {
  }

  /** A frame that opens yields exactly the plaintext length the loop expects. */
  lemma OpenedFrameLength(key: AeadKey, m: DownloadMetadata, frame: seq<Byte>, i: nat, mode: Mode)
    requires SoundGeometry(m) && key.Valid() && i < m.chunkCount && |frame| == FrameLength(m, i)
    ensures var r := DecryptFrame(key, frame, m, i, mode);
            r.FrameOpened? ==> |r.plaintext| == PlainLength(m, i)
  {
    OpenedLength(key, frame, ModeAad(m, i, AuthenticatedV2));
    OpenedLength(key, frame, ModeAad(m, i, LegacyV1));
  }

  datatype Step = Advanced(mode: Mode) | Halted(why: Failure)

  /** One round of the chunk loop: reads, decrypts, checks and writes chunk `chunkIndex`. */
  method ProcessChunk(frames: FrameReader, writable: SequentialWritable, key: AeadKey, m: DownloadMetadata,
                      chunkIndex: nat, encryptionMode: Mode)
    returns (r: Step)
    requires SoundGeometry(m) && key.Valid() && chunkIndex < m.chunkCount
    requires frames.Valid() && frames.receivedBytes == StartOf(m, chunkIndex) && frames.encryptedSize == m.encryptedSize
    modifies frames, frames.reader, frames.signal, writable
    ensures frames.Valid() && frames.reader.ending == old(frames.reader.ending)
    ensures frames.signal.Armed() == old(frames.signal.Armed()) && writable.MayFail() == old(writable.MayFail())
    ensures r.Advanced? ==>
              var rest := old(frames.Remaining());
              var n := FrameLength(m, chunkIndex);
              && 0 <= n <= |rest|
              && (var frame := DecryptFrame(key, rest[..n], m, chunkIndex, encryptionMode);
                 && frame.FrameOpened? && frame.mode == r.mode
                 && writable.written == old(writable.written) + [frame.plaintext]
                 && |frame.plaintext| == PlainLength(m, chunkIndex)
                 && frames.Remaining() == rest[n..]
                 && frames.receivedBytes == StartOf(m, chunkIndex + 1))
    ensures r.Halted? ==>
              && writable.written == old(writable.written)
              && (|| (r.why == Aborted && frames.signal.Armed())
                  || (r.why == WriteRejected && writable.MayFail())
                  || DecodeFrom(key, m, chunkIndex, encryptionMode, old(frames.Remaining()), frames.reader.ending)
                     == Decoded(Failed(r.why), []))
  {
    FramesTile(m, chunkIndex);

    var aborted := frames.signal.Check();
    if aborted {
      return Halted(Aborted);
    }

    var plaintextChunkLength := PlainLength(m, chunkIndex);
    var read := frames.ReadFrame(plaintextChunkLength + m.encryptionOverhead);
    if read.NoFrame? {
      return Halted(read.why);
    }

    var result := DecryptFrame(key, read.frame[..], m, chunkIndex, encryptionMode);
    if result.FrameRejected? {
      return Halted(result.why);
    }
    OpenedFrameLength(key, m, read.frame[..], chunkIndex, encryptionMode);
    if |result.plaintext| != plaintextChunkLength {
      assert false;  // 'invalid size' cannot be raised
    }

    aborted := frames.signal.Check();
    if aborted {
      return Halted(Aborted);
    }
    var ok := writable.Write(result.plaintext);
    if !ok {
      return Halted(WriteRejected);
    }
    r := Advanced(result.mode);
  }

  /**
   streamDecryptToFile on validated metadata. Without an abort or a failing write it does exactly what Decode says
   of the concatenated bytes; otherwise it stops with leading chunks of that written. The four size checks of the
   original cannot fail.
   */
  method StreamDecryptToFile(reader: NetworkReader, writable: SequentialWritable, key: AeadKey, m: DownloadMetadata,
                             signal: AbortSignal)
    returns (outcome: Outcome)
    requires SoundGeometry(m) && key.Valid()
    modifies reader, writable, signal
    ensures signal.Armed() == old(signal.Armed()) && writable.MayFail() == old(writable.MayFail())
    ensures RunOf(Decode(key, m, Flatten(old(reader.chunks)), old(reader.ending)), outcome,
                  old(writable.written), writable.written, signal.Armed(), writable.MayFail())
  {
    var frames := new FrameReader(reader, signal, m.encryptedSize);
    var writtenBytes := 0;
    var encryptionMode := Unknown;
    ghost var d := Decode(key, m, Flatten(reader.chunks), reader.ending);
    ghost var soFar: seq<seq<Byte>> := [];
    AppendNothing(Flatten(reader.chunks));
    AppendNothing(d.written);
    AppendNothing(writable.written);
    StartAtZero(m, []);
    OwnFailures(key, m, 0, Unknown, Flatten(reader.chunks), reader.ending);

    var chunkIndex := 0;
    while chunkIndex < m.chunkCount
      invariant frames.Valid() && chunkIndex <= m.chunkCount
      invariant reader.ending == old(reader.ending)
      invariant signal.Armed() == old(signal.Armed()) && writable.MayFail() == old(writable.MayFail())
      invariant frames.receivedBytes == StartOf(m, chunkIndex)
      invariant writtenBytes == if chunkIndex == m.chunkCount then m.plaintextSize else PlainStart(chunkIndex)
      invariant writable.written == old(writable.written) + soFar
      invariant Resumes(d, soFar, DecodeFrom(key, m, chunkIndex, encryptionMode, frames.Remaining(), reader.ending))
    {
      ghost var rest := frames.Remaining();
      DecodeStep(key, m, chunkIndex, encryptionMode, rest, reader.ending);
      FramesTile(m, chunkIndex);

      var step := ProcessChunk(frames, writable, key, m, chunkIndex, encryptionMode);
      if step.Halted? {
        HaltedRun(d, soFar, DecodeFrom(key, m, chunkIndex, encryptionMode, rest, reader.ending), step.why,
                  old(writable.written), signal.Armed(), writable.MayFail());
        return Failed(step.why);
      }
      encryptionMode := step.mode;
      writtenBytes := writtenBytes + PlainLength(m, chunkIndex);

      ghost var p := writable.written[|writable.written| - 1];
      ResumesAfter(d, soFar, p, DecodeFrom(key, m, chunkIndex + 1, encryptionMode, frames.Remaining(), reader.ending));
      ConcatAssociates(old(writable.written), soFar, [p]);
      soFar := soFar + [p];
      chunkIndex := chunkIndex + 1;
    }

    ghost var last := DecodeFrom(key, m, chunkIndex, encryptionMode, frames.Remaining(), reader.ending);
    outcome := DrainEnd(frames);
    if outcome.Failed? {
      HaltedRun(d, soFar, last, outcome.why, old(writable.written), signal.Armed(), writable.MayFail());
    } else {
      AppendNothing(soFar);
    }
    if outcome.Completed? {
      if frames.receivedBytes != m.encryptedSize {
        assert false;  // 'does not match metadata' cannot be raised
      }
      if writtenBytes != m.plaintextSize {
        assert false;  // nor can its plaintext twin
      }
    }
  }

  /** The whole run is what was written so far followed by the rest of the run. */
  ghost predicate Resumes(d: Decoded, soFar: seq<seq<Byte>>, tail: Decoded) {
    d.outcome == tail.outcome && d.written == soFar + tail.written
  }

  lemma ResumesAfter(d: Decoded, soFar: seq<seq<Byte>>, p: seq<Byte>, later: Decoded)
    requires Resumes(d, soFar, Decoded(later.outcome, [p] + later.written))
    ensures Resumes(d, soFar + [p], later)
  {
    AppendShift(soFar, p, later.written);
  }

  /** How a run relates to Decode: alike, or cut short by an abort or a failing write after whole chunks. */
  ghost predicate RunOf(d: Decoded, outcome: Outcome, before: seq<seq<Byte>>, after: seq<seq<Byte>>, armed: bool, mayFail: bool) {
    if outcome == d.outcome then after == before + d.written
    else
      && (|| (outcome == Failed(Aborted) && armed)
          || (outcome == Failed(WriteRejected) && mayFail))
      && exists n :: 0 <= n <= |d.written| && after == before + d.written[..n]
  }

  lemma HaltedRun(d: Decoded, soFar: seq<seq<Byte>>, tail: Decoded, why: Failure, before: seq<seq<Byte>>, armed: bool, mayFail: bool)
    requires Resumes(d, soFar, tail) && d.outcome != Failed(Aborted) && d.outcome != Failed(WriteRejected)
    requires || (why == Aborted && armed)
             || (why == WriteRejected && mayFail)
             || tail == Decoded(Failed(why), [])
    ensures RunOf(d, Failed(why), before, before + soFar, armed, mayFail)
  {
    PrefixOfSum(soFar, tail.written);
    AppendNothing(soFar);
    if why == Aborted || why == WriteRejected {
      assert d.written[..|soFar|] == soFar;
    }
  }

  /** Aborts and failing writes come from outside: Decode never reports them. */
  lemma {:induction false} OwnFailures(key: AeadKey, m: DownloadMetadata, i: nat, mode: Mode, rest: seq<Byte>, ending: Ending)
    requires SoundGeometry(m) && i <= m.chunkCount
    ensures var d := DecodeFrom(key, m, i, mode, rest, ending);
            d.outcome != Failed(Aborted) && d.outcome != Failed(WriteRejected)
    decreases m.chunkCount - i
  {
    if i < m.chunkCount {
      DecodeStep(key, m, i, mode, rest, ending);
      var n := FrameLength(m, i);
      if n <= |rest| {
        var r := DecryptFrame(key, rest[..n], m, i, mode);
        if r.FrameOpened? {
          OwnFailures(key, m, i + 1, r.mode, rest[n..], ending);
        }
      }
    }
  }

  lemma PrefixOfSum<T>(a: seq<T>, b: seq<T>)
    ensures |a| <= |a + b| && (a + b)[..|a|] == a
  {
  }

  /** After the last frame: nothing may be left over, and the stream must end regularly. */
  method DrainEnd(frames: FrameReader) returns (outcome: Outcome)
    requires frames.Valid()
    modifies frames.reader, frames.signal
    ensures frames.receivedBytes == old(frames.receivedBytes)
    ensures frames.signal.Armed() == old(frames.signal.Armed())
    ensures || (outcome == Failed(Aborted) && old(frames.signal.Armed()))
            || outcome == if |old(frames.Remaining())| > 0 then Failed(TrailingData)
                          else if old(frames.reader.ending).Broken? then Failed(SourceBroken)
                          else Completed
  {
    if frames.networkOffset < |frames.networkChunk| {
      return Failed(TrailingData);
    }
    ghost var rest := frames.Remaining();
    assert rest == Flatten(frames.reader.chunks);
    while true
      invariant Flatten(frames.reader.chunks) == rest
      invariant frames.reader.ending == old(frames.reader.ending)
      invariant frames.signal.Armed() == old(frames.signal.Armed())
      decreases |frames.reader.chunks|
    {
      var aborted := frames.signal.Check();
      if aborted {
        return Failed(Aborted);
      }
      var finalRead := frames.reader.Read();
      match finalRead
      case EndOfStream => return Completed;
      case ReadRejected => return Failed(SourceBroken);
      case Value(bytes) =>
        if |bytes| > 0 {
          return Failed(TrailingData);
        }
    }
  }

  /**
   Fragmentation does not matter: two downloads that deliver the same bytes, however cut, under signals that are
   never raised and into writables that never fail, end alike and write the same chunks.
   */
  method FragmentationIndependence(a: NetworkReader, b: NetworkReader, key: AeadKey, m: DownloadMetadata)
    returns (outcomeA: Outcome, outcomeB: Outcome, writtenA: seq<seq<Byte>>, writtenB: seq<seq<Byte>>)
    requires SoundGeometry(m) && key.Valid() && a != b
    requires Flatten(a.chunks) == Flatten(b.chunks) && a.ending == b.ending
    modifies a, b
    ensures outcomeA == outcomeB && writtenA == writtenB
    ensures Decoded(outcomeA, writtenA) == Decode(key, m, Flatten(old(a.chunks)), old(a.ending))
  {
    var never := new AbortSignal(-1);
    var left := new SequentialWritable(-1);
    var right := new SequentialWritable(-1);
    outcomeA := StreamDecryptToFile(a, left, key, m, never);
    outcomeB := StreamDecryptToFile(b, right, key, m, never);
    writtenA, writtenB := left.written, right.written;
    AppendNothing(Decode(key, m, Flatten(old(a.chunks)), old(a.ending)).written);
  }
}
