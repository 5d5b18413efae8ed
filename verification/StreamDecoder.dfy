/**
 What streamDecryptToFile computes, as a function of the received bytes alone, and what follows from it:
 when it accepts, the round trip, truncation, and the binding of every chunk to its position.
 */
module StreamDecoder {
  import opened Sequences
  import opened Bytes
  import opened FileFormat
  import opened Aead

  datatype Mode = Unknown | AuthenticatedV2 | LegacyV1

  /** How the network stream ends after its last chunk: a regular end, or a rejected read. */
  datatype Ending = Done | Broken

  datatype Failure =
    | Aborted
    | EndedEarly
    | SourceBroken
    | AuthenticationFailed
    | FrameTooSmall
    | WriteRejected
    | TrailingData

  datatype Outcome = Completed | Failed(why: Failure)

  /** The chunks handed to the writable, and how the run ended. */
  datatype Decoded = Decoded(outcome: Outcome, written: seq<seq<Byte>>)

  datatype FrameResult = FrameOpened(plaintext: seq<Byte>, mode: Mode) | FrameRejected(why: Failure)

  function ModeAad(m: DownloadMetadata, i: nat, mode: Mode): seq<Byte>
    requires SoundGeometry(m) && i < m.chunkCount
  {
    if mode.LegacyV1? then [] else ChunkAad(PositionOf(m, i))
  }

  function Rejection(r: OpenResult): Failure
    requires !r.Opened?
  {
    if r.ChunkTooSmall? then FrameTooSmall else AuthenticationFailed
  }

  /** decryptFrame: a settled mode is kept; an unknown one is tried as v2 first and, if that fails to authenticate, as legacy. */
  function DecryptFrame(key: AeadKey, frame: seq<Byte>, m: DownloadMetadata, i: nat, mode: Mode): FrameResult
    requires SoundGeometry(m) && i < m.chunkCount
  {
    if mode.AuthenticatedV2? || mode.LegacyV1? then
      match DecryptChunk(key, frame, ModeAad(m, i, mode))
      case Opened(p) => FrameOpened(p, mode)
      case r => FrameRejected(Rejection(r))
    else
      match DecryptChunk(key, frame, ModeAad(m, i, AuthenticatedV2))
      case Opened(p) => FrameOpened(p, AuthenticatedV2)
      case ChunkTooSmall => FrameRejected(FrameTooSmall)
      case AuthenticationFailure =>
        match DecryptChunk(key, frame, ModeAad(m, i, LegacyV1))
        case Opened(p) => FrameOpened(p, LegacyV1)
        case r => FrameRejected(Rejection(r))
  }

  /** The run from chunk i on, with `rest` still to arrive. */
  function DecodeFrom(key: AeadKey, m: DownloadMetadata, i: nat, mode: Mode, rest: seq<Byte>, ending: Ending): Decoded
    requires SoundGeometry(m) && i <= m.chunkCount
    decreases m.chunkCount - i
  {
    if i == m.chunkCount then
      if |rest| > 0 then Decoded(Failed(TrailingData), [])
      else if ending.Broken? then Decoded(Failed(SourceBroken), [])
      else Decoded(Completed, [])
    else
      FramesTile(m, i);
      var n := FrameLength(m, i);
      if |rest| < n then Decoded(Failed(if ending.Broken? then SourceBroken else EndedEarly), [])
      else
        match DecryptFrame(key, rest[..n], m, i, mode)
        case FrameRejected(why) => Decoded(Failed(why), [])
        case FrameOpened(p, mode') =>
          var tail := DecodeFrom(key, m, i + 1, mode', rest[n..], ending);
          Decoded(tail.outcome, [p] + tail.written)
  }

  function Decode(key: AeadKey, m: DownloadMetadata, bytes: seq<Byte>, ending: Ending): Decoded
    requires SoundGeometry(m)
  {
    DecodeFrom(key, m, 0, Unknown, bytes, ending)
  }

  // ------------------------------------------------------------ acceptance

  function FrameAt(m: DownloadMetadata, bytes: seq<Byte>, i: nat): seq<Byte>
    requires SoundGeometry(m) && i < m.chunkCount && FrameStart(i) + FrameLength(m, i) <= |bytes|
  {
    FramesTile(m, i);
    bytes[FrameStart(i)..FrameStart(i) + FrameLength(m, i)]
  }

  ghost predicate FrameArrived(m: DownloadMetadata, bytes: seq<Byte>, i: nat)
    requires SoundGeometry(m) && i < m.chunkCount
  {
    FrameStart(i) + FrameLength(m, i) <= |bytes|
  }

  /** Frame i of `bytes` has arrived and opens under the given mode. */
  ghost predicate OpensAs(key: AeadKey, m: DownloadMetadata, bytes: seq<Byte>, i: nat, mode: Mode)
    requires SoundGeometry(m) && i < m.chunkCount
  {
    FrameArrived(m, bytes, i) && DecryptChunk(key, FrameAt(m, bytes, i), ModeAad(m, i, mode)).Opened?
  }

  /** The mode a stream is read in: v2 if its first frame opens as v2, legacy otherwise. */
  ghost function StreamMode(key: AeadKey, m: DownloadMetadata, bytes: seq<Byte>): Mode
    requires SoundGeometry(m)
  {
    if OpensAs(key, m, bytes, 0, AuthenticatedV2) then AuthenticatedV2 else LegacyV1
  }

  ghost predicate AllOpenFrom(key: AeadKey, m: DownloadMetadata, bytes: seq<Byte>, from: nat, mode: Mode)
    requires SoundGeometry(m)
  {
    forall i :: from <= i < m.chunkCount ==> OpensAs(key, m, bytes, i, mode)
  }

  /** Where frame i starts; the end of the file for i == chunkCount. */
  function StartOf(m: DownloadMetadata, i: nat): nat {
    if i >= m.chunkCount then m.encryptedSize else FrameStart(i)
  }

  /** Frame i of `bytes` has arrived and opens to `plaintext`. */
  ghost predicate FrameYields(key: AeadKey, m: DownloadMetadata, bytes: seq<Byte>, i: nat, mode: Mode, plaintext: seq<Byte>)
    requires SoundGeometry(m) && i < m.chunkCount
  {
    FrameArrived(m, bytes, i) && DecryptChunk(key, FrameAt(m, bytes, i), ModeAad(m, i, mode)) == Opened(plaintext)
  }

  /** `written` lists what the leading frames open to in the given mode. */
  ghost predicate Wrote(key: AeadKey, m: DownloadMetadata, bytes: seq<Byte>, mode: Mode, written: seq<seq<Byte>>)
    requires SoundGeometry(m)
  {
    && |written| <= m.chunkCount
    && forall j :: 0 <= j < |written| ==> FrameYields(key, m, bytes, j, mode, written[j])
  }

  lemma SplitFrame(m: DownloadMetadata, bytes: seq<Byte>, i: nat)
    requires SoundGeometry(m) && i < m.chunkCount && StartOf(m, i) <= |bytes|
    ensures var rest := bytes[StartOf(m, i)..];
            var n := FrameLength(m, i);
            && 0 <= n
            && (FrameArrived(m, bytes, i) <==> n <= |rest|)
            && (n <= |rest| ==> StartOf(m, i + 1) <= |bytes| && rest[..n] == FrameAt(m, bytes, i) && rest[n..] == bytes[StartOf(m, i + 1)..])
  {
    FramesTile(m, i);
  }

  /** From chunk i on in a settled mode: the written list is extended by what the next frames open to. */
  lemma {:induction false} DecodeFromWrites(key: AeadKey, m: DownloadMetadata, i: nat, mode: Mode, bytes: seq<Byte>,
                                            ending: Ending, before: seq<seq<Byte>>)
    requires SoundGeometry(m) && i <= m.chunkCount && !mode.Unknown?
    requires StartOf(m, i) <= |bytes| && |before| == i && Wrote(key, m, bytes, mode, before)
    ensures var d := DecodeFrom(key, m, i, mode, bytes[StartOf(m, i)..], ending);
            && Wrote(key, m, bytes, mode, before + d.written)
            && (d.outcome.Completed? ==> |before + d.written| == m.chunkCount && |bytes| == m.encryptedSize && ending.Done?)
    decreases m.chunkCount - i
  {
    if i == m.chunkCount {
      AppendNothing(before);
    } else {
      SplitFrame(m, bytes, i);
      var rest := bytes[StartOf(m, i)..];
      DecodeStep(key, m, i, mode, rest, ending);
      if FrameArrived(m, bytes, i) {
        var r := DecryptFrame(key, FrameAt(m, bytes, i), m, i, mode);
        if r.FrameOpened? {
          WroteOneMore(key, m, bytes, mode, before, r.plaintext);
          DecodeFromWrites(key, m, i + 1, mode, bytes, ending, before + [r.plaintext]);
          var tail := DecodeFrom(key, m, i + 1, mode, bytes[StartOf(m, i + 1)..], ending);
          AppendShift(before, r.plaintext, tail.written);
        } else {
          AppendNothing(before);
        }
      } else {
        AppendNothing(before);
      }
    }
  }

  /** One step of the decoder. */
  lemma DecodeStep(key: AeadKey, m: DownloadMetadata, i: nat, mode: Mode, rest: seq<Byte>, ending: Ending)
    requires SoundGeometry(m) && i < m.chunkCount
    ensures var d := DecodeFrom(key, m, i, mode, rest, ending);
            var n := FrameLength(m, i);
            && 0 <= n
            && if |rest| < n then d == Decoded(Failed(if ending.Broken? then SourceBroken else EndedEarly), [])
               else
                 match DecryptFrame(key, rest[..n], m, i, mode)
                 case FrameRejected(why) => d == Decoded(Failed(why), [])
                 case FrameOpened(p, mode') =>
                   var tail := DecodeFrom(key, m, i + 1, mode', rest[n..], ending);
                   d == Decoded(tail.outcome, [p] + tail.written)
  {
    FramesTile(m, i);
  }

  lemma WroteOneMore(key: AeadKey, m: DownloadMetadata, bytes: seq<Byte>, mode: Mode, before: seq<seq<Byte>>, p: seq<Byte>)
    requires SoundGeometry(m) && |before| < m.chunkCount && Wrote(key, m, bytes, mode, before)
    requires FrameYields(key, m, bytes, |before|, mode, p)
    ensures Wrote(key, m, bytes, mode, before + [p])
  {
  }

  /** From chunk i on in a settled mode: accepted if every frame opens and nothing follows. */
  lemma {:induction false} DecodeFromAccepts(key: AeadKey, m: DownloadMetadata, i: nat, mode: Mode, bytes: seq<Byte>)
    requires SoundGeometry(m) && i <= m.chunkCount && !mode.Unknown?
    requires |bytes| == m.encryptedSize && AllOpenFrom(key, m, bytes, i, mode)
    ensures StartOf(m, i) <= |bytes|
    ensures DecodeFrom(key, m, i, mode, bytes[StartOf(m, i)..], Done).outcome.Completed?
    decreases m.chunkCount - i
  {
    if i < m.chunkCount {
      assert OpensAs(key, m, bytes, i, mode);
      DecodeFromAccepts(key, m, i + 1, mode, bytes);
      OpenedGoesOn(key, m, i, mode, bytes);
    }
  }

  /** A frame that opens leaves the outcome to what follows it. */
  lemma OpenedGoesOn(key: AeadKey, m: DownloadMetadata, i: nat, mode: Mode, bytes: seq<Byte>)
    requires SoundGeometry(m) && i < m.chunkCount && !mode.Unknown? && OpensAs(key, m, bytes, i, mode)
    requires StartOf(m, i + 1) <= |bytes|
    ensures StartOf(m, i) <= |bytes|
    ensures DecodeFrom(key, m, i, mode, bytes[StartOf(m, i)..], Done).outcome
         == DecodeFrom(key, m, i + 1, mode, bytes[StartOf(m, i + 1)..], Done).outcome
  {
    FramesTile(m, i);
    SplitFrame(m, bytes, i);
    DecodeStep(key, m, i, mode, bytes[StartOf(m, i)..], Done);
  }

  /** Decoding an unsettled stream is decoding it in its own mode. */
  lemma DecodeSettles(key: AeadKey, m: DownloadMetadata, bytes: seq<Byte>, ending: Ending)
    requires SoundGeometry(m) && key.Valid()
    ensures Decode(key, m, bytes, ending) == DecodeFrom(key, m, 0, StreamMode(key, m, bytes), bytes, ending)
  {
    FramesTile(m, 0);
    if FrameLength(m, 0) <= |bytes| {
      assert bytes[..FrameLength(m, 0)] == FrameAt(m, bytes, 0);
    }
  }

  /** Rejected or not, the decoder has written exactly what its leading frames open to, in order, in one mode. */
  lemma DecodeWrites(key: AeadKey, m: DownloadMetadata, bytes: seq<Byte>, ending: Ending)
    requires SoundGeometry(m) && key.Valid()
    ensures var d := Decode(key, m, bytes, ending);
            && Wrote(key, m, bytes, StreamMode(key, m, bytes), d.written)
            && (d.outcome.Completed? ==> |d.written| == m.chunkCount && |bytes| == m.encryptedSize && ending.Done?)
  {
    var mode := StreamMode(key, m, bytes);
    DecodeSettles(key, m, bytes, ending);
    StartAtZero(m, bytes);
    DecodeFromWrites(key, m, 0, mode, bytes, ending, []);
    AppendNothing(Decode(key, m, bytes, ending).written);
  }

  lemma StartAtZero(m: DownloadMetadata, bytes: seq<Byte>)
    requires SoundGeometry(m)
    ensures StartOf(m, 0) == 0 && bytes[StartOf(m, 0)..] == bytes
  {
    ScheduleMeetsExpectedSize(m.plaintextSize);
  }

  /**
   The decoder accepts exactly the byte strings of the announced size, followed by a regular end, all of whose
   frames open in the one mode the first frame settles.
   */
  lemma DecodeAccepts(key: AeadKey, m: DownloadMetadata, bytes: seq<Byte>, ending: Ending)
    requires SoundGeometry(m) && key.Valid()
    ensures Decode(key, m, bytes, ending).outcome.Completed? <==>
              ending.Done? && |bytes| == m.encryptedSize && AllOpenFrom(key, m, bytes, 0, StreamMode(key, m, bytes))
  {
    var mode := StreamMode(key, m, bytes);
    var d := Decode(key, m, bytes, ending);
    DecodeSettles(key, m, bytes, ending);
    DecodeWrites(key, m, bytes, ending);
    if d.outcome.Completed? {
      forall i | 0 <= i < m.chunkCount
        ensures OpensAs(key, m, bytes, i, mode)
      {
        assert FrameYields(key, m, bytes, i, mode, d.written[i]);
      }
    } else if ending.Done? && |bytes| == m.encryptedSize && AllOpenFrom(key, m, bytes, 0, mode) {
      DecodeFromAccepts(key, m, 0, mode, bytes);
      StartAtZero(m, bytes);
    }
  }

  /** A truncated stream writes a prefix of the chunks the whole stream writes. */
  lemma {:induction false} TruncationWritesPrefix(key: AeadKey, m: DownloadMetadata, i: nat, mode: Mode,
                                                  bytes: seq<Byte>, k: nat, ending: Ending, ending': Ending)
    requires SoundGeometry(m) && i <= m.chunkCount && k <= |bytes|
    ensures DecodeFrom(key, m, i, mode, bytes[..k], ending).written <= DecodeFrom(key, m, i, mode, bytes, ending').written
    decreases m.chunkCount - i
  {
    if i < m.chunkCount {
      var n := FrameLength(m, i);
      DecodeStep(key, m, i, mode, bytes[..k], ending);
      DecodeStep(key, m, i, mode, bytes, ending');
      if n <= k {
        SliceOfPrefix(bytes, k, n);
        var r := DecryptFrame(key, bytes[..n], m, i, mode);
        if r.FrameOpened? {
          TruncationWritesPrefix(key, m, i + 1, r.mode, bytes[n..], k - n, ending, ending');
          PrefixCons(r.plaintext,
                     DecodeFrom(key, m, i + 1, r.mode, bytes[n..][..k - n], ending).written,
                     DecodeFrom(key, m, i + 1, r.mode, bytes[n..], ending').written);
        }
      }
    }
  }

  // ------------------------------------------------------ honest uploads

  /** Chunk i of the plaintext. */
  function PlainChunk(m: DownloadMetadata, file: seq<Byte>, i: nat): seq<Byte>
    requires SoundGeometry(m) && |file| == m.plaintextSize && i < m.chunkCount
  {
    FramesTile(m, i);
    file[PlainStart(i)..PlainStart(i) + PlainLength(m, i)]
  }

  /** Chunks i, i+1, ... of the plaintext. */
  function PlainChunksFrom(m: DownloadMetadata, file: seq<Byte>, i: nat): (r: seq<seq<Byte>>)
    requires SoundGeometry(m) && |file| == m.plaintextSize && i <= m.chunkCount
    ensures |r| == m.chunkCount - i && forall j :: 0 <= j < |r| ==> r[j] == PlainChunk(m, file, i + j)
    decreases m.chunkCount - i
  {
    if i == m.chunkCount then [] else [PlainChunk(m, file, i)] + PlainChunksFrom(m, file, i + 1)
  }

  /** All chunks of the plaintext. */
  function PlainChunks(m: DownloadMetadata, file: seq<Byte>): (r: seq<seq<Byte>>)
    requires SoundGeometry(m) && |file| == m.plaintextSize
    ensures |r| == m.chunkCount && forall j :: 0 <= j < |r| ==> r[j] == PlainChunk(m, file, j)
  {
    PlainChunksFrom(m, file, 0)
  }

  lemma {:induction false} ChunksMakeRest(m: DownloadMetadata, file: seq<Byte>, i: nat)
    requires SoundGeometry(m) && |file| == m.plaintextSize && i <= m.chunkCount
    ensures var start := if i == m.chunkCount then |file| else PlainStart(i);
            0 <= start <= |file| && Flatten(PlainChunksFrom(m, file, i)) == file[start..]
    decreases m.chunkCount - i
  {
    if i < m.chunkCount {
      FramesTile(m, i);
      ChunksMakeRest(m, file, i + 1);
      SplitRest(file, PlainStart(i), PlainStart(i) + PlainLength(m, i));
      FlattenCons(PlainChunk(m, file, i), PlainChunksFrom(m, file, i + 1));
    }
  }

  /** The chunks of a file are cut where the format says and make up the file. */
  lemma ChunksMakeFile(m: DownloadMetadata, file: seq<Byte>)
    requires SoundGeometry(m) && |file| == m.plaintextSize
    ensures Flatten(PlainChunks(m, file)) == file
  {
    ChunksMakeRest(m, file, 0);
    assert file[0..] == file;
  }

  /** Frame i was sealed from chunk i of the file under the additional data of the mode. */
  ghost predicate HonestFrame(key: AeadKey, m: DownloadMetadata, file: seq<Byte>, mode: Mode, frame: seq<Byte>, i: nat)
    requires SoundGeometry(m) && |file| == m.plaintextSize && i < m.chunkCount
  {
    DecryptChunk(key, frame, ModeAad(m, i, mode)) == Opened(PlainChunk(m, file, i))
  }

  /** The frames of a whole upload. */
  ghost predicate IsUpload(key: AeadKey, m: DownloadMetadata, file: seq<Byte>, mode: Mode, frames: seq<seq<Byte>>)
    requires SoundGeometry(m) && |file| == m.plaintextSize
  {
    && |frames| == m.chunkCount
    && forall i :: 0 <= i < m.chunkCount ==> HonestFrame(key, m, file, mode, frames[i], i)
  }

  lemma {:induction false} DecodeUploadFrom(key: AeadKey, m: DownloadMetadata, file: seq<Byte>, mode: Mode,
                                            frames: seq<seq<Byte>>, i: nat)
    requires SoundGeometry(m) && |file| == m.plaintextSize && key.Valid()
    requires !mode.Unknown? && IsUpload(key, m, file, mode, frames) && i <= m.chunkCount
    ensures DecodeFrom(key, m, i, mode, Flatten(frames[i..]), Done) == Decoded(Completed, PlainChunksFrom(m, file, i))
    decreases m.chunkCount - i
  {
    if i < m.chunkCount {
      DecodeUploadFrom(key, m, file, mode, frames, i + 1);
      HonestFrameFirst(key, m, file, mode, frames, i);
    }
  }

  /** The bytes from frame i on begin with frame i, which has the length the decoder waits for. */
  lemma HonestFrameFirst(key: AeadKey, m: DownloadMetadata, file: seq<Byte>, mode: Mode, frames: seq<seq<Byte>>, i: nat)
    requires SoundGeometry(m) && |file| == m.plaintextSize && key.Valid()
    requires IsUpload(key, m, file, mode, frames) && i < m.chunkCount
    ensures var n := FrameLength(m, i);
            var rest := Flatten(frames[i..]);
            0 <= n <= |rest| && rest[..n] == frames[i] && rest[n..] == Flatten(frames[i + 1..])
  {
    assert HonestFrame(key, m, file, mode, frames[i], i);
    OpenedLength(key, frames[i], ModeAad(m, i, mode));
    FramesTile(m, i);
    assert frames[i..][1..] == frames[i + 1..];
  }

  /** A legacy upload can be told from a v2 one: its first frame was not also sealed as a v2 frame. */
  ghost predicate ModeVisible(key: AeadKey, m: DownloadMetadata, mode: Mode, frames: seq<seq<Byte>>)
    requires SoundGeometry(m) && |frames| == m.chunkCount
  {
    ScheduleMeetsExpectedSize(m.plaintextSize);
    mode.LegacyV1? ==> !DecryptChunk(key, frames[0], ModeAad(m, 0, AuthenticatedV2)).Opened?
  }

  /** Round trip: the frames of an upload decode to the file, chunk by chunk, whichever the mode. */
  lemma RoundTrip(key: AeadKey, m: DownloadMetadata, file: seq<Byte>, mode: Mode, frames: seq<seq<Byte>>)
    requires SoundGeometry(m) && |file| == m.plaintextSize && key.Valid()
    requires !mode.Unknown? && IsUpload(key, m, file, mode, frames) && ModeVisible(key, m, mode, frames)
    ensures Decode(key, m, Flatten(frames), Done) == Decoded(Completed, PlainChunks(m, file))
    ensures Flatten(Decode(key, m, Flatten(frames), Done).written) == file
  {
    ScheduleMeetsExpectedSize(m.plaintextSize);
    assert frames[0..] == frames;
    DecodeUploadFrom(key, m, file, mode, frames, 0);
    HonestFrameFirst(key, m, file, mode, frames, 0);
    assert HonestFrame(key, m, file, mode, frames[0], 0);
    ChunksMakeFile(m, file);
  }

  /** Any truncation of an upload leaves leading chunks of the file written, never part of a chunk. */
  lemma TruncatedUpload(key: AeadKey, m: DownloadMetadata, file: seq<Byte>, mode: Mode, frames: seq<seq<Byte>>, k: nat, ending: Ending)
    requires SoundGeometry(m) && |file| == m.plaintextSize && key.Valid()
    requires !mode.Unknown? && IsUpload(key, m, file, mode, frames) && ModeVisible(key, m, mode, frames)
    requires k < |Flatten(frames)|
    ensures var d := Decode(key, m, Flatten(frames)[..k], ending);
            d.outcome.Failed? && d.written <= PlainChunks(m, file)
  {
    var bytes := Flatten(frames);
    RoundTrip(key, m, file, mode, frames);
    TruncationWritesPrefix(key, m, 0, Unknown, bytes, k, ending, Done);
    DecodeAccepts(key, m, bytes[..k], ending);
    DecodeAccepts(key, m, bytes, Done);
  }

  // ------------------------------------------------------ position binding

  /**
   Everything sealed under the key came from some chunk of this one file, under that chunk's additional data.
   A chunk may have been sealed more than once.
   */
  ghost predicate OnlySeals(key: AeadKey, m: DownloadMetadata, file: seq<Byte>)
    requires SoundGeometry(m) && |file| == m.plaintextSize
  {
    forall s :: s in key.log ==>
      exists i :: 0 <= i < m.chunkCount && s.aad == ChunkAad(PositionOf(m, i)) && key.log[s] == PlainChunk(m, file, i)
  }

  /** A frame that opens at position i under a v2 key is chunk i, whatever bytes were sent. */
  lemma OpensOnlyInPlace(key: AeadKey, m: DownloadMetadata, file: seq<Byte>, frame: seq<Byte>, i: nat, mode: Mode)
    requires SoundGeometry(m) && |file| == m.plaintextSize && OnlySeals(key, m, file) && i < m.chunkCount
    ensures var r := DecryptChunk(key, frame, ModeAad(m, i, mode));
            r.Opened? ==> !mode.LegacyV1? && r.plaintext == PlainChunk(m, file, i)
  {
    var aad := ModeAad(m, i, mode);
    var r := DecryptChunk(key, frame, aad);
    if r.Opened? {
      var s := Sealed(frame[..FILE_IV_LENGTH], aad, frame[FILE_IV_LENGTH..]);
      var j :| 0 <= j < m.chunkCount && s.aad == ChunkAad(PositionOf(m, j)) && key.log[s] == PlainChunk(m, file, j);
      AadBindsPosition(m, i, m, j);
    }
  }

  lemma WrittenInPlace(key: AeadKey, m: DownloadMetadata, file: seq<Byte>, bytes: seq<Byte>, mode: Mode, written: seq<seq<Byte>>, j: nat)
    requires SoundGeometry(m) && |file| == m.plaintextSize && OnlySeals(key, m, file)
    requires Wrote(key, m, bytes, mode, written) && j < |written|
    ensures written[j] == PlainChunk(m, file, j)
  {
    assert FrameYields(key, m, bytes, j, mode, written[j]);
    OpensOnlyInPlace(key, m, file, FrameAt(m, bytes, j), j, mode);
  }

  lemma PrefixOfChunks(m: DownloadMetadata, file: seq<Byte>, written: seq<seq<Byte>>)
    requires SoundGeometry(m) && |file| == m.plaintextSize && |written| <= m.chunkCount
    requires forall j :: 0 <= j < |written| ==> written[j] == PlainChunk(m, file, j)
    ensures written <= PlainChunks(m, file)
    ensures |written| == m.chunkCount ==> Flatten(written) == file
  {
    PrefixByIndex(written, PlainChunks(m, file));
    ChunksMakeFile(m, file);
  }

  /**
   Position binding: under a key that only sealed the v2 chunks of one file, no byte string at all can make the
   decoder write anything but leading chunks of that file, and what it accepts decodes to exactly the file.
   */
  lemma PositionBinding(key: AeadKey, m: DownloadMetadata, file: seq<Byte>, bytes: seq<Byte>, ending: Ending)
    requires SoundGeometry(m) && |file| == m.plaintextSize && key.Valid() && OnlySeals(key, m, file)
    ensures var d := Decode(key, m, bytes, ending);
            && d.written <= PlainChunks(m, file)
            && (d.outcome.Completed? ==> Flatten(d.written) == file)
  {
    var written := Decode(key, m, bytes, ending).written;
    DecodeWrites(key, m, bytes, ending);
    forall j | 0 <= j < |written|
      ensures written[j] == PlainChunk(m, file, j)
    {
      WrittenInPlace(key, m, file, bytes, StreamMode(key, m, bytes), written, j);
    }
    PrefixOfChunks(m, file, written);
  }

  /** Each chunk was sealed once: whatever was sealed for position i is frame i of the upload. */
  ghost predicate SealedOnce(key: AeadKey, m: DownloadMetadata, frames: seq<seq<Byte>>)
    requires SoundGeometry(m) && |frames| == m.chunkCount
  {
    forall s :: s in key.log ==>
      exists i :: 0 <= i < m.chunkCount && s.aad == ChunkAad(PositionOf(m, i)) && s.iv + s.ciphertext == frames[i]
  }

  lemma OpensOnlyAsSealed(key: AeadKey, m: DownloadMetadata, frames: seq<seq<Byte>>, frame: seq<Byte>, i: nat, mode: Mode)
    requires SoundGeometry(m) && |frames| == m.chunkCount && SealedOnce(key, m, frames) && i < m.chunkCount
    ensures DecryptChunk(key, frame, ModeAad(m, i, mode)).Opened? ==> frame == frames[i]
  {
    var aad := ModeAad(m, i, mode);
    if DecryptChunk(key, frame, aad).Opened? {
      var s := Sealed(frame[..FILE_IV_LENGTH], aad, frame[FILE_IV_LENGTH..]);
      var j :| 0 <= j < m.chunkCount && s.aad == ChunkAad(PositionOf(m, j)) && s.iv + s.ciphertext == frames[j];
      AadBindsPosition(m, i, m, j);
      assert frame == s.iv + s.ciphertext;
    }
  }

  lemma {:induction false} AcceptsOnlyFrom(key: AeadKey, m: DownloadMetadata, frames: seq<seq<Byte>>, i: nat, mode: Mode, rest: seq<Byte>)
    requires SoundGeometry(m) && |frames| == m.chunkCount && SealedOnce(key, m, frames) && i <= m.chunkCount
    ensures DecodeFrom(key, m, i, mode, rest, Done).outcome.Completed? ==> rest == Flatten(frames[i..])
    decreases m.chunkCount - i
  {
    if i < m.chunkCount {
      FramesTile(m, i);
      var n := FrameLength(m, i);
      if n <= |rest| {
        var r := DecryptFrame(key, rest[..n], m, i, mode);
        OpensOnlyAsSealed(key, m, frames, rest[..n], i, AuthenticatedV2);
        OpensOnlyAsSealed(key, m, frames, rest[..n], i, LegacyV1);
        if r.FrameOpened? {
          AcceptsOnlyFrom(key, m, frames, i + 1, r.mode, rest[n..]);
          assert frames[i..][1..] == frames[i + 1..];
        }
      }
    }
  }

  /** Sealed once, exactly one byte string is accepted: the upload itself. No repeat, swap or drop survives. */
  lemma AcceptsOnlyTheUpload(key: AeadKey, m: DownloadMetadata, file: seq<Byte>, frames: seq<seq<Byte>>, bytes: seq<Byte>)
    requires SoundGeometry(m) && |file| == m.plaintextSize && key.Valid()
    requires IsUpload(key, m, file, AuthenticatedV2, frames) && SealedOnce(key, m, frames)
    ensures Decode(key, m, bytes, Done).outcome.Completed? <==> bytes == Flatten(frames)
  {
    RoundTrip(key, m, file, AuthenticatedV2, frames);
    AcceptsOnlyFrom(key, m, frames, 0, Unknown, bytes);
    assert frames[0..] == frames;
  }

  // ------------------------------------------------------------ legacy

  /** Frame i of `bytes` is some box sealed without additional data. */
  ghost predicate LegacyBox(key: AeadKey, m: DownloadMetadata, bytes: seq<Byte>, i: nat)
    requires SoundGeometry(m) && i < m.chunkCount
  {
    && FrameArrived(m, bytes, i)
    && var frame := FrameAt(m, bytes, i);
       |frame| > FILE_ENCRYPTION_OVERHEAD && Sealed(frame[..FILE_IV_LENGTH], [], frame[FILE_IV_LENGTH..]) in key.log
  }

  /** A legacy key does not bind positions: any arrangement of sealed boxes of the right sizes is accepted. */
  lemma LegacyAcceptsAnyArrangement(key: AeadKey, m: DownloadMetadata, bytes: seq<Byte>)
    requires SoundGeometry(m) && key.Valid()
    requires forall s :: s in key.log ==> s.aad == []
    ensures Decode(key, m, bytes, Done).outcome.Completed? <==>
              |bytes| == m.encryptedSize && forall i :: 0 <= i < m.chunkCount ==> LegacyBox(key, m, bytes, i)
  {
    DecodeAccepts(key, m, bytes, Done);
    ScheduleMeetsExpectedSize(m.plaintextSize);
    assert !OpensAs(key, m, bytes, 0, AuthenticatedV2);
    forall i | 0 <= i < m.chunkCount
      ensures OpensAs(key, m, bytes, i, LegacyV1) <==> LegacyBox(key, m, bytes, i)
    {
      FramesTile(m, i);
    }
  }
}
