/** The upload loop that cuts a file into chunks and seals each one, and the way from there back through a download. */
module FileEncryptor {
  import opened Sequences
  import opened Bytes
  import opened FileFormat
  import opened Aead
  import opened StreamDecoder
  import opened StreamDecryptor

  /** What the browser draws and computes for one chunk: a random iv and the cipher's output. */
  datatype Draw = Draw(iv: seq<Byte>, ciphertext: seq<Byte>)

  /** Draws of the right lengths with distinct ivs, as 96 random bits give them. */
  ghost predicate GoodDraws(m: DownloadMetadata, draws: seq<Draw>)
    requires SoundGeometry(m)
  {
    && |draws| == m.chunkCount
    && (forall i :: 0 <= i < m.chunkCount ==>
          |draws[i].iv| == FILE_IV_LENGTH && |draws[i].ciphertext| == PlainLength(m, i) + FILE_GCM_TAG_LENGTH)
    && forall i, j :: 0 <= i < j < m.chunkCount ==> draws[i].iv != draws[j].iv
  }

  /** The box chunk j is sealed into. */
  function SealAt(m: DownloadMetadata, mode: Mode, draws: seq<Draw>, j: nat): Sealed
    requires SoundGeometry(m) && j < m.chunkCount && j < |draws|
  {
    Sealed(draws[j].iv, ModeAad(m, j, mode), draws[j].ciphertext)
  }

  /** What the loop seals, round by round. */
  function Seals(m: DownloadMetadata, file: seq<Byte>, mode: Mode, draws: seq<Draw>): (r: seq<(Sealed, seq<Byte>)>)
    requires SoundGeometry(m) && |file| == m.plaintextSize && |draws| == m.chunkCount
    ensures |r| == m.chunkCount
    ensures forall j :: 0 <= j < m.chunkCount ==> r[j] == (SealAt(m, mode, draws, j), PlainChunk(m, file, j))
  {
    seq(m.chunkCount, j requires 0 <= j < m.chunkCount => (SealAt(m, mode, draws, j), PlainChunk(m, file, j)))
  }

  /** The key after the whole loop. */
  function KeyAfter(m: DownloadMetadata, file: seq<Byte>, mode: Mode, draws: seq<Draw>): AeadKey
    requires SoundGeometry(m) && |file| == m.plaintextSize && |draws| == m.chunkCount
  {
    AeadKey(Assigned(Seals(m, file, mode, draws)))
  }

  lemma NextIvUnused(m: DownloadMetadata, file: seq<Byte>, mode: Mode, draws: seq<Draw>, n: nat)
    requires SoundGeometry(m) && |file| == m.plaintextSize && GoodDraws(m, draws) && n < m.chunkCount
    ensures var key: AeadKey := AeadKey(Assigned(Seals(m, file, mode, draws)[..n]));
            key.Unused(draws[n].iv)
  {
    var seals := Seals(m, file, mode, draws);
    forall s: Sealed | s in Assigned(seals[..n])
      ensures s.iv != draws[n].iv
    {
      var j := AssignedFrom(seals[..n], s);
      assert seals[j].0 == SealAt(m, mode, draws, j);
    }
  }

  function FrameOf(d: Draw): seq<Byte> {
    d.iv + d.ciphertext
  }

  /** `frames` are the frames of the first |frames| rounds. */
  ghost predicate FramesOf(draws: seq<Draw>, frames: seq<seq<Byte>>) {
    |frames| <= |draws| && forall j :: 0 <= j < |frames| ==> frames[j] == FrameOf(draws[j])
  }

  /** Each sealed chunk stays in the log: distinct ivs keep the boxes apart. */
  lemma SealKept(m: DownloadMetadata, file: seq<Byte>, mode: Mode, draws: seq<Draw>, j: nat)
    requires SoundGeometry(m) && |file| == m.plaintextSize && GoodDraws(m, draws) && j < m.chunkCount
    ensures var log := KeyAfter(m, file, mode, draws).log;
            SealAt(m, mode, draws, j) in log && log[SealAt(m, mode, draws, j)] == PlainChunk(m, file, j)
  {
    var seals := Seals(m, file, mode, draws);
    forall k | j < k < |seals|
      ensures seals[k].0 != seals[j].0
    {
      assert draws[j].iv != draws[k].iv;
    }
    AssignedKeeps(seals, j);
  }

  lemma FramesAreUpload(m: DownloadMetadata, file: seq<Byte>, mode: Mode, draws: seq<Draw>, frames: seq<seq<Byte>>)
    requires SoundGeometry(m) && |file| == m.plaintextSize && GoodDraws(m, draws)
    requires FramesOf(draws, frames) && |frames| == m.chunkCount
    ensures IsUpload(KeyAfter(m, file, mode, draws), m, file, mode, frames)
  {
    var key := KeyAfter(m, file, mode, draws);
    forall j | 0 <= j < m.chunkCount
      ensures HonestFrame(key, m, file, mode, frames[j], j)
    {
      FramesTile(m, j);
      SplitFrameOf(draws[j]);
      SealKept(m, file, mode, draws, j);
    }
  }

  lemma V2LogBindsFile(m: DownloadMetadata, file: seq<Byte>, draws: seq<Draw>, frames: seq<seq<Byte>>)
    requires SoundGeometry(m) && |file| == m.plaintextSize && GoodDraws(m, draws)
    requires FramesOf(draws, frames) && |frames| == m.chunkCount
    ensures var key := KeyAfter(m, file, AuthenticatedV2, draws);
            OnlySeals(key, m, file) && SealedOnce(key, m, frames)
  {
    var key := KeyAfter(m, file, AuthenticatedV2, draws);
    forall s | s in key.log
      ensures exists i :: 0 <= i < m.chunkCount && s.aad == ChunkAad(PositionOf(m, i)) && key.log[s] == PlainChunk(m, file, i)
      ensures exists i :: 0 <= i < m.chunkCount && s.aad == ChunkAad(PositionOf(m, i)) && s.iv + s.ciphertext == frames[i]
    {
      var j := AssignedFrom(Seals(m, file, AuthenticatedV2, draws), s);
      assert frames[j] == FrameOf(draws[j]);
    }
  }

  lemma LegacyLogIsVisible(m: DownloadMetadata, file: seq<Byte>, draws: seq<Draw>, frames: seq<seq<Byte>>)
    requires SoundGeometry(m) && |file| == m.plaintextSize && GoodDraws(m, draws) && |frames| == m.chunkCount
    ensures ModeVisible(KeyAfter(m, file, LegacyV1, draws), m, LegacyV1, frames)
  {
    ScheduleMeetsExpectedSize(m.plaintextSize);
    forall s: Sealed | s in Assigned(Seals(m, file, LegacyV1, draws))
      ensures s.aad == []
    {
      var j := AssignedFrom(Seals(m, file, LegacyV1, draws), s);
    }
    assert |ModeAad(m, 0, AuthenticatedV2)| == AAD_LENGTH;
  }

  lemma UploadComplete(m: DownloadMetadata, file: seq<Byte>, mode: Mode, draws: seq<Draw>, frames: seq<seq<Byte>>)
    requires SoundGeometry(m) && |file| == m.plaintextSize && GoodDraws(m, draws) && !mode.Unknown?
    requires FramesOf(draws, frames) && |frames| == m.chunkCount
    ensures var key := KeyAfter(m, file, mode, draws);
            && IsUpload(key, m, file, mode, frames) && ModeVisible(key, m, mode, frames)
            && (mode.AuthenticatedV2? ==> OnlySeals(key, m, file) && SealedOnce(key, m, frames))
  {
    FramesAreUpload(m, file, mode, draws, frames);
    if mode.AuthenticatedV2? {
      V2LogBindsFile(m, file, draws, frames);
    } else {
      LegacyLogIsVisible(m, file, draws, frames);
    }
  }

  lemma FramesOfMore(draws: seq<Draw>, frames: seq<seq<Byte>>)
    requires FramesOf(draws, frames) && |frames| < |draws|
    ensures FramesOf(draws, frames + [FrameOf(draws[|frames|])])
  {
  }

  /** Blob.slice: both ends are clamped to the size. */
  function Slice(file: seq<Byte>, start: nat, end: nat): seq<Byte> {
    var size := |file|;
    var from := if start < size then start else size;
    var to := if end < size then end else size;
    if from <= to then file[from..to] else []
  }

  lemma SliceIsPlainChunk(m: DownloadMetadata, file: seq<Byte>, i: nat)
    requires SoundGeometry(m) && |file| == m.plaintextSize && i < m.chunkCount
    ensures Slice(file, i * FILE_CHUNK_SIZE, i * FILE_CHUNK_SIZE + FILE_CHUNK_SIZE) == PlainChunk(m, file, i)
    ensures 1 <= |PlainChunk(m, file, i)| == PlainLength(m, i)
  {
    FramesTile(m, i);
  }

  lemma SplitFrameOf(d: Draw)
    requires |d.iv| == FILE_IV_LENGTH
    ensures FrameOf(d)[..FILE_IV_LENGTH] == d.iv && FrameOf(d)[FILE_IV_LENGTH..] == d.ciphertext
  {
  }

  /**
   The upload loop of UploadFormPanel under a newly generated key. Current uploads are v2; legacy ones were sealed
   without additional data.
   */
  method EncryptFile(file: seq<Byte>, m: DownloadMetadata, mode: Mode, draws: seq<Draw>)
    returns (frames: seq<seq<Byte>>, key: AeadKey)
    requires SoundGeometry(m) && |file| == m.plaintextSize && GoodDraws(m, draws) && !mode.Unknown?
    ensures key.Valid() && IsUpload(key, m, file, mode, frames) && ModeVisible(key, m, mode, frames)
    ensures mode.AuthenticatedV2? ==> OnlySeals(key, m, file) && SealedOnce(key, m, frames)
  {
    key := AeadKey(map[]);
    frames := [];
    ghost var seals := Seals(m, file, mode, draws);
    var i := 0;
    while i < m.chunkCount
      invariant i == |frames| <= m.chunkCount && FramesOf(draws, frames)
      invariant key.Valid() && key.log == Assigned(seals[..i])
    {
      var buf := Slice(file, i * FILE_CHUNK_SIZE, i * FILE_CHUNK_SIZE + FILE_CHUNK_SIZE);
      SliceIsPlainChunk(m, file, i);
      var aad := ModeAad(m, i, mode);
      NextIvUnused(m, file, mode, draws, i);
      AssignedMore(seals, i);
      var encrypted, key' := EncryptChunk(key, buf, aad, draws[i].iv, draws[i].ciphertext);
      FramesOfMore(draws, frames);
      frames := frames + [encrypted[..]];
      key := key';
      i := i + 1;
    }
    assert seals[..i] == seals;
    UploadComplete(m, file, mode, draws, frames);
  }

  /** End to end: whatever way the stored frames are cut by the network, the download writes exactly the file. */
  method UploadThenDownload(file: seq<Byte>, m: DownloadMetadata, mode: Mode, draws: seq<Draw>, reader: NetworkReader)
    returns (frames: seq<seq<Byte>>, outcome: Outcome, written: seq<Byte>)
    requires SoundGeometry(m) && |file| == m.plaintextSize && GoodDraws(m, draws) && !mode.Unknown?
    modifies reader
    ensures Flatten(old(reader.chunks)) == Flatten(frames) && old(reader.ending).Done? ==> outcome.Completed? && written == file
    ensures mode.AuthenticatedV2? && Flatten(old(reader.chunks)) != Flatten(frames) ==> outcome.Failed?
    ensures mode.AuthenticatedV2? ==> written <= file
  {
    var key: AeadKey;
    frames, key := EncryptFile(file, m, mode, draws);
    var never := new AbortSignal(-1);
    var writable := new SequentialWritable(-1);
    ghost var bytes := Flatten(reader.chunks);
    ghost var ending := reader.ending;
    outcome := StreamDecryptToFile(reader, writable, key, m, never);
    assert writable.written == [] + Decode(key, m, bytes, ending).written;
    assert writable.written == Decode(key, m, bytes, ending).written;
    written := Flatten(writable.written);
    RoundTrip(key, m, file, mode, frames);
    if mode.AuthenticatedV2? {
      PositionBinding(key, m, file, bytes, ending);
      AcceptsOnlyTheUpload(key, m, file, frames, bytes);
      DecodeAccepts(key, m, bytes, ending);
      DecodeAccepts(key, m, bytes, Done);
      FlattenPrefix(writable.written, PlainChunks(m, file));
      ChunksMakeFile(m, file);
    }
  }

  lemma FlattenPrefix(a: seq<seq<Byte>>, b: seq<seq<Byte>>)
    requires a <= b
    ensures Flatten(a) <= Flatten(b)
  {
    assert b == a + b[|a|..];
    FlattenAppend(a, b[|a|..]);
  }
}
