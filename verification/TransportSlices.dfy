/** How the page cuts decrypted chunks before they cross to the service worker. */
module TransportSlices {
  import opened Sequences
  import opened Bytes
  import opened FileFormat
  import opened Aead
  import opened StreamDecoder
  import opened StreamDecryptor

  const TRANSPORT_CHUNK_SIZE: nat := 4 * 1024 * 1024

  /** The slices of one write, from an offset on. */
  function SlicesFrom(data: seq<Byte>, offset: nat): seq<seq<Byte>>
    decreases |data| - offset
  {
    if offset >= |data| then []
    else if offset + TRANSPORT_CHUNK_SIZE >= |data| then [data[offset..]]
    else [data[offset..offset + TRANSPORT_CHUNK_SIZE]] + SlicesFrom(data, offset + TRANSPORT_CHUNK_SIZE)
  }

  /** Slices are non-empty, at most 4 MiB, full except for the last one, and make up the data again. */
  lemma {:induction false} SlicesMakeData(data: seq<Byte>, offset: nat)
    requires offset <= |data|
    ensures Flatten(SlicesFrom(data, offset)) == data[offset..]
    ensures forall s :: s in SlicesFrom(data, offset) ==> 0 < |s| <= TRANSPORT_CHUNK_SIZE
    ensures forall i :: 0 <= i < |SlicesFrom(data, offset)| - 1 ==> |SlicesFrom(data, offset)[i]| == TRANSPORT_CHUNK_SIZE
    decreases |data| - offset
  {
    if offset + TRANSPORT_CHUNK_SIZE < |data| {
      SlicesMakeData(data, offset + TRANSPORT_CHUNK_SIZE);
      FlattenCons(data[offset..offset + TRANSPORT_CHUNK_SIZE], SlicesFrom(data, offset + TRANSPORT_CHUNK_SIZE));
      SplitRest(data, offset, offset + TRANSPORT_CHUNK_SIZE);
    } else if offset < |data| {
      FlattenCons(data[offset..], []);
      AppendNothing(data[offset..]);
    }
  }

  /**
   The `write` of the destination. `live` passes while the destination is neither terminal nor aborted; without an
   abort or a failing writer the slices arrive all, in order, and otherwise leading ones do.
   */
  method WriteSlices(data: seq<Byte>, writer: SequentialWritable, live: AbortSignal) returns (ok: bool)
    modifies writer, live
    ensures live.Armed() == old(live.Armed()) && writer.MayFail() == old(writer.MayFail())
    ensures ok ==> writer.written == old(writer.written) + SlicesFrom(data, 0)
    ensures !ok ==> old(live.Armed()) || old(writer.MayFail())
    ensures !ok ==> exists n :: 0 <= n <= |SlicesFrom(data, 0)| && writer.written == old(writer.written) + SlicesFrom(data, 0)[..n]
  {
    ghost var all := SlicesFrom(data, 0);
    ghost var n := 0;
    var aborted := live.Check();
    if aborted {
      AppendNothing(writer.written);
      assert writer.written == old(writer.written) + all[..0];
      return false;
    }
    var offset := 0;
    AppendNothing(writer.written);
    while offset < |data|
      invariant live.Armed() == old(live.Armed()) && writer.MayFail() == old(writer.MayFail())
      invariant n <= |all| && writer.written == old(writer.written) + all[..n]
      invariant all[n..] == SlicesFrom(data, offset)
      decreases |data| - offset
    {
      aborted := live.Check();
      if aborted {
        return false;
      }
      var end := if offset + TRANSPORT_CHUNK_SIZE < |data| then offset + TRANSPORT_CHUNK_SIZE else |data|;
      ok := writer.Write(data[offset..end]);
      if !ok {
        return false;
      }
      NextSlice(all, n, data, offset, old(writer.written));
      n := n + 1;
      offset := offset + TRANSPORT_CHUNK_SIZE;
    }
    assert all[..n] == all;
    ok := true;
  }

  lemma NextSlice(all: seq<seq<Byte>>, n: nat, data: seq<Byte>, offset: nat, before: seq<seq<Byte>>)
    requires n <= |all| && offset < |data| && all[n..] == SlicesFrom(data, offset)
    ensures n < |all|
    ensures var end := if offset + TRANSPORT_CHUNK_SIZE < |data| then offset + TRANSPORT_CHUNK_SIZE else |data|;
            before + all[..n] + [data[offset..end]] == before + all[..n + 1]
    ensures all[n + 1..] == SlicesFrom(data, offset + TRANSPORT_CHUNK_SIZE)
  {
    assert all[n] == all[n..][0];
    assert all[n + 1..] == all[n..][1..];
    var next := offset + TRANSPORT_CHUNK_SIZE;
    if next < |data| {
      assert all[n..] == [data[offset..next]] + SlicesFrom(data, next);
    } else {
      assert all[n..] == [data[offset..]] && data[offset..] == data[offset..|data|];
    }
    assert all[..n + 1] == all[..n] + [all[n]];
    ConcatAssociates(before, all[..n], [all[n]]);
  }

  /** What crosses to the worker for a list of writes. */
  function Transported(written: seq<seq<Byte>>): seq<seq<Byte>> {
    if written == [] then [] else SlicesFrom(written[0], 0) + Transported(written[1..])
  }

  lemma {:induction false} TransportKeepsBytes(written: seq<seq<Byte>>)
    ensures Flatten(Transported(written)) == Flatten(written)
  {
    if written != [] {
      SlicesMakeData(written[0], 0);
      TransportKeepsBytes(written[1..]);
      FlattenAppend(SlicesFrom(written[0], 0), Transported(written[1..]));
      assert written[0][0..] == written[0];
    }
  }

  // ------------------------------------------------------ announced length

  lemma {:induction false} WrittenLength(m: DownloadMetadata, written: seq<seq<Byte>>, n: nat)
    requires SoundGeometry(m) && n <= |written| <= m.chunkCount
    requires forall j :: 0 <= j < |written| ==> |written[j]| == PlainLength(m, j)
    ensures |Flatten(written[..n])| == if n == m.chunkCount then m.plaintextSize else PlainStart(n)
  {
    if n > 0 {
      WrittenLength(m, written, n - 1);
      FramesTile(m, n - 1);
      assert written[..n] == written[..n - 1] + [written[n - 1]];
      FlattenSnoc(written[..n - 1], written[n - 1]);
    }
  }

  lemma WrittenPlainLengths(key: AeadKey, m: DownloadMetadata, bytes: seq<Byte>, ending: Ending, j: nat)
    requires SoundGeometry(m) && key.Valid() && j < |Decode(key, m, bytes, ending).written|
    ensures j < m.chunkCount && |Decode(key, m, bytes, ending).written[j]| == PlainLength(m, j)
  {
    var written := Decode(key, m, bytes, ending).written;
    var mode := StreamMode(key, m, bytes);
    DecodeWrites(key, m, bytes, ending);
    assert FrameYields(key, m, bytes, j, mode, written[j]);
    FramesTile(m, j);
    SplitFrame(m, bytes, j);
    OpenedLength(key, FrameAt(m, bytes, j), ModeAad(m, j, mode));
  }

  /** Whatever was written so far fits into the announced size. */
  lemma WrittenFits(key: AeadKey, m: DownloadMetadata, bytes: seq<Byte>, ending: Ending)
    requires SoundGeometry(m) && key.Valid()
    ensures var written := Decode(key, m, bytes, ending).written;
            |written| <= m.chunkCount && |Flatten(written)| == if |written| == m.chunkCount then m.plaintextSize else PlainStart(|written|)
    ensures |Flatten(Decode(key, m, bytes, ending).written)| <= m.plaintextSize
  {
    var written := Decode(key, m, bytes, ending).written;
    forall j | 0 <= j < |written|
      ensures j < m.chunkCount && |written[j]| == PlainLength(m, j)
    {
      WrittenPlainLengths(key, m, bytes, ending, j);
    }
    if written != [] {
      FramesTile(m, |written| - 1);
    }
    WrittenLength(m, written, |written|);
    assert written[..|written|] == written;
  }

  /** A download that the decoder completed has sent exactly the announced plaintext size to the worker. */
  lemma CompletedSendsPlaintextSize(key: AeadKey, m: DownloadMetadata, bytes: seq<Byte>, ending: Ending)
    requires SoundGeometry(m) && key.Valid() && Decode(key, m, bytes, ending).outcome.Completed?
    ensures |Flatten(Transported(Decode(key, m, bytes, ending).written))| == m.plaintextSize
  {
    DecodeWrites(key, m, bytes, ending);
    WrittenFits(key, m, bytes, ending);
    TransportKeepsBytes(Decode(key, m, bytes, ending).written);
  }
}
