/** Runs that show why the metadata of an upload does not always mean that its multipart upload is open. */
module UploadWitnesses {
  import opened FileFormat
  import opened UploadProtocol
  import opened UploadSafety
  import opened UploadGuarantees

  /** One user, who uploads one file of one byte. */
  const CONFIG: Config := Config(1, {0}, {})
  const IDS: FreshIds := FreshIds(0, 0, 0)
  const META: UploadMeta := UploadMeta(1, 0, 1, 0, 0, [], 0, 0)
  const FULL: UploadMeta := UploadMeta(1, 1, 1, 0, 0, [1], 0, 0)
  const STORED: Multipart := Multipart(0, 0, map[1 := Part(ScheduledChunkSize(1, 1, 0), 0)])

  function AllAcked(): S3Id -> Call {
    (x: S3Id) => Acked
  }

  const INIT: Event := InitEvent(0, 1, 1, true, true, IDS, Acked, [], AllAcked(), Acked)
  const BEGIN_CHUNK: Event := BeginChunkEvent(0, 0, 0, ScheduledChunkSize(1, 1, 0), 0)
  const FINISH_CHUNK: Event := FinishChunkEvent(0, Acked, Acked)
  const START_FINALIZE: Event := StartFinalizeEvent(0, 0, 1, true, 0)
  const COMPLETE: Event := CompleteEvent(0, Acked, Acked)
  const CANCEL: Event := CancelEvent(0, 0, Unheard)

  const INITIALIZED: State := INITIAL.(
    metas := map[(0, 0) := MetaEntry(META, UPLOAD_META_TTL)],
    active := map[0 := ActiveSet({0}, UPLOAD_META_TTL)],
    index := map[0 := StorageIndex(0, 0, UPLOAD_META_TTL)],
    open := map[0 := Multipart(0, 0, map[])],
    uploads := map[0 := Upload(0, 0, 0, 1)])
  const CHUNKING: State := INITIALIZED.(chunking := map[0 := ChunkRequest(0, 0, META)])
  const CHUNKED: State := INITIALIZED.(
    metas := map[(0, 0) := MetaEntry(FULL, UPLOAD_META_TTL)],
    open := map[0 := STORED])
  const FINALIZING: State := CHUNKED.(finalizing := map[0 := FinalizeRequest(0, 0, FULL, Started)])

  ghost predicate Follows(s: State, e: Event, t: State) {
    Enabled(s, e) && t == Step(CONFIG, s, e)
  }

  lemma OneChunk()
    ensures ChunkCount(1) == 1
  {
  }

  lemma Initialized()
    ensures Follows(INITIAL, INIT, INITIALIZED)
  {
    OneChunk();
    assert Lists([], Ids(INITIAL, 0));
    assert {} + {0} == {0};
    var t := Step(CONFIG, INITIAL, INIT);
    assert t.active == map[0 := ActiveSet({} + {0}, UPLOAD_META_TTL)];
    assert t.metas == INITIALIZED.metas && t.active == INITIALIZED.active && t.index == INITIALIZED.index;
    assert t.open == INITIALIZED.open && t.uploads == INITIALIZED.uploads;
  }

  lemma ChunkBegun()
    ensures Follows(INITIALIZED, BEGIN_CHUNK, CHUNKING)
  {
    var t := Step(CONFIG, INITIALIZED, BEGIN_CHUNK);
    assert t.metas == CHUNKING.metas && t.active == CHUNKING.active && t.index == CHUNKING.index;
    assert t.chunking == CHUNKING.chunking;
  }

  lemma ChunkFinished()
    ensures Follows(CHUNKING, FINISH_CHUNK, CHUNKED)
  {
    var t := Step(CONFIG, CHUNKING, FINISH_CHUNK);
    assert [] + [1] == [1];
    assert t.chunking == map[] && t.open == CHUNKED.open && t.metas == CHUNKED.metas;
    assert t.active == CHUNKED.active && t.index == CHUNKED.index;
  }

  lemma FinalizeStarted()
    ensures Follows(CHUNKED, START_FINALIZE, FINALIZING)
  {
  }

  lemma Completed()
    ensures Enabled(FINALIZING, COMPLETE)
    ensures var t := Step(CONFIG, FINALIZING, COMPLETE);
            t.metas == FINALIZING.metas && 0 !in t.open && t.lost == {} && Completing(t, 0)
  {
    var t := Step(CONFIG, FINALIZING, COMPLETE);
    assert HasParts(STORED.parts, |FULL.parts|);
    assert 0 in t.finalizing && t.finalizing[0].phase.Assembled? && t.finalizing[0].meta.s3UploadId == 0;
  }

  /** The upload was completed, but its finalize request has not come to its clean-up. */
  lemma ClosedByCompletion() returns (events: seq<Event>, states: seq<State>)
    ensures IsRun(CONFIG, events, states) && |events| == 5
    ensures (0, 0) in states[5].metas && states[5].metas[(0, 0)].meta.s3UploadId == 0
    ensures 0 !in states[5].open && Completing(states[5], 0) && 0 !in states[5].lost
  {
    Initialized();
    ChunkBegun();
    ChunkFinished();
    FinalizeStarted();
    Completed();
    events, states := [], [INITIAL];
    events, states := Extended(events, states, INIT, INITIALIZED);
    events, states := Extended(events, states, BEGIN_CHUNK, CHUNKING);
    events, states := Extended(events, states, FINISH_CHUNK, CHUNKED);
    events, states := Extended(events, states, START_FINALIZE, FINALIZING);
    events, states := Extended(events, states, COMPLETE, Step(CONFIG, FINALIZING, COMPLETE));
  }

  lemma Extended(events: seq<Event>, states: seq<State>, e: Event, t: State) returns (events': seq<Event>, states': seq<State>)
    requires IsRun(CONFIG, events, states) && Follows(states[|events|], e, t)
    ensures IsRun(CONFIG, events', states') && |events'| == |events| + 1 && states'[|events'|] == t
  {
    events', states' := events + [e], states + [t];
    forall i | 0 <= i < |events'|
      ensures Enabled(states'[i], events'[i]) && states'[i + 1] == Step(CONFIG, states'[i], events'[i])
    {
      if i < |events| {
        assert states'[i] == states[i] && states'[i + 1] == states[i + 1];
      }
    }
  }

  /** The upload was cancelled, and storage carried the abort out, but its reply was lost. */
  lemma ClosedByLostAbort() returns (events: seq<Event>, states: seq<State>)
    ensures IsRun(CONFIG, events, states) && |events| == 2
    ensures (0, 0) in states[2].metas && states[2].metas[(0, 0)].meta.s3UploadId == 0
    ensures 0 !in states[2].open && 0 in states[2].lost && !Completing(states[2], 0)
  {
    Initialized();
    events, states := Extended([], [INITIAL], INIT, INITIALIZED);
    events, states := Extended(events, states, CANCEL, Step(CONFIG, INITIALIZED, CANCEL));
  }
}
