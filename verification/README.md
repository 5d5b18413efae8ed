# RedBox: a verified model

RedBox is an encrypted file-sharing service: browsers encrypt files in chunks, a NestJS backend keeps them in S3 and
tracks uploads in Redis, and a service worker turns a decrypted stream into a browser download. This project models
its most intricate behaviour in Dafny and proves what it is meant to guarantee. `dafny verify dfyconfig.toml` checks
everything.

The model follows the program's own form. Where the program changes state step by step, there is a class or a loop
whose methods are proved against functions on values; the functions make up transition systems, and the main results
are about all their runs.

| files | what they model |
|---|---|
| Bytes, FileFormat, Aead, KeyHex | chunk geometry, the additional data that binds a chunk to its position, the frame layout, the key in hexadecimal |
| StreamDecoder, StreamDecryptor, FileEncryptor | the streaming decoder as a function of the received bytes and as the loops that compute it; the upload loop; the round trip |
| UploadProtocol, UploadSafety, UploadSteps, ActiveUploads, UploadGuarantees, UploadWitnesses, UploadIsolation, FilesService | the resumable upload protocol over Redis, S3 and the database, its invariants, the quota, the cap, the sweep, what an event leaves alone, and the service as methods |
| InitOutcomes, UploadOutcomes, FinalizeOutcomes, UploadActivity | what each request and step of the upload protocol leaves, field by field, in every run; when an upload was last in use, and what the sweep makes of it |
| DownloadRendezvous, RendezvousSafety, RendezvousStatus, DownloadGuarantees, ReusedIds, DownloadWorker | the service worker that brings a page's stream and the browser's fetch together |
| PageDestination, TransportSlices, BrowserDownload | the page's side of such a download, and the whole of it: the page program, its destination and the worker |
| Accounts, AccountSafety, AccountGuarantees, UsersService | account status, deletion requests, restrictions, invite codes, master key and session key |
| InviteCodes, RegistrationRace | registration, what it costs and how often one code can be used; registrations that overlap |
| TokenRefresh, TokenLock | the single-flight token refresh of the API client in any number of tabs; the token locks in Redis |
| RateLimit, StreamSlots | the fixed-window limiter and its guard; the slots of open event streams and their expiry |
| Cidr | IP addresses as numbers and the trusted-proxy test (RFC 4632 section 3.1, RFC 4291 sections 2.2 and 2.3) |
| DashboardHistory | the moving-cursor charts of the admin dashboard |
| Basics, Sequences | small definitions; facts about sequences and maps |

## Assumptions

- AES-GCM (sections 7.1 and 7.2 of NIST SP 800-38D) is ideal: a key is the log of what was sealed under it, and a box
  opens only if it is in the log. Ivs are random; the model takes them as distinct within one file key. bcrypt, scrypt
  and AES-CBC of the accounts are symbolic: a secret is known or not, and a wrapped key opens under its own secret
  only. (bcrypt looks at 72 bytes, while passwords may have up to 100 characters; such a pair of passwords would be
  told apart only by the unwrapping, which is ideal here and unauthenticated in the program.)
- Drawn ids, tokens and session keys are new. Where this matters for safety, a lemma shows what a repeated one does.
- Redis and the database are atomic per statement or transaction and do not fail, and a database reply is never lost.
  S3 calls may be refused, or may take effect while the reply is lost; S3 refuses Complete and UploadPart on an upload
  id that is closed, and lists uploads in the order of their ids.
- A chunk request is split at its UploadPart call, so that a cancel can come in between; a finalize request is split at
  Complete, Head, the transaction and the clean-up. Everything else in the upload protocol, and each account method and
  cron job, is one step. The chunk guard gives one chunk request per upload at a time, within its lock time (TokenLock).
- Service-worker and page callbacks are one step each, as the event loop runs them; a waiting fetch goes on in a step of
  its own, after its promise was resolved.

## What turned out false or sharper than expected

- The metadata of an upload does not always mean an open multipart upload: between Complete and the clean-up it is
  closed, and if the reply to an abort is lost it stays tracked until its TTL or the sweep. MetadataIsBacked states that
  these are the only two cases, both ways; ClosedByCompletion and ClosedByLostAbort are runs into each of them.
- If the reply to Complete is lost, or the final delete is refused, an object stays in storage although its upload is
  forgotten and no row names it (CompleteOutcome). If the reply to CreateMultipartUpload is lost, a multipart upload stays
  open that nothing tracks, until the sweep finds it idle (InitOutcome, SweepClosesIdle).
- A registration looks its code up before the transaction, which only counts down: two that overlap can make two accounts
  with a code for one (TwoAtOnce). Codes are safe if and only if each registration finds its code usable while fewer
  others are still to commit than it has uses (SafeExactlyWhenCheckedInTime). The results on invite codes in runs of all
  account events (InviteCodes) take a registration as one step.
- The fixed-window limiter admits at most 2 * limit - 1 requests in a sliding interval of the window length, and this is
  sharp for every limit (SlidingBoundIsSharp).
- A stream that is torn down before its slots are known to be acquired does not give them back
  (TeardownBeforeAcquired). They stay taken exactly until the expiry that was set when the count of the key last became 1
  (LeakHeldExactlyUntilExpiry, LeakEndsAtExpiry). If the key never expires while one of its streams is live, a counter
  equals the number of live streams exactly when no stream of its current life was leaked (CounterIsLiveExactlyWhen).
- The limit on streams is safe exactly as long as the key does not expire while one of its streams is live: until then it
  is never exceeded (NeverOverLimit), right after that new streams alone can exceed it (ExcessAfterDrop), and this is an
  if-and-only-if over every run (LimitIsSafeExactlyWithoutDrops). OutlivedCounterAdmitsMore is such a run.
- Single flight holds per tab. Two tabs share the stored tokens, and the loser of a race can remove the tokens that the
  winner stored (TwoTabsLogOut). A refresh is refused as stale exactly if another tab's rotation came between, or was not
  settled yet when the token was sent (RefusedExactlyIfOvertaken). If a refresh is sent only while no tab has one pending,
  none is refused as stale (RefreshIsNeverStale).
- A refresh request that fails before the server rotates the key, by a network error say, also removes tokens that are
  still good; one tab is enough (OneTabLosesOnFailure). These are the two causes, exactly: a refresh is rejected if and
  only if it failed before the server rotated the key, or was refused as stale (RejectedExactlyWhen,
  GoodTokensLostExactlyWhen). With one refresh at a time only the failure is left (OneAtATimeLosesExactlyOnFailure).
- An entry of the trusted proxies that ends in a slash trusts its whole address family (EmptyPrefixTrustsTheFamily).
- The legacy mode has no position binding (LegacyAcceptsAnyArrangement).
- A reused download id can overwrite an active entry and leave a lifetime unresolved for ever
  (ReusedIdLosesLifetime, LostStaysLost). This happens exactly when a claim succeeds under an id whose entry is still
  live (LostExactlyByOverwriting, NothingLostExactlyWhen); reusing an id after its release is harmless.
- A status change to 'pending' by an administrator reports success and changes nothing (Accounts.UpdateStatus).
- Recovering a password rotates the session but leaves a cached master key; it stays the right one (MasterKeySurvives).
- One pass of the dashboard cursor is sound exactly when the clamped bucket times never go back
  (OnePassIsSoundExactlyWhenOrdered).

## Model

| member | source | states |
|---|---|---|
| FileFormat.ScheduleMeetsExpectedSize | apps/backend/src/files/files.service.ts:212-218 | The chunk sizes that an upload accepts are positive and add up to the size that is checked when it is completed |
| FileFormat.ServedMetadataValidates | apps/backend/src/files/files.service.ts:364-386 | A stored size is served exactly when it is in range, and the served metadata passes the client exactly when both texts have 1 to 100 characters, which arrive unchanged like size and password flag |
| FileFormat.ValidationImpliesSoundGeometry | apps/frontend/src/services/DownloadService.ts:78-122 | Whatever the server sends, metadata that validates has the geometry the decoder relies on |
| FileFormat.FramesTile | apps/frontend/src/services/StreamingDownloadService.ts:130-138 | Frames tile the encrypted file and chunks the plaintext, and each frame has the length the server demanded at upload |
| FileFormat.CreateFileChunkAad | apps/frontend/src/services/FileCryptoFormat.ts:22-40 | The buffer filled through an advancing offset is the encoding of the chunk position |
| FileFormat.AadCollision | apps/frontend/src/services/FileCryptoFormat.ts:22-40 | Two positions are encoded alike if and only if every field agrees modulo its width |
| FileFormat.AadInjective | apps/frontend/src/services/FileCryptoFormat.ts:22-40 | On fields that fit their widths the encoding is injective |
| FileFormat.AadBindsPosition | apps/frontend/src/services/FileCryptoFormat.ts:22-40 | Different chunks, and files of different sizes, never share additional data |
| Aead.EncryptChunk | apps/frontend/src/services/CryptoService.ts:35-48 | The result is the iv followed by ciphertext and tag, sealed under the key |
| Aead.SealThenOpen | apps/frontend/src/services/CryptoService.ts:54-75 | A sealed chunk opens to itself under its own additional data and under no other |
| KeyHex.KeyRoundTrip | apps/frontend/src/services/CryptoService.ts:5-33 | An exported key is imported as it was |
| KeyHex.ImportedIsExported | apps/frontend/src/services/CryptoService.ts:20-33 | What is imported is a 256-bit key, and exporting it gives the text again up to letter case |
| StreamDecoder.DecodeWrites | apps/frontend/src/services/StreamingDownloadService.ts:129-159 | Accepted or rejected, the decoder has written exactly what its leading frames open to, in order and in one mode |
| StreamDecoder.DecodeAccepts | apps/frontend/src/services/StreamingDownloadService.ts:129-178 | The decoder succeeds if and only if the stream ends regularly, has the announced size, and every frame opens in the mode of the first one |
| StreamDecoder.TruncationWritesPrefix | apps/frontend/src/services/StreamingDownloadService.ts:90-127 | A truncated stream writes a prefix of the chunks that the whole stream writes |
| StreamDecoder.RoundTrip | apps/frontend/src/services/StreamingDownloadService.ts:129-178 | The frames of an upload, all v2 or all legacy, decode to exactly the chunks of the file |
| StreamDecoder.TruncatedUpload | apps/frontend/src/services/StreamingDownloadService.ts:129-178 | Any truncation of an upload leaves whole leading chunks of the file written |
| StreamDecoder.PositionBinding | apps/frontend/src/services/StreamingDownloadService.ts:48-72 | Under a key that sealed only the v2 chunks of one file, no byte string makes the decoder write anything but leading chunks of that file |
| StreamDecoder.AcceptsOnlyTheUpload | apps/frontend/src/services/StreamingDownloadService.ts:48-72 | With each chunk sealed once, the one accepted byte string is the upload: no repeat, swap or drop |
| StreamDecoder.LegacyAcceptsAnyArrangement | apps/frontend/src/services/StreamingDownloadService.ts:48-72 | The legacy mode does not bind positions: any arrangement of sealed boxes of the right sizes is accepted |
| StreamDecryptor.FrameReader.CopyInto | apps/frontend/src/services/StreamingDownloadService.ts:107-114 | What the current network chunk offers is moved to the frame, and taken off the stream |
| StreamDecryptor.FrameReader.ReadFrame | apps/frontend/src/services/StreamingDownloadService.ts:90-127 | The next bytes of the stream are handed out however they were cut, or the failure of the stream is reported |
| StreamDecryptor.ProcessChunk | apps/frontend/src/services/StreamingDownloadService.ts:130-158 | One round reads, opens and writes exactly the next frame; its size checks cannot fail |
| StreamDecryptor.DrainEnd | apps/frontend/src/services/StreamingDownloadService.ts:161-172 | After the last frame the stream is accepted exactly if nothing is left and it ends regularly |
| StreamDecryptor.StreamDecryptToFile | apps/frontend/src/services/StreamingDownloadService.ts:75-185 | Without an abort or failing write the loops do what the function of the concatenated bytes says, otherwise whole leading chunks of it are written |
| StreamDecryptor.FragmentationIndependence | apps/frontend/src/services/StreamingDownloadService.ts:90-127 | Two downloads of the same bytes, however cut, end alike and write the same chunks |
| FileEncryptor.EncryptFile | apps/frontend/src/components/upload/UploadFormPanel.tsx:128-149 | The upload loop produces frames that are the upload of the file, each chunk sealed once |
| FileEncryptor.UploadThenDownload | apps/frontend/src/components/upload/UploadFormPanel.tsx:114-155 | End to end, any cutting of the uploaded frames is decoded to the file, and under v2 no other bytes are accepted |
| UploadSteps.RunKeepsCore | apps/backend/src/files/files.service.ts:87-362 | Over all interleavings, TTL expiry and S3 failures: metadata, index, open uploads, stored parts, requests and rows agree with what each upload was created for |
| UploadGuarantees.MetadataIsBacked | apps/backend/src/files/files.service.ts:193-248 | A metadata record has an index that points back to it, parts 1..nextExpectedChunk of scheduled length, and an open multipart upload except in the two named cases |
| UploadWitnesses.ClosedByCompletion | apps/backend/src/files/files.service.ts:271-335 | A run in which metadata outlives its multipart upload because a finalize request is between Complete and its clean-up |
| UploadWitnesses.ClosedByLostAbort | apps/backend/src/files/files.service.ts:531-557 | A run in which metadata outlives its multipart upload because the reply to the abort of a cancellation was lost |
| UploadGuarantees.RowsComeFromCommits | apps/backend/src/files/files.service.ts:290-362 | Rows are added only by the finalize transaction, its own row and only within the limits; a failed finalize adds none |
| UploadGuarantees.RecordedFilesAreGenuine | apps/backend/src/files/files.service.ts:250-362 | With finalize split at its outside calls, recorded bytes never exceed the quota and each row is of its own completed upload with an object of the expected size |
| UploadGuarantees.FinalizeChecksNeverFail | apps/backend/src/files/files.service.ts:262-288 | In no run can the size check after Complete fail, nor Complete miss a part |
| UploadGuarantees.AcceptedInit | apps/backend/src/files/files.service.ts:87-191 | An accepted initialisation leaves at most the cap of active uploads including the new one; every evicted upload has lost metadata, index and multipart upload, and none that stayed is older |
| InitOutcomes.InitOutcome | apps/backend/src/files/files.service.ts:87-191 | In every run, from the state alone: an initialisation is let in exactly with a link that may live, a file within the literal limits of its user, its number of 4 MiB chunks and a free lock; then the new upload is open, tracked for a day and active; at the cap exactly as many of the oldest uploads as must go are evicted, or, if one of those cannot be, the new upload is undone; nothing else changes |
| InitOutcomes.ReplyTellsTheOutcome | apps/backend/src/files/files.service.ts:87-269 | A request is accepted if and only if it started its upload, began its chunk, moved its upload on by one chunk, or started its finalize |
| UploadOutcomes.BeginChunkOutcome | apps/backend/src/files/files.service.ts:193-218 | A chunk is accepted if and only if it is the next one of its upload in its scheduled length; then the upload counts as used now, and all that tracks it expires a day from now; otherwise nothing changes |
| UploadOutcomes.FinishChunkOutcome | apps/backend/src/files/files.service.ts:219-248 | A part that storage takes makes the metadata list it as the next one; after a cancellation the upload is aborted again; a refused part leaves nothing, one without a reply only itself |
| UploadOutcomes.CancelOutcome | apps/backend/src/files/files.service.ts:531-557 | Acknowledged, a cancellation closes the multipart upload and removes metadata, index and active id; refused or for a closed upload it changes nothing; with a lost reply the upload is closed and stays tracked; without metadata only the active id goes |
| FinalizeOutcomes.StartFinalizeOutcome | apps/backend/src/files/files.service.ts:250-267 | A finalize starts if and only if the link may live, every chunk has come and the number is right |
| FinalizeOutcomes.CompleteOutcome | apps/backend/src/files/files.service.ts:271-279 | An acknowledged Complete closes the upload and makes an object of exactly the stored size; refused, the upload is aborted and forgotten; with a lost reply the object stays although the upload is forgotten |
| FinalizeOutcomes.HeadOutcome | apps/backend/src/files/files.service.ts:281-288 | If storage answers, the size check always lets the request go on; otherwise object, metadata, index and active id go |
| FinalizeOutcomes.CommitOutcome | apps/backend/src/files/files.service.ts:290-328 | The row is added if and only if the database takes it and the file is within the literal limits of its owner; otherwise all is given up |
| FinalizeOutcomes.CleanupOutcome | apps/backend/src/files/files.service.ts:330-335 | After the row is recorded everything that tracks the upload goes, and file and object stay |
| FinalizeOutcomes.LimitsHold | apps/backend/src/files/files.service.ts:678-691 | In every run no user has more than 2 GiB, or 50 GiB with the admin limits, and no file is larger than its owner may have |
| FinalizeOutcomes.DeleteFileOutcome | apps/backend/src/files/files.service.ts:559-578 | Exactly the file with the id goes, and its object unless storage refuses |
| FinalizeOutcomes.AdminClearOutcome | apps/backend/src/admin/users/admin-users.service.ts:537-569 | Exactly the files of the user go, their objects but for those whose deletion fails, and his metadata and active set; each of his tracked uploads is closed unless its abort is refused |
| FinalizeOutcomes.TickOutcome | apps/backend/src/files/files.service.ts:604-621 | As time passes Redis drops exactly what is due, and nothing else changes |
| UploadActivity.UpdatedAtIsLastUse | apps/backend/src/files/files.service.ts:193-248 | In every run the time in the metadata is that of the last accepted chunk, or of the creation if there was none, and the metadata expires 24 hours after it |
| UploadActivity.SweepSparesRecent | apps/backend/src/files/files.service.ts:482-529 | In every run an upload whose metadata says that it was used after the cutoff is untouched by the sweep; so is an untracked one of which storage knows later activity or cannot tell |
| UploadActivity.SweepClosesIdle | apps/backend/src/files/files.service.ts:784-819 | A listed upload that was last used by the cutoff, as its metadata says, or storage if nothing tracks it, is gone with all that tracks it if its abort is acknowledged |
| UploadGuarantees.UnlistedUntouched | apps/backend/src/files/files.service.ts:482-529 | The sweep does not touch what it did not list |
| UploadIsolation.OthersUntouched | apps/backend/src/files/files.service.ts:87-557 | Whatever an event does, an upload that it is not about keeps its multipart upload with all parts, its index, its metadata and its place in the active set |
| UploadIsolation.RunsAreIsolated | apps/backend/src/files/files.service.ts:87-557 | The same for every step of every run |
| ActiveUploads.MakeRoomLeavesRoom | apps/backend/src/files/files.service.ts:693-745 | For any cap, making room leaves room, drops only stale ids and the oldest uploads, and changes nothing if there was room |
| ActiveUploads.VictimsAreOldest | apps/backend/src/files/files.service.ts:735-744 | No upload that is evicted is younger than one that stays |
| ActiveUploads.RunKeepsCap | apps/backend/src/files/files.service.ts:580-590 | In every run no user has more active uploads than the cap, and only active uploads can be resumed |
| FilesService.Service.InitializeUpload | apps/backend/src/files/files.service.ts:87-191 | The method makes the initialisation step of the protocol |
| FilesService.Service.MakeRoomForActiveUpload | apps/backend/src/files/files.service.ts:693-745 | The method evicts the oldest uploads and stale ids as the protocol says |
| FilesService.Service.CompleteMultipart | apps/backend/src/files/files.service.ts:271-279 | The method makes the Complete step; the object is put together from parts 1..n |
| FilesService.Service.CreateFileRow | apps/backend/src/files/files.service.ts:290-328 | The method makes the transaction step, with the aggregate over the rows of the user |
| FilesService.Service.LatestStored | apps/backend/src/files/files.service.ts:784-819 | The latest time over all pages of parts is the last activity of an untracked upload |
| FilesService.Service.CleanupStaleMultipartUploads | apps/backend/src/files/files.service.ts:482-529 | Listing page by page while aborting equals sweeping the full listing; after a complete pass what was not used since the cutoff is gone if storage acknowledged its abort and closed if the reply was lost, all else is untouched, and the invariants hold |
| FilesService.Service.ClearUserData | apps/backend/src/admin/users/admin-users.service.ts:537-569 | The method makes the admin clear step of the protocol |
| FilesService.Service.Dispatch | apps/backend/src/files/files.service.ts:87-557 | Requests, their later steps, cancellations, deletions and time, in any order: each is a step of the protocol, all its invariants hold again, and every upload that the event is not about is as before |
| RendezvousSafety.RunKeeps | apps/frontend/public/__redbox_download/sw.js:59-379 | The invariant of the worker over every order of messages, fetches, cancels, heartbeats and timers |
| DownloadGuarantees.TablesStayWithinLimits | apps/frontend/public/__redbox_download/sw.js:131-205 | At most 4 pending sessions, 8 waiting fetches and 4 active downloads |
| DownloadGuarantees.NeverPendingAndWaited | apps/frontend/public/__redbox_download/sw.js:170-205 | No id is both pending and waited for |
| DownloadGuarantees.OneReplyPerSession | apps/frontend/public/__redbox_download/sw.js:71-85 | A page hears at most once about its session |
| DownloadGuarantees.ReplyTellsTheOutcome | apps/frontend/public/__redbox_download/sw.js:131-168 | Started means in exactly one response and not cancelled; an error means in no response, and cancelled if the message was valid |
| DownloadGuarantees.StreamedWasAnnounced | apps/frontend/public/__redbox_download/sw.js:131-168 | A stream is in a response only if its page was told that it started, and the Content-Length is the size of the session |
| DownloadGuarantees.OneAnswerPerFetch | apps/frontend/public/__redbox_download/sw.js:351-379 | A fetch is answered at most once and until then it is waiting or being handed a session |
| DownloadGuarantees.LifetimeIsExact | apps/frontend/public/__redbox_download/sw.js:332-349 | A lifetime is unresolved exactly while its session is pending, being handed over or active |
| DownloadGuarantees.OutcomesAreFinal | apps/frontend/public/__redbox_download/sw.js:71-85 | Replies, responses, releases and cancellations are never taken back |
| DownloadGuarantees.QuietMeansSettled | apps/frontend/public/__redbox_download/sw.js:59-379 | When no timer or continuation is left, every session was replied to, every fetch answered and every lifetime released |
| DownloadGuarantees.TimersSettleEverything | apps/frontend/public/__redbox_download/sw.js:59-205 | From every reachable state timers and continuations alone lead to that rest |
| ReusedIds.LostExactlyByOverwriting | apps/frontend/public/__redbox_download/sw.js:138-147 | With any ids, a step makes a session lost if and only if it is a successful claim of another session under the id of its live entry |
| ReusedIds.LostExactlyIfOverwritten | apps/frontend/public/__redbox_download/sw.js:138-147 | A session is lost if and only if such a claim came before |
| ReusedIds.NothingLostExactlyWhen | apps/frontend/public/__redbox_download/sw.js:138-147 | A run loses nothing if and only if no claim hits a live entry |
| ReusedIds.FreshIdsOverwriteNothing | apps/frontend/public/__redbox_download/sw.js:138-147 | With ids used once, no claim ever hits a live entry, so nothing is lost |
| ReusedIds.ReusedIdLosesLifetime | apps/frontend/public/__redbox_download/sw.js:138-147 | With a reused id a started session can lose its table entry |
| ReusedIds.LostStaysLost | apps/frontend/public/__redbox_download/sw.js:59-69 | A session that lost its entry is never released, whatever happens next |
| RendezvousStatus.SessionsGoTheirWay | apps/frontend/public/__redbox_download/sw.js:71-205 | In every run each event moves each session exactly along its own course: announced as pending, handed over or rejected; started while there is room and otherwise rejected when a fetch takes it; ended by its own source or its timer; and no event moves a session that it is not about |
| RendezvousStatus.StreamStatus | apps/frontend/public/__redbox_download/sw.js:184-205 | A new session is handed to a waiting fetch, kept pending, or rejected, and no other one moves |
| RendezvousStatus.FetchStatus | apps/frontend/public/__redbox_download/sw.js:351-379 | A plain fetch takes the session pending under its id: it is downloading exactly if there is room, else rejected; no other session moves |
| RendezvousStatus.CancelStatus | apps/frontend/public/__redbox_download/sw.js:264-301 | A cancel ends or rejects a session only if its id and its source are those of the session; any other sender moves none |
| RendezvousStatus.SessionsOnlyAdvance | apps/frontend/public/__redbox_download/sw.js:71-205 | No session goes back: rejected and ended are final |
| RendezvousStatus.StartsExactlyWhenStreamed | apps/frontend/public/__redbox_download/sw.js:131-168 | A session starts downloading in exactly that step of a run which puts its stream into the answer to a fetch |
| DownloadGuarantees.SessionIsItsMessage | apps/frontend/public/__redbox_download/sw.js:303-349 | What the worker keeps of a session is for ever what its message said, and nothing if that was invalid |
| DownloadGuarantees.AdmittedExactly | apps/frontend/public/__redbox_download/sw.js:303-330 | A message gets a session if and only if its version, id, name, size, stream and source are as the protocol has them, written out; any other is refused at once and its stream cancelled |
| DownloadGuarantees.ResponseHasMessageSize | apps/frontend/public/__redbox_download/sw.js:155-167 | The Content-Length of a stream is the size in the message it came with |
| DownloadWorker.Worker.Dispatch | apps/frontend/public/__redbox_download/sw.js:253-379 | Whatever the event loop runs is a step of the model, keeps the invariant, moves each session along its course and answers the fetches it has to |
| PageDestination.RunKeeps | apps/frontend/src/services/ServiceWorkerDownloadService.ts:195-331 | The invariant of the destination over every order of callbacks |
| PageDestination.ReadySettlesOnce | apps/frontend/src/services/ServiceWorkerDownloadService.ts:229-241 | `ready` settles at most once and takes its timer and listeners along |
| PageDestination.ReadyTellsTheReply | apps/frontend/src/services/ServiceWorkerDownloadService.ts:229-271 | In every run `ready` waits until the first event that settles it, is fulfilled if and only if that was the reply of the worker that the download started, and rejected if and only if it was another one |
| PageDestination.AbortEnds | apps/frontend/src/services/ServiceWorkerDownloadService.ts:279-293 | The signal, a failed writer and a call of abort end the destination at once, and the worker is told unless it is gone |
| PageDestination.HeartbeatsArePosted | apps/frontend/src/services/ServiceWorkerDownloadService.ts:207-227 | The start and each tick of the timer post one heartbeat while the worker is there |
| PageDestination.RunIsLater | apps/frontend/src/services/ServiceWorkerDownloadService.ts:229-241 | The outcome of `ready` and the end of the destination never change back, and nothing is delivered after the end |
| PageDestination.HeartbeatRunsWhileDownloading | apps/frontend/src/services/ServiceWorkerDownloadService.ts:216-227 | The heartbeat timer runs exactly between a successful start and the end |
| PageDestination.HeartbeatsAreTimely | apps/frontend/src/services/ServiceWorkerDownloadService.ts:207-227 | Each step posts at most one message, and a heartbeat only after a start and before the end |
| PageDestination.NoHeartbeatAfterTheEnd | apps/frontend/src/services/ServiceWorkerDownloadService.ts:207-227 | No heartbeat follows a complete or cancel message |
| PageDestination.EndedIsQuiet | apps/frontend/src/services/ServiceWorkerDownloadService.ts:279-330 | An ended destination has no timer or listener, delivers nothing, and has told the worker how it ended |
| PageDestination.CompletionIsRegular | apps/frontend/src/services/ServiceWorkerDownloadService.ts:313-321 | A complete message means a started download whose close() was called and whose stream was closed regularly, with nothing delivered afterwards |
| PageDestination.TimeoutEndsThroughTheWriter | apps/frontend/src/services/ServiceWorkerDownloadService.ts:253-293 | A start timeout leaves the destination open; the rejected writer that it causes ends it |
| PageDestination.Destination.Dispatch | apps/frontend/src/services/ServiceWorkerDownloadService.ts:195-331 | Every callback is a step of the model and keeps the invariant |
| TransportSlices.SlicesMakeData | apps/frontend/src/services/ServiceWorkerDownloadService.ts:303-310 | Slices are non-empty, at most 4 MiB, full except for the last, and make up the data |
| TransportSlices.WriteSlices | apps/frontend/src/services/ServiceWorkerDownloadService.ts:299-311 | The write loop delivers all slices in order, or leading ones if it is aborted or the writer fails |
| BrowserDownload.RunKeeps | apps/frontend/src/components/download/DownloadCard.tsx:215-290 | The invariant of the page program with its destination, over every order of its steps and the callbacks |
| BrowserDownload.CompleteIsWhole | apps/frontend/src/components/download/DownloadCard.tsx:265-280 | If the stream was closed, or complete posted to the worker, or success shown, then the decoder accepted the file and the stream was given all of it: exactly the announced size |
| BrowserDownload.SuccessIsReported | apps/frontend/src/components/download/DownloadCard.tsx:275-284 | A page that shows success has closed the stream and told the worker, unless that is gone |
| BrowserDownload.FailureIsReported | apps/frontend/src/components/download/DownloadCard.tsx:281-286 | A page that gave up has ended its destination, and the worker knows unless it is gone |
| BrowserDownload.StartsOnlyAfterReply | apps/frontend/src/components/download/DownloadCard.tsx:215-240 | The page decodes, and gives the stream anything, only after the worker replied that the download has started |
| BrowserDownload.DecodingGoesOn | apps/frontend/src/services/StreamingDownloadService.ts:129-178 | Each frame brings exactly the next chunk of the decoding to write, or the page gives up if there is none; the end is accepted if and only if the decoding completes |
| BrowserDownload.DeliveredIsPrefix | apps/frontend/src/services/ServiceWorkerDownloadService.ts:299-311 | At any time, whatever fails or aborts, the stream was given leading bytes of what is decoded, at most the announced size |
| BrowserDownload.DeliveredIsTheFile | apps/frontend/src/components/download/DownloadCard.tsx:265-280 | Under a key that sealed one file, the stream is given leading bytes of that file, and the whole file if the download is complete |
| BrowserDownload.ResponseIsFilled | apps/frontend/public/__redbox_download/sw.js:155-167 | The stream never brings more than the Content-Length of the response that the worker gave the browser for it, and exactly that many bytes once complete |
| AccountSafety.RunKeeps | apps/backend/src/users/users.service.ts:57-599 | The invariant of all accounts over users, administrators, logins and cron jobs |
| AccountGuarantees.PendingHasOneRequest | apps/backend/src/users/users.service.ts:112-174 | Pending holds if and only if there is exactly one active deletion request |
| AccountGuarantees.RestrictedHasOneRestriction | apps/backend/src/admin/users/admin-users.service.ts:268-399 | Banned, and locked, hold if and only if there is exactly one open restriction of the kind |
| AccountGuarantees.DeletedForEver | apps/backend/src/admin/users/admin-users.service.ts:725-781 | Deleted is absorbing and leaves no code, request, restriction, cached key or session to use |
| AccountGuarantees.MasterKeySurvives | apps/backend/src/auth/auth.service.ts:349-411 | Across password changes and recoveries password and phrase open the same master key, and a cached key is that of an active account |
| InviteCodes.RegisterOutcome | apps/backend/src/auth/auth.service.ts:225-303 | A registration makes an account if and only if its code exists, is valid and has a use left; then that code has one use less, the account is new, active and unlocked by its password and phrase, and every other code and account is as before; otherwise nothing happens |
| InviteCodes.UsesAreAccounts | apps/backend/src/auth/auth.service.ts:287-290 | Over any stretch of a run the accounts made with a code are its uses then less its uses now |
| InviteCodes.OneAccountPerUserCode | apps/backend/src/users/users.service.ts:81-97 | One account at most is ever made with a code of a user, also after its owner was deleted |
| InviteCodes.InviteCodesAreHonest | apps/backend/src/users/users.service.ts:57-98 | issuedCodes counts the own codes and is at most 2; the usage of each is one less the accounts made with it; it works exactly while none was made and its owner is active or pending |
| InviteCodes.AdminCodesAreConserved | apps/backend/src/admin/invites/admin-invites.service.ts:84-259 | Switched off and on or not, an administrator code makes no more accounts than it has uses, and has that many fewer uses left |
| InviteCodes.AdminCodeOutcome | apps/backend/src/admin/invites/admin-invites.service.ts:84-259 | A code is made with its uses, switched without touching them, and deleted; no other code or account changes |
| RegistrationRace.OverusableExactlyWhen | apps/backend/src/auth/auth.service.ts:225-290 | With the look-up of a code outside of the transaction: registrations that have found it usable can commit to more than it allows if and only if they are more than its uses left |
| RegistrationRace.SafeExactlyWhenCheckedInTime | apps/backend/src/auth/auth.service.ts:225-290 | At no point of a run is that possible if and only if each registration found its code usable while fewer others were still to commit than it had uses |
| RegistrationRace.OneAtATimeNeverOveruses | apps/backend/src/auth/auth.service.ts:225-290 | Registrations one after the other never make more accounts than a code has uses |
| RegistrationRace.TwoAtOnce | apps/backend/src/auth/auth.service.ts:229-290 | A run in which a code for one account makes two |
| AccountGuarantees.BanJobNeverThrows | apps/backend/src/users/users.service.ts:337-359 | Every row the job lists belongs to a banned account and is its only one, so no throwing branch is reached |
| AccountGuarantees.BanJobEffect | apps/backend/src/users/users.service.ts:337-359 | After the job no ban that ran out is left; exactly those accounts are active and all others unchanged |
| AccountGuarantees.DeletionJobEffect | apps/backend/src/users/users.service.ts:318-335 | After the job no request is due; exactly the accounts with a due request are deleted and all others unchanged |
| AccountGuarantees.LoginOutcome | apps/backend/src/auth/auth.service.ts:168-222 | Who gets tokens, who is told of the pending deletion and who is refused, as if-and-only-if conditions |
| AccountGuarantees.RefreshOutcome | apps/backend/src/auth/auth.service.ts:309-336 | In every run a refresh succeeds if and only if the account is active and the token is its current session; the answered tokens carry the new session, which authenticates while the old one does not; a refusal leaves the account as it was, but for a deletion or an end of a ban that is due |
| AccountGuarantees.LogoutOutcome | apps/backend/src/auth/auth.service.ts:339-347 | Logging out retires the session and drops the cached key, and without the current session does nothing |
| AccountGuarantees.NeedsSession | apps/backend/src/auth/strategy/jwt.strategy.ts:22-37 | In every run an event does its operation to its own account, except that logout, invite, deletion request and password change do nothing without the current session of an active account |
| AccountGuarantees.SecretsStay | apps/backend/src/auth/auth.service.ts:349-411 | Nothing but a password change or a recovery touches the secrets and the wrapped keys of an account |
| AccountGuarantees.OnlyItsAccount | apps/backend/src/users/users.service.ts:57-599 | An event of one account leaves all other accounts and the administrator codes alone |
| AccountGuarantees.DeletionRequestOutcome | apps/backend/src/users/users.service.ts:112-174 | A deletion is requested with the current password only; then the account is pending with this one request, due after seven days and no earlier, its sessions retired and the rest as it was |
| AccountGuarantees.InviteOutcome | apps/backend/src/users/users.service.ts:57-98 | An active account with fewer than two codes gets one more, for one use; otherwise nothing changes |
| AccountGuarantees.ReactivationOutcome | apps/backend/src/auth/auth.service.ts:413-465 | When a reactivation token works, when it deletes the account instead, and what it leaves |
| AccountGuarantees.NewPasswordOutcome | apps/backend/src/auth/auth.service.ts:349-411 | Only the old password, or the phrase, changes the password, and then only the new one opens the same master key |
| AccountGuarantees.UpdateStatusOutcome | apps/backend/src/admin/users/admin-users.service.ts:268-399 | When a status change is refused, and otherwise the status, restriction and end of ban it leaves; pending changes nothing |
| AccountGuarantees.RefreshRetires | apps/backend/src/auth/auth.service.ts:309-336 | A successful refresh retires the key it was made with |
| AccountGuarantees.RetiredForEver | apps/backend/src/auth/strategy/jwt.strategy.ts:22-37 | A retired session key never authenticates again |
| AccountGuarantees.KeyConsumedOnce | apps/backend/src/auth/auth.service.ts:309-336 | Each session key is consumed by at most one successful refresh |
| UsersService.Users.ReactivateUser | apps/backend/src/users/users.service.ts:424-471 | It throws exactly for a missing or deleted account; otherwise the account is active, with no request, no restriction and unused codes valid, no other account changes, and the invariant is kept |
| UsersService.Users.DeleteUser | apps/backend/src/users/users.service.ts:500-579 | The account is deleted with no restriction and no request left but those cancelled before, no other account changes, and the invariant is kept if the request was the active one |
| UsersService.Users.Restrict | apps/backend/src/admin/users/admin-users.service.ts:302-377 | Exactly the new restriction is open, no request is, unused codes are void, no other account changes, and the invariant is kept |
| UsersService.Users.RequestAccountDeletion | apps/backend/src/users/users.service.ts:112-174 | The method makes the deletion request step |
| UsersService.Users.GenerateInviteCode | apps/backend/src/users/users.service.ts:57-98 | The method makes the invite step |
| UsersService.Users.PreparePendingDeletionLogin | apps/backend/src/users/users.service.ts:176-205 | The method makes the pending check; its repair of a missing request is never needed |
| UsersService.Users.AssertUserCanLogin | apps/backend/src/users/users.service.ts:256-316 | The method makes the login check |
| UsersService.Users.LogIn | apps/backend/src/auth/auth.service.ts:168-222 | The method makes the login step |
| UsersService.Users.RefreshToken | apps/backend/src/auth/auth.service.ts:309-336 | The method makes the refresh step |
| UsersService.Users.RecoverThePassword | apps/backend/src/auth/auth.service.ts:378-411 | The method makes the recovery step |
| UsersService.Users.ProcessPendingDeletionRequests | apps/backend/src/users/users.service.ts:318-335 | The loop over the listed requests equals treating every account alone |
| UsersService.Users.ProcessExpiredRestrictions | apps/backend/src/users/users.service.ts:337-359 | The loop over the listed rows equals treating every account alone, and nothing throws |
| TokenRefresh.RefusedExactlyIfOvertaken | apps/frontend/src/api/apiClient.ts:34-51 | With any number of tabs: the server refuses a refresh as stale if and only if another tab has rotated the key since the token was sent, or had done so and not settled it yet |
| TokenRefresh.StaleExactlyIfOvertaken | apps/frontend/src/api/apiClient.ts:38-51 | The same while the request is still on its way |
| TokenRefresh.SentBySomeEvent | apps/frontend/src/api/apiClient.ts:38-45 | Every request on its way was sent by an event of the run, so the two results above speak of every refresh |
| TokenRefresh.OvertakerIsAnother | apps/frontend/src/api/apiClient.ts:36-51 | The refresh that overtakes belongs to another tab |
| TokenRefresh.FlightHistory | apps/frontend/src/api/apiClient.ts:38-51 | Every promise that is about to settle goes back to an event of the run that sent the request and one that answered or failed it, so the next result speaks of every refresh |
| TokenRefresh.RejectedExactlyWhen | apps/frontend/src/api/apiClient.ts:38-61 | A refresh is rejected if and only if its request failed before the server rotated the key for it, or the server refused it because another tab had overtaken it |
| TokenRefresh.GoodTokensLostExactlyWhen | apps/frontend/src/api/apiClient.ts:52-63 | Stored tokens that still carry the current key are removed if and only if such a refresh settles, failed or refused as stale, while tokens are stored and no rotation is outstanding in any tab |
| TokenRefresh.DeliveryStores | apps/frontend/src/api/apiClient.ts:44-61 | A promise that settles stores tokens with the current key of the server if it brings new ones, and removes the stored ones otherwise |
| TokenRefresh.OneAtATimeLosesExactlyOnFailure | apps/frontend/src/api/apiClient.ts:52-63 | If a refresh is sent only while no tab has one pending, current tokens are removed if and only if the request failed before the server rotated the key for it |
| TokenRefresh.OneTabLosesOnFailure | apps/frontend/src/api/apiClient.ts:52-63 | A run of one tab in which a refresh that does not get through removes current tokens |
| TokenRefresh.StoredTokenIsCurrent | apps/frontend/src/api/apiClient.ts:19-63 | A stored token carries the current key of the server if and only if no tab has a rotation outstanding |
| TokenRefresh.RefreshIsNeverStale | apps/frontend/src/api/apiClient.ts:38-51 | If a refresh is sent only while no tab has one pending, as a lock across tabs would have it, none is refused as stale |
| TokenRefresh.OneTabIsOneAtATime | apps/frontend/src/api/apiClient.ts:36-45 | Single flight: one tab alone always keeps to that |
| TokenRefresh.TwoTabsLogOut | apps/frontend/src/api/apiClient.ts:36-61 | Two tabs that refresh at once can remove new tokens that one of them has stored |
| TokenRefresh.ApiClient.OnResponse401 | apps/frontend/src/api/apiClient.ts:34-51 | At most one refresh is started, and the request waits exactly if it was not retried and a token is stored |
| TokenRefresh.ApiClient.Dispatch | apps/frontend/src/api/apiClient.ts:34-63 | A 401 that comes in, and the promise that settles, are steps of the model and keep its invariant; a request is sent exactly if the model sends one |
| TokenLock.HeldUntilReleased | apps/backend/src/files/upload-chunk-concurrency.guard.ts:35-61 | A holder keeps the lock until it releases it or its time is over; late releases of others do not free it |
| TokenLock.MutualExclusion | apps/backend/src/files/upload-chunk-concurrency.guard.ts:35-47 | A second holder comes only after a release by the first or the end of its time to live |
| TokenLock.RefusedOnlyForAHolder | apps/backend/src/files/files.service.ts:758-782 | An acquire is refused only while an earlier holder is left |
| TokenLock.GuardedRequest.ReleaseOnce | apps/backend/src/files/upload-chunk-concurrency.guard.ts:49-64 | A request releases at most once, and only its own lock |
| RateLimit.WindowAdmitsUpToLimit | apps/backend/src/common/rate-limit/rate-limit.service.ts:104-118 | A window admits as many requests as came, up to the limit |
| RateLimit.SlidingBound | apps/backend/src/common/rate-limit/rate-limit.service.ts:104-118 | Any interval as long as the window admits at most twice the limit less one |
| RateLimit.SlidingBoundIsSharp | apps/backend/src/common/rate-limit/rate-limit.service.ts:104-118 | For every limit some trace reaches that bound |
| RateLimit.EachRuleIsBounded | apps/backend/src/common/rate-limit/rate-limit.guard.ts:54-71 | The bound holds for every rule however its requests mix with others |
| RateLimit.Limiter.Consume | apps/backend/src/common/rate-limit/rate-limit.service.ts:104-118 | Remaining is not negative exactly if the trace of the key admits the request |
| RateLimit.Limiter.CanActivate | apps/backend/src/common/rate-limit/rate-limit.guard.ts:45-72 | The request passes exactly if every rule admits it, and rules after an exceeded one are not consumed |
| StreamSlots.Store.Acquire | apps/backend/src/common/rate-limit/rate-limit.service.ts:120-140 | Both keys are taken exactly if both have room, with an expiry set where the count becomes 1; otherwise the counters are as before |
| StreamSlots.Store.Release | apps/backend/src/common/rate-limit/rate-limit.service.ts:142-151 | One slot of each key is given back and empty counters vanish |
| StreamSlots.CounterIsExact | apps/backend/src/common/rate-limit/rate-limit.service.ts:63-102 | A counter is exactly the live and the leaked streams of its current life, less the slots that streams of earlier lives gave back in it |
| StreamSlots.InTimeExactlyWithoutDrops | apps/backend/src/common/rate-limit/rate-limit.service.ts:120-130 | Every live stream is counted by the counter that is there, and no slot was given back in a later one, up to any point of a run if and only if the key has not expired by then while one of its streams was live |
| StreamSlots.CounterIsLiveExactlyWhen | apps/backend/src/common/rate-limit/rate-limit.service.ts:63-102 | If the key has never expired while one of its streams was live, the counter is the number of live streams if and only if no stream of its current life was leaked |
| StreamSlots.TeardownBeforeAcquired | apps/backend/src/common/rate-limit/rate-limit.service.ts:84-100 | A run that leaks: after subscribing and tearing down before the acquisition is known, nobody is live and both counters stand at 1 |
| StreamSlots.LeakHeldExactlyUntilExpiry | apps/backend/src/common/rate-limit/rate-limit.service.ts:126-130 | A slot that was leaked before the key ever expired under a live stream is held exactly until the expiry set when the count of its key became 1 |
| StreamSlots.LeakEndsAtExpiry | apps/backend/src/common/rate-limit/rate-limit.service.ts:126-130 | From that expiry on it counts in no counter, strays or not |
| StreamSlots.CounterWithinLimit | apps/backend/src/common/rate-limit/rate-limit.service.ts:120-140 | In every run the counter of a key with a fixed limit stays within it |
| StreamSlots.NeverOverLimit | apps/backend/src/common/rate-limit/rate-limit.service.ts:120-140 | If the key has never expired while one of its streams was live, live and leaked streams together stay within the limit |
| StreamSlots.LiveIsExact | apps/backend/src/common/rate-limit/rate-limit.service.ts:120-151 | However long streams live: live and leaked ones are what the counter says, what strayed into it and what outlived it |
| StreamSlots.LimitIsSafeExactlyWithoutDrops | apps/backend/src/common/rate-limit/rate-limit.service.ts:120-140 | At no point of a run can new streams, each admitted under the limit, exceed it, if and only if the key has not expired by then while one of its streams was live |
| StreamSlots.OverLimitExactlyWhen | apps/backend/src/common/rate-limit/rate-limit.service.ts:120-140 | From a state of a run new streams alone can exceed the limit if and only if some stream is not counted by the counter that is there, or gave its slot back in a later one |
| StreamSlots.ExcessAfterDrop | apps/backend/src/common/rate-limit/rate-limit.service.ts:126-130 | As soon as the key has expired while one of its streams was live, the run goes on with new streams under the limit to more than it allows |
| StreamSlots.AnyRunCanExceed | apps/backend/src/common/rate-limit/rate-limit.service.ts:126-130 | However a run under a positive limit has gone so far, it can go on, through such an expiry, to exceed it |
| StreamSlots.OutlivedCounterAdmitsMore | apps/backend/src/common/rate-limit/rate-limit.service.ts:126-130 | A run in which the key expires while its stream is live, so that with a limit of 1 two are live |
| StreamSlots.AcquireForStream | apps/backend/src/common/rate-limit/rate-limit.service.ts:63-102 | The acquisition of the two keys is the step of the model |
| Cidr.AndIsBitwise | apps/backend/src/common/http/client-ip.ts:60-82 | The conjunction of numbers is bit by bit |
| Cidr.MaskIsTopOnes | apps/backend/src/common/http/client-ip.ts:73-75 | The mask has ones exactly in the top prefix places |
| Cidr.MatchesExactly | apps/backend/src/common/http/client-ip.ts:95-106 | A network matches an address exactly if the families and the top prefix bits agree, as floor division by the host bits says |
| Cidr.ExtremePrefixes | apps/backend/src/common/http/client-ip.ts:67-75 | Prefix 0 matches the family, the full length only the address, and no prefix means the full one |
| Cidr.TrustedExactly | apps/backend/src/common/http/client-ip.ts:82-106 | A proxy is trusted if and only if some configured entry has a prefix length in range and agrees with the address in family and that many top bits |
| Cidr.EmptyPrefixTrustsTheFamily | apps/backend/src/common/http/client-ip.ts:60-75 | An entry with a slash and nothing behind it has prefix 0 and trusts the whole family; without the slash it is one address |
| Cidr.DottedQuad | apps/backend/src/common/http/client-ip.ts:26-30 | A dotted quad is its positional value below 2^32 |
| Cidr.FullSpelling | apps/backend/src/common/http/client-ip.ts:32-47 | Eight groups are their positional value |
| Cidr.CompressedSpelling | apps/backend/src/common/http/client-ip.ts:32-47 | Wherever `::` stands for groups of zeros, the value is that of the eight groups |
| Cidr.GroupsMakeAddress | apps/backend/src/common/http/client-ip.ts:43-46 | The value is below 2^128, and two addresses are equal exactly if their groups are |
| DashboardHistory.BuildCumulativeHistory | apps/backend/src/admin/dashboard/admin-dashboard.service.ts:404-423 | For any buckets each value is the count at the latest time reached |
| DashboardHistory.CumulativeHistory | apps/backend/src/admin/dashboard/admin-dashboard.service.ts:404-423 | For ordered buckets each point is the count at or before its own clamped time |
| DashboardHistory.OnePassIsSoundExactlyWhenOrdered | apps/backend/src/admin/dashboard/admin-dashboard.service.ts:404-423 | One pass agrees with counting afresh for all rows if and only if the clamped times never go back |
| DashboardHistory.MapStorageHistory | apps/backend/src/admin/dashboard/admin-dashboard.service.ts:377-402 | Each point is the last snapshot at or before its clamped time, else the fallback |
| DashboardHistory.DayBucketsOrdered | apps/backend/src/admin/dashboard/admin-dashboard.service.ts:425-462 | The buckets of a day, a week and a month are ordered |
| DashboardHistory.TotalBucketsOrdered | apps/backend/src/admin/dashboard/admin-dashboard.service.ts:464-483 | The total buckets are ordered, also when the first row lies in the future |
| DashboardHistory.TotalBucketsSpread | apps/backend/src/admin/dashboard/admin-dashboard.service.ts:464-483 | The points lie evenly from the first row to now, to the nearest millisecond, and the last one is now |

## Left out

- FilesService.Service.InitializeUpload: the init lock is a parameter (free or not), because it is modelled on its own in TokenLock; the password, its hash and the expiry of a link are left out.
- FilesService.Service.CleanupStaleMultipartUploads: the storage server's own clean-up of stale uploads and malformed Redis values are not modelled; both only remove more.
- FilesService.Service.ClearUserData: like the program, it leaves the reverse index of a cleared upload behind until its TTL.
- UploadGuarantees.RecordedFilesAreGenuine: limits per user are fixed, because a user who is renamed into or out of the admin limits could exceed the smaller quota.
- UploadGuarantees.MetadataIsBacked: S3 objects and uploads made outside of the service are not modelled.
- DownloadWorker.Worker.Dispatch: session objects are values with worker-level tables for their flags; header strings and file-name clean-up are not modelled. Heartbeat and complete messages only move a timer, whose durations are not modelled: a timer may fire at any time while it is armed. The probe handshake and the termination of the worker by the browser are left out.
- PageDestination.Destination.Dispatch: retrying, worker registration and the anchor element that starts the fetch are left out.
- UsersService.Users.DeleteUser: files, mails, links, bins and audit rows, which go with the account, are not modelled, nor are usernames and avatars.
- AccountGuarantees.KeyConsumedOnce: signatures and expiry of tokens are left out; a token is the session key inside it.
- InviteCodes.RegisterOutcome: registration is one step here; the time between the look-up of the code and the transaction is modelled on its own, for one code, in RegistrationRace. User names, which must be unique, are not modelled.
- TokenRefresh.RefreshIsNeverStale: a turn of the event loop is one step, so the settling of the promise and the reaction of the waiting requests come together; logging in and out happens while no refresh is pending.
- RateLimit.EachRuleIsBounded: increment and expiry are one step, and clearing the attempts of a subject after a successful unlock, which starts a new count, is left out, as are subjects and header values.
- StreamSlots.Store.Acquire: limits are at least 1, as at every call site, and the two keys of a stream are taken in one step.
- BrowserDownload.RunKeeps: the network is read frame by frame from the bytes it will deliver, because FragmentationIndependence shows that their cutting makes no difference; the form, the metadata request and the choice of the save method come before it and are left out.
- StreamDecryptor.StreamDecryptToFile: progress callbacks and the release of the reader are left out.
- FileFormat.ServedMetadataValidates: the header texts that repeat the metadata (DownloadService.ts:136-169) and the 100-character cut of file names are left out: they compare values one by one.
- Cidr.CompressedSpelling: IPv6 with a dotted IPv4 tail and the clean-up of address texts (ports, brackets, mapped prefixes) are library and regular-expression parsing.
- Cidr.TrustedExactly: prefix lengths are numbers; of their texts only decimal digits and the empty text are modelled, not the spaces, signs, exponents and other bases that the number conversion also takes.
- DashboardHistory.BuildCumulativeHistory: time zones, labels and chart rounding are left out; ratios are exact and not floating point.
- DTO limits such as the largest chunk index, which are narrower than what the service accepts.
- Real cryptography, mails, blog, links, bins, audit, query and pagination endpoints, React pages and notification hooks: user interface or easy branches.
