# Recording safety of the meeting recorder

A Dafny model of the code that keeps a recording from being lost or corrupted, with proofs over every input and every
run. It covers four stateful components and two text transformations:

- **Durable chunk upload in the browser.** `BrowserRecordingStore` is the IndexedDB store, `ChunkUploadClient` the
  refs and counters of the recorder component, `AudioManifest` the server's manifest, `UploadProtocol` the step relation
  of one meeting over all of them with lost replies, reordering, crashes and reloads, and `UploadPage` the page that
  shows one meeting after another on the same counters. `UploadFailures` and `UploadPageFailures` are runs in which the
  code falls short, `UploadProgress` shows that no recording is stuck for good. `UploadRefinement` shows that the
  protocol's durable state is the store, `RecorderPage` that the objects' methods are the page's steps, `Recovery` that a
  recovered recording has the recorder's own bytes whatever traffic stored it, and `RecordedAudio` that it has them after
  any run of recorder and page together.
- **Realtime PCM re-chunker** (`RealtimePcm`): the queue re-cut in place into 320000-byte chunks.
- **Recorder lifecycle** (`RecorderLifecycle`): pause, resume, stop, media reset and native events interleaving at
  awaits.
- **Sync on mobile.** `PendingSync` selects targets and merges requests, `DeferredSync` is the single-flight worker with
  deferred requests, `SyncPipeline` the phases of one recording across crashes.
- **Metadata rewriter.** `MarkdownSegments` reads a text as the metadata patterns see it, `MetadataSlots` is the
  algebra of setting slots, `MeetingMarkdown` the replacements on texts (with JavaScript's `$` substitution),
  `MarkdownAbsorption` the theorems about writing metadata twice, `MetadataText` those about what a reader then finds in
  the text, of metadata supplied in full or in part, and `LineSubstitution` those about lines with `$`.
- **Summary drafts.** `DraftRows` prints and parses rows of any kind, `SummaryDrafts` the web and phone rows,
  `Whitespace` ECMAScript white space, `Text` small string facts.

`dafny verify dfyconfig.toml` checks the whole project.

Objects the code changes in place are classes whose methods are proved against functions on their value (`View()`);
the theorems are about those functions and the runs built from them. `RecorderPage` carries the upload theorem back to
the objects: its methods, on the store and the refs together, do what the page's steps do to what the browser holds, of
the meeting they act on and of every other.

## Assumptions

- One recording per meeting id; sequences start at 1, and a new meeting's id is not in use. All requests for a chunk carry
  one content, so the server's content-conflict answer does not occur; in the browser this is proved
  (`RecorderPage.PersistCarries`, `RecorderPage.SentCarries`).
- A page shows any number of meetings, one after another. What an earlier one has open goes on and reaches the counters
  of the one shown, as the callbacks do (src/components/meeting-recorder.tsx:140-172).
- IndexedDB writes succeed. "Record and persist" is one atomic step, and so is "mark uploaded and apply the ack". A
  resync's load and its counter reset are two steps with anything between them; only recovery's own first load, on a
  page where nothing else runs yet, is one step with the counters it follows: recovery has read its session before
  anything else is done on the page.
- Beginning a session finds it in one transaction and puts it in another; runs take the two as one step, as nothing else
  writes a session that is not recorded yet. What a write in between does is `BrowserRecordingStore.BeginAfterReadIff`.
- The server stores each sequence once and answers from its manifest, as the browser code relies on
  (src/components/meeting-recorder.tsx:198).
- The upload counters are exact over *quiet* runs. When a resync resets them, the list it loaded holds every failed
  chunk and none whose upload is awaited, and as many of its chunks are acknowledged by then as uploads are awaited
  (`Balanced`); and a new meeting begins with nothing pending and no resync under way (`Settled`). Recovery and the
  retry button meet the first condition on their own (`UploadPage.CalmIsQuiet`); the `online` listener and the reset
  button do not (see below).
- The retry button exists only when recording is over (src/components/meeting-recorder.tsx:718).
- The recorder lifecycle starts after a start has settled.
- Sync is the only writer of a recording's record, and an index write is atomic; it may take effect although it throws.
- `DeferredSync.DeferredIsNeverStranded` is about runs in which a busy flag that requests have seen is rendered before it
  is taken back (`RenderedRun`).
- Durations are exact rationals rounded half up; timestamps and meeting ids are nonempty, and timestamps are ordered as
  their ISO strings; sequences print as plain decimals.
- Strings are sequences of Unicode characters. Of case folding only ASCII letters matter to the modelled comparison.

## Where the code falls short of what it is for

Each is a lemma with a failing input, beside the exact condition under which the code does meet the property.

- **Online resync.** Each recorded chunk has one place in the ledger behind the counters: acknowledged, failed, awaited or
  queued, where a queued one may be acknowledged already. A resync's reset keeps the ledger exactly when its list is
  balanced (`UploadProtocol.ResetKeepsCountedIff`). Of the two counters alone: they are right at the reset exactly when
  the list holds every failed chunk and is as long as the chunks not acknowledged are many
  (`UploadProtocol.ResetIsExactIff`); that they stay right is proved for balanced lists, and not claimed to fail for
  every other. The `online` listener breaks the balance in three ways. A chunk in flight at the load is counted twice: the
  finalize gate opens and the server seals with a chunk missing (`UploadFailures.OnlineResyncOpensGateEarly`). A chunk
  recorded between load and reset, although nothing was pending at the load, is not counted: the same happens
  (`UploadFailures.RecordDuringLoadOpensGateEarly`). A chunk acknowledged between load and reset is counted as pending:
  the gate stays shut with everything on the server, and no resync is offered
  (`UploadFailures.AckDuringLoadLeavesGateShut`). Loading the page again mends it (`UploadProgress.EveryMeetingCanBeSealed`).
- **New meeting.** The counters belong to the page, and the reset button clears them but neither waits for open uploads
  nor stops a resync. The counters of the next meeting then describe it, however it goes on, exactly when nothing of an
  earlier one goes on (`UploadPage.BeginIff`); the button sees this as nothing pending and no resync under way
  (`UploadPage.NewMeetingIff`). Otherwise a late acknowledgement lowers `pending` of the next meeting, whose gate opens and
  seals with a chunk missing (`UploadPageFailures.LateAckOpensGateEarly`), and a late failure leaves `failed` at 1 with
  nothing to retry (`UploadPageFailures.LateFailureLeavesGateShut`). No `online` event is needed for either.
- **Reordered acks.** `savedBytes` follows the last applied ack, so two acks applied out of order leave a total the
  server refuses to seal (`UploadFailures.ReorderedAcksBlockSeal`). At the gate the seal succeeds exactly when the last
  applied ack reported the full count (`UploadPage.GateTheorem`).
- **Index writes that throw after taking effect.** A sync starts from the list in memory, which such a write leaves
  behind the index. It can then upload audio whose upload is on record (`SyncPipeline.UploadIsRepeated`), and does so
  exactly if it starts while the list does not know of it (`SyncPipeline.LateUploadIff`); it can put a second upload id
  over the first (`SyncPipeline.IdIsReplaced`), and loses progress exactly if it starts while the list does not know of
  that (`SyncPipeline.ProgressLostIff`).
- **Merged retries.** A merge drops a request for all recordings when it meets one for a single meeting, and a forced
  one when it meets one for another meeting, and serves every other (`PendingSync.MergeCoversIff`); after any number of
  merges a request is served exactly when the scope that is left is its own, or is all recordings and it was not forced
  (`PendingSync.MergedAllCoversIff`). So a third waiting retry drops the first two
  (`PendingSync.ThirdRetryDropsFirstTwo`).
- **Unrendered release.** A busy flag seized and released between two renders strands a sync deferred meanwhile, if
  nothing else is armed (`DeferredSync.UnrenderedReleaseStrandsIff`). An await on a storage probe lies between
  apps/mobile/App.tsx:3809 and the release at 3880, so this needs a probe that answers before React renders.
- **Bullets.** A row with a bullet behind white space or behind a first bullet loses that bullet at the next save, on the
  web in every list and on the phone in plain lines, and no other row changes
  (`SummaryDrafts.WebPairSavesAreStableIff`, `SummaryDrafts.WebActionSavesAreStableIff`, `SummaryDrafts.WebLineSavesAreStableIff`, `SummaryDrafts.PhoneLineSavesAreStableIff`, `SummaryDrafts.SecondBulletIsEaten`).
- **Status column on the phone.** An action is saved as confirmed when its fourth column contains 确认, so one typed as
  待确认, to be confirmed, is confirmed (`SummaryDrafts.NotYetConfirms`). And a blank column is skipped, so that what
  follows it moves up: a due date becomes the owner (`SummaryDrafts.BlankColumnIsSkipped`).
- **Items after `---`.** A tags or participants block inserted on top of an item line takes it, and the next rewrite
  deletes it (`MarkdownAbsorption.AbsorbsIff`).
- **Lines with `$`.** Of a heading, a project field or an info line: a second value makes the first one forgotten, in all
  texts that have the line, exactly when the first is one line with no acting `` $` `` or `$'` and the second has no
  acting `$&` (`LineSubstitution.LineAbsorbsIff`). So a project with a line break in it adds its further lines to the
  info line at each rewrite. A title that is `$&` repeats the old heading (`LineSubstitution.MatchTitleNeverSettles`).

## Model

| member | source | states |
|---|---|---|
| UploadPage.GateTheorem | src/components/meeting-recorder.tsx:424-437 | over every quiet run of a page, with any number of meetings, crashes, lost replies, retries and recoveries, an open gate means the server holds exactly the recorded chunks 1..n of the meeting shown, `expectedLastSequence` is n, and the seal is accepted if and only if the last applied ack reported the full count |
| UploadProtocol.GateMeansComplete | src/components/meeting-recorder.tsx:424-437 | in any state that keeps the three invariants an open gate leaves nothing awaited, queued or unacknowledged, and decides the seal |
| UploadPage.InOrderAcksSeal | src/components/meeting-recorder.tsx:434-437 | with acks of the meeting shown applied in the order the server produced them, an open gate always seals and `totalBytes` is the sum of all chunk sizes, also after recovery seeded `savedBytes` from marked chunks |
| UploadPage.DurableChain | src/components/meeting-recorder.tsx:174-255 | in every run, quiet or not, of every meeting: marked chunks are in the manifest and the manifest holds nothing that was not recorded; and when nothing of a meeting goes on at the time a new one begins, `uploaded` never exceeds the manifest of the meeting shown |
| UploadPage.CountersAreExact | src/components/meeting-recorder.tsx:140-172 | over quiet runs of a page `pending` is the number of issued chunks of the meeting shown neither acknowledged nor failed and `failed` the size of its failed set |
| UploadPage.CalmIsQuiet | src/components/meeting-recorder.tsx:346-352 | recovery and the retry button always start balanced resets, whatever happens during the load, and the `online` listener does when it starts after the recording with nothing pending: such runs, with new meetings begun on a settled page, are quiet |
| UploadPage.NewMeetingIff | src/components/meeting-recorder.tsx:388-411 | after any run the reset button leaves counters that describe the next meeting in every quiet continuation if and only if nothing of any meeting goes on; after a quiet run, if and only if nothing is pending and no resync is under way |
| UploadPage.BeginIff | src/components/meeting-recorder.tsx:257-272 | after any run the start of a recording leaves such counters if and only if nothing of an earlier meeting goes on |
| UploadPage.SettledIffIdle | src/components/meeting-recorder.tsx:388-411 | by the counters this condition is that no handler waits and no resync runs or is about to |
| UploadPage.StepKeepsStored | src/components/meeting-recorder.tsx:126-352 | every step of a page, of the meeting shown or another, keeps for every meeting: uploadedAt within manifest within sent within persisted, and answers in flight that cover their chunks |
| UploadPage.StepKeepsReported | src/components/meeting-recorder.tsx:140-160 | while nothing of other meetings goes on, every step of a page keeps `uploaded` between the distinct acknowledged chunks of the meeting shown and its manifest size, and `savedBytes` the bytes of the prefix last reported |
| UploadPage.StepKeepsGood | src/components/meeting-recorder.tsx:140-172 | every quiet step of a page, new meetings and recoveries included, keeps these, the ledger of the meeting shown, and that nothing of other meetings goes on |
| UploadPage.AllElsewhereIs | src/components/meeting-recorder.tsx:140-172 | a meeting that is not shown goes on as it would alone, but on the counters of the one shown |
| UploadPage.MeetingRunIsPageRun | src/components/meeting-recorder.tsx:257-285 | every run of one meeting is a run of a page, quiet if and only if it is |
| UploadProgress.EveryMeetingCanBeSealed | src/components/meeting-recorder.tsx:290-345 | after any run, quiet or not, a page that loads can recover each stored meeting, and with its uploads delivered the gate opens and the seal is accepted with all of its chunks |
| UploadProgress.RecoverySeals | src/components/meeting-recorder.tsx:318-333 | the same of one meeting's upload, from every state with the page down |
| UploadProtocol.StepKeepsDurable | src/components/meeting-recorder.tsx:174-255 | every step, crash and reload included, keeps uploadedAt within manifest within sent within persisted, and every answer in flight covers its own chunk |
| UploadProtocol.StepKeepsCounted | src/components/meeting-recorder.tsx:140-172 | every balanced step of one meeting's upload keeps its ledger: each recorded chunk is acknowledged, failed, awaited or queued, only a queued one may be acknowledged too, and the counters count the open and the failed ones |
| UploadProtocol.LedgerHandled | src/components/meeting-recorder.tsx:150-169 | applying an ack or a failure to an awaited chunk keeps the ledger, lowers `pending` by one and never meets the `Math.max(0, ...)` clamp |
| UploadProtocol.LedgerSynced | src/components/meeting-recorder.tsx:236-247 | the same for a queued chunk of the resync; one acknowledged before changes no count |
| UploadProtocol.ResetKeepsCountedIff | src/components/meeting-recorder.tsx:227-234 | the reset of a resync keeps the ledger if and only if the loaded list holds every failed chunk, none whose handler waits, and as many acknowledged ones as handlers wait |
| UploadProtocol.ResetIsExactIff | src/components/meeting-recorder.tsx:230-234 | `pending` and `failed` are right after a reset if and only if the list holds every failed chunk and is as long as the chunks not acknowledged are many |
| UploadProtocol.StepKeepsLoading | src/components/meeting-recorder.tsx:222-235 | every step keeps what a resync between load and reset holds: a list of different recorded chunks, no upload of its own yet, and during recovery a quiet page |
| UploadProtocol.UploadedIsAll | src/components/meeting-recorder.tsx:150 | when everything recorded is acknowledged, the running maximum `uploaded` is exactly the number of recorded chunks, by counting the accepted prefix |
| UploadProtocol.SavedBytesAtGate | src/components/meeting-recorder.tsx:153 | then `savedBytes` is the manifest total exactly when the last ack applied reported the full count |
| UploadProtocol.SealIff | src/lib/server/meeting-audio-store.ts:818-826 | the manifest of all recorded chunks passes the seal exactly when the byte total is right |
| UploadProtocol.ManifestTotals | src/lib/server/meeting-audio-store.ts:747-750 | after any acceptance order the manifest is sorted, holds each accepted sequence once and totals their bytes |
| UploadFailures.OnlineResyncOpensGateEarly | src/components/meeting-recorder.tsx:346-352 | a run in which the online listener resyncs with a chunk in flight, the gate opens, and the server seals the audio with a recorded chunk missing |
| UploadFailures.RecordDuringLoadOpensGateEarly | src/components/meeting-recorder.tsx:227-234 | a run in which the online listener resyncs with nothing pending, a chunk is recorded during the load, the gate opens, and the server seals without that chunk |
| UploadFailures.AckDuringLoadLeavesGateShut | src/components/meeting-recorder.tsx:227-234 | a run in which an ack during the load leaves `pending` at 1 with everything acknowledged: the gate is shut and neither retry nor online can resync |
| UploadFailures.ReorderedAcksBlockSeal | src/components/meeting-recorder.tsx:153 | a quiet run in which all chunks are on the server, the gate is open, and the seal is refused because two acks were applied in reverse |
| UploadPageFailures.LateAckOpensGateEarly | src/components/meeting-recorder.tsx:388-411 | a run without any resync: the reset button is pressed with a chunk in flight, its late ack is counted for the next meeting, the gate opens, and the server seals with a recorded chunk missing |
| UploadPageFailures.LateFailureLeavesGateShut | src/components/meeting-recorder.tsx:162-172 | the same with a late failure: the next meeting is wholly acknowledged, the gate is shut, and a retry changes nothing |
| ChunkUploadClient.UploadRefs.UploadOnce | src/components/meeting-recorder.tsx:127-138 | a second upload of a chunk in flight shares the first; chunks are told apart by meeting and sequence |
| ChunkUploadClient.UploadRefs.ApplyAck | src/components/meeting-recorder.tsx:140-160 | the in-place ack is the ack on what its meeting sees, and every other meeting sees the new counters with its own keys |
| ChunkUploadClient.UploadRefs.ApplyFailure | src/components/meeting-recorder.tsx:162-172 | the same for a failure |
| ChunkUploadClient.UploadRefs.BeginResync | src/components/meeting-recorder.tsx:229-234 | the loop over unmarked chunks clears their failures, of their meeting alone, and sets the counters once |
| ChunkUploadClient.UploadRefs.RestoreCounters | src/components/meeting-recorder.tsx:320-330 | recovery adds the marked chunks of the loaded list to the acknowledged ones, takes the others off the failed ones, and counts both and the marked bytes |
| ChunkUploadClient.UploadRefs.Clear | src/components/meeting-recorder.tsx:391-394 | counters and keys of every meeting are cleared, open requests kept |
| ChunkUploadClient.DuplicatesChangeNoCount | src/components/meeting-recorder.tsx:142-164 | a repeated ack changes neither `pending` nor `failed` of settled books, a repeated failure or a failure after an ack changes nothing |
| ChunkUploadClient.AckKeepsExactIff | src/components/meeting-recorder.tsx:145-153 | an ack keeps the counters exact if and only if its chunk is not listed as failed, or nothing is pending: an ack after a failure lowers `pending` twice |
| ChunkUploadClient.FailureKeepsExact | src/components/meeting-recorder.tsx:163-169 | a failure of an issued chunk keeps the counters exact |
| AudioManifest.InsertAdds | src/lib/server/meeting-audio-store.ts:747-750 | a new chunk is inserted in order and adds its bytes and its sequence |
| AudioManifest.CompleteSequence | src/lib/server/meeting-audio-store.ts:818-820 | a sorted manifest of n chunks with sequences within 1..n is exactly 1..n |
| AudioManifest.SealAcceptedIff | src/lib/server/meeting-audio-store.ts:807-826 | of a sorted manifest the seal is accepted exactly when its sequences are 1 to the expected last one, none missing and none beyond, and its sizes add up to the expected total, neither being zero |
| BrowserRecordingStore.ChunkIdInjective | src/lib/browser-recording-store.ts:192-194 | keys are injective over all meeting ids and all sequences, padded or longer |
| BrowserRecordingStore.PersistKeepsSound | src/lib/browser-recording-store.ts:60-92 | persisting a chunk, new or rewritten, keeps for every meeting: `totalBytes` the sum of stored sizes, `totalChunks` the highest sequence, `uploadedChunks` the number of marked chunks |
| BrowserRecordingStore.PersistSums | src/lib/browser-recording-store.ts:86-88 | the new byte sum is the old one without the replaced chunk plus the new one, so the `Math.max(0, ...)` never clamps; marks are kept |
| BrowserRecordingStore.MarkKeepsSound | src/lib/browser-recording-store.ts:94-116 | marking keeps all counters agreeing with the chunks |
| BrowserRecordingStore.MarkAgrees | src/lib/browser-recording-store.ts:110 | the marked meeting's count goes up by one; the `Math.min(totalChunks, ...)` never clamps |
| BrowserRecordingStore.BeginKeepsSound | src/lib/browser-recording-store.ts:36-58 | beginning a session with nothing between its read and its put keeps all counters agreeing |
| BrowserRecordingStore.BeginAfterReadIff | src/lib/browser-recording-store.ts:36-58 | the session put from one found earlier keeps all counters agreeing if and only if the meeting's counters are still those found |
| BrowserRecordingStore.StatusKeepsSound | src/lib/browser-recording-store.ts:182-190 | a status change keeps all counters agreeing |
| BrowserRecordingStore.DeletionKeepsSound | src/lib/browser-recording-store.ts:153-180 | deleting any set of meetings keeps the invariants for all others |
| BrowserRecordingStore.DeletionIsExact | src/lib/browser-recording-store.ts:153-180 | deletion leaves other meetings' sessions and columns untouched and nothing of the deleted ones |
| BrowserRecordingStore.AscendingUnique | src/lib/browser-recording-store.ts:196-200 | a strictly ascending list of stored chunks is determined by its members, so the read order does not matter |
| BrowserRecordingStore.LoadedIs | src/lib/browser-recording-store.ts:196-200 | the filtered and sorted chunks are the stored column in order |
| BrowserRecordingStore.BrowserRecordingStore.Begin | src/lib/browser-recording-store.ts:36-58 | the new store value after read and put with nothing in between, all counters still agreeing |
| BrowserRecordingStore.BrowserRecordingStore.PutBegun | src/lib/browser-recording-store.ts:39-55 | the put alone, whatever was found: status, title and time are new, user and creation time those found |
| BrowserRecordingStore.BrowserRecordingStore.Persist | src/lib/browser-recording-store.ts:60-92 | the chunk is stored under its key as it was given, with the mark that key had; the session has the user, title, age, status and type it must; no other key or session changes; all counters still agree |
| BrowserRecordingStore.BrowserRecordingStore.MarkUploaded | src/lib/browser-recording-store.ts:94-116 | a first mark is kept for good, neither this chunk's audio nor another chunk changes, and of the sessions only a counter and a time; all counters still agree |
| BrowserRecordingStore.BrowserRecordingStore.UpdateStatus | src/lib/browser-recording-store.ts:182-190 | the meeting's session, if there is one, has the new status and time, and nothing else changes; all counters still agree |
| BrowserRecordingStore.BrowserRecordingStore.ReadMeetingChunks | src/lib/browser-recording-store.ts:196-200 | returns exactly the meeting's chunks, ascending by sequence |
| BrowserRecordingStore.BrowserRecordingStore.Load | src/lib/browser-recording-store.ts:141-151 | returns the session with its chunks in order, or nothing when there is no session or no chunk |
| BrowserRecordingStore.BrowserRecordingStore.LoadLatest | src/lib/browser-recording-store.ts:126-139 | returns the user's session that is not finalized, has chunks and was updated last, with exactly its chunks in order; nothing exactly when the user has no such session |
| BrowserRecordingStore.BrowserRecordingStore.DeleteChunks | src/lib/browser-recording-store.ts:159-161 | the deletion loop removes exactly the chunks of the given meetings |
| BrowserRecordingStore.BrowserRecordingStore.Delete | src/lib/browser-recording-store.ts:153-164 | session and chunks of that meeting are gone, all others are as they were |
| BrowserRecordingStore.BrowserRecordingStore.DeleteForUser | src/lib/browser-recording-store.ts:166-180 | exactly the sessions of that user are gone, and exactly the chunks whose session they were; what stays is unchanged |
| UploadRefinement.PersistRefines | src/components/meeting-recorder.tsx:183 | the store transaction of a new chunk is the protocol's record step |
| UploadRefinement.MarkRefines | src/components/meeting-recorder.tsx:196 | the store's mark is the protocol's mark |
| UploadRefinement.LoadRefines | src/components/meeting-recorder.tsx:325-330 | of the loaded chunks the unmarked list, the marked set, its size and its bytes are the ones the protocol's load and reload use |
| RecorderPage.StepHolds | src/components/meeting-recorder.tsx:126-345 | every step of a meeting's upload is, on what the browser holds, what the code does: counting, storing and sending a chunk, applying an outcome, sending the next, resetting or rebuilding the counters |
| RecorderPage.StepAtHolds | src/components/meeting-recorder.tsx:140-172 | on a page the step changes that meeting so, and every other only by the counters it sees |
| RecorderPage.PageStepHolds | src/components/meeting-recorder.tsx:257-285 | a start and the reset button clear the counters and keys of every meeting and leave its chunks and open requests; a page that goes away drops those too |
| RecorderPage.NamesIssued | src/components/meeting-recorder.tsx:174-255 | in every state a run can reach the chunks that wait for an outcome are recorded ones, so the methods' conditions are met |
| RecorderPage.RecorderPage.HandleAudioChunk | src/components/meeting-recorder.tsx:174-194 | the very chunk is stored under its key and sent, its session is the user's, no other key or session changes; store and refs hold, of every meeting, what the page's record step leaves |
| RecorderPage.RecorderPage.Conclude | src/components/meeting-recorder.tsx:194-215 | with an ack the chunk is marked, unless it was, without one the store is as before, and no audio changes; they hold what an ack or a failure leaves, of the meeting shown or of an earlier one |
| RecorderPage.RecorderPage.NextTurn | src/components/meeting-recorder.tsx:236-247 | they hold what a turn of the resync loop leaves: one outcome noted, and the next chunk of the list sent with its stored content unless a request for it is open |
| RecorderPage.RecorderPage.RequestSettled | src/components/meeting-recorder.tsx:131-135 | they hold what a settled request leaves |
| RecorderPage.RecorderPage.LoadUnmarked | src/components/meeting-recorder.tsx:227-229 | the load reads exactly the protocol's list of unmarked chunks, each as it is stored |
| RecorderPage.RecorderPage.ResetCounters | src/components/meeting-recorder.tsx:230-236 | they hold what the reset leaves, the first upload sent |
| RecorderPage.RecorderPage.StartRecording | src/components/meeting-recorder.tsx:257-272 | they hold what the start of a recording leaves: cleared counters and keys, the session begun |
| RecorderPage.RecorderPage.NewMeeting | src/components/meeting-recorder.tsx:388-411 | they hold what the reset button leaves: cleared counters and keys, open requests of earlier meetings kept |
| RecorderPage.RecorderPage.LoadPage | src/components/meeting-recorder.tsx:120-124 | a page that loads holds fresh refs and the stored chunks |
| RecorderPage.RecorderPage.Recover | src/components/meeting-recorder.tsx:297-330 | from the stored chunks of the recovered meeting, the last one shown or another, the recovery effect joins the audio and rebuilds the counters of the page's recovery |
| RecorderPage.RecorderPage.ShowEmpty | src/components/meeting-recorder.tsx:297-301 | when nothing is recovered they hold a new meeting beside the stored ones |
| RecorderPage.RecorderPage.CanFinalize | src/components/meeting-recorder.tsx:424-437 | for objects that hold what a quiet run of the page leads to, the gate read off the counters means the server has exactly the recorded chunks and decides the seal |
| RecorderPage.RecorderPage.StopRecording | src/components/meeting-recorder.tsx:379-386 | no chunk changes, the session is stopped, and store and refs hold what the end of a recording leaves |
| RecorderPage.PersistCarries | src/components/meeting-recorder.tsx:183-194 | storing and sending a new chunk keeps that every request carries what is stored under its key |
| RecorderPage.SentCarries | src/components/meeting-recorder.tsx:236-247 | so does sending a loaded chunk again, whatever was marked meanwhile |
| RecordedAudio.RecordAndRecover | src/components/meeting-recorder.tsx:297-310 | a recording from its start to its end, with any acks, failures and resyncs of this and earlier meetings in between, then a page that loads: the recovered audio is the recorder's own, every byte it was given in order |
| RecordedAudio.Record | src/hooks/use-stable-recorder.ts:298-343 | after such a run the stored chunks are exactly the emitted ones, and the recorder's audio is all data it was given |
| RecordedAudio.AudioIsRead | src/components/meeting-recorder.tsx:305-310 | when the stored chunks are the emitted ones, loading and joining gives the emitted bytes |
| RecordedAudio.AudioGrows | src/components/meeting-recorder.tsx:183 | storing the next chunk keeps that, for the list with the chunk added |
| RecordedAudio.TakenIsRecorded | src/lib/server/meeting-audio-store.ts:707-765 | whichever request of each chunk the server took, joining what they carry gives the recorder's audio |
| Recovery.StableRecorder.OnDataAvailable | src/hooks/use-stable-recorder.ts:298-323 | chunks are numbered 1, 2, 3, ... without gaps, empty data is ignored, and the in-memory list is what was emitted |
| Recovery.StableRecorder.OnStop | src/hooks/use-stable-recorder.ts:333-343 | the finished audio is all emitted chunks joined |
| Recovery.TrafficKeepsSound | src/lib/browser-recording-store.ts:36-190 | the store invariants hold after any sequence of begin, persist, mark, status and delete operations |
| Recovery.RecoveryRebuildsRecording | src/components/meeting-recorder.tsx:295-310 | after any traffic that stored the recording's chunks, in any order and with rewrites, loading and joining gives the recorder's own bytes |
| RealtimePcm.PcmBuffer.Take | apps/mobile/App.tsx:1998-2019 | the nested, partially consuming loop takes exactly the first bytes of the queue and leaves the rest; a short queue leaves zeros |
| RealtimePcm.PcmBuffer.Accumulate | apps/mobile/App.tsx:1947-1958 | the queue after a buffer is the remainder of old queue and buffer, and the full 320000-byte blocks are emitted in order, each stamped 10000 ms |
| RealtimePcm.PcmBuffer.Flush | apps/mobile/App.tsx:1960-1966 | the remainder goes out as one chunk stamped with its rounded duration, at least 1 ms, and the queue is empty |
| RealtimePcm.CutIsUnique | apps/mobile/App.tsx:1954-1957 | the cut into full blocks and a shorter remainder is the only one that rebuilds the stream |
| RealtimePcm.CutCarriesOver | apps/mobile/App.tsx:1947-1958 | cutting what is queued and then more bytes is cutting the whole |
| RealtimePcm.RunMeetsReference | apps/mobile/App.tsx:1947-1966 | over every sequence of buffers, flushes and resets the emitted chunks are those of a reference that cuts the concatenated bytes of each stretch once |
| RealtimePcm.SplitIndependence | apps/mobile/App.tsx:1947-1966 | two ways of splitting the same bytes into buffers give the same chunks with the same stamps, the same queue, and the same chunk at the flush |
| RealtimePcm.BytesConserved | apps/mobile/App.tsx:1947-2019 | without resets, emitted chunks followed by the queue are all bytes accepted so far |
| RealtimePcm.DurationTracksAudio | apps/mobile/App.tsx:1962-1965 | with k flushes, 32 times the reported milliseconds is at most 15 k below and 31 k above the emitted bytes |
| RealtimePcm.FlushMsIsNearest | apps/mobile/App.tsx:1965 | of all durations of at least a millisecond the stamp is the nearest to the audio's own, the longer of two |
| RealtimePcm.FullChunksDoNotDrift | apps/mobile/App.tsx:237-239 | full chunks contribute no drift |
| RecorderLifecycle.MutualExclusion | apps/mobile/App.tsx:4138-4362 | in every interleaving at most one pause/resume or stop/reset body is under way, the two flags say which, and a pending stop exists only during a transition |
| RecorderLifecycle.NoStopIsLost | apps/mobile/App.tsx:4356-4360 | whenever no transition is under way, every accepted stop has stopped the recorder |
| RecorderLifecycle.NoRecordAfterStopAccepted | apps/mobile/App.tsx:4188-4193 | between a stop's acceptance and its `recorder.stop()`, `recorder.record()` is never called |
| RecorderLifecycle.PendingStopStarts | apps/mobile/App.tsx:4207-4212 | the step that ends a transition with a pending stop starts exactly that stop and records nothing |
| RecorderLifecycle.StopIsTakenUp | apps/mobile/App.tsx:4356-4362 | what becomes of a stop in any reachable state: it waits exactly during a transition, starts at rest, joins a stop under way, and is dropped exactly during a media reset |
| RecorderLifecycle.ResetIsTakenUp | apps/mobile/App.tsx:4263-4282 | a media reset is taken up once: during a transition as a pending stop, at rest as the reset itself, disarmed, during a stop not at all |
| RecorderLifecycle.ShownIsTrue | apps/mobile/App.tsx:4138-4584 | in every run the app shows a recording exactly when the last call that worked started the recorder, a pause exactly when it paused it or the recorder was found stopped, processing exactly during a stop or reset, completion exactly after a stop that kept the recording, and an error after the other ends |
| RecorderLifecycle.ResumeRestarts | apps/mobile/App.tsx:4163-4213 | resuming a paused recording with time left: whatever happens until the stream answers, the call then records for the seconds that remained, armed, or starts the stop requested meanwhile |
| RecorderLifecycle.CompletionIsTaken | apps/mobile/App.tsx:4561-4584 | while a recording is shown, a native completion ends it: at once, or when the transition under way ends, as the limit's exactly when at most two seconds remained |
| RecorderLifecycle.LateEventIsIgnored | apps/mobile/App.tsx:4561-4584 | a native event without completion, or after a stop or a loss, changes nothing in any run |
| RecorderLifecycle.GenerationCountsEndings | apps/mobile/App.tsx:4183-4188 | in every run the generation is the number of endings so far plus one, so a resume begun before an ending no longer matches it |
| RecorderLifecycle.LimitCompletionIff | apps/mobile/src/recording-storage.ts:39-56 | a completion is the limit's exactly when it is neither failed nor a reset and at most two seconds remain |
| RecorderLifecycle.RemainingIsTight | apps/mobile/src/recording-storage.ts:58-72 | the remaining seconds end at the limit or less than a second after it |
| RecorderLifecycle.ResumePastLimitStops | apps/mobile/App.tsx:4171-4175 | resuming at or past two hours: whatever happens until the call continues, it ends in the stop that is then pending and the recorder is never started |
| RecorderLifecycle.StepKeepsGood | apps/mobile/App.tsx:4138-4584 | every step, native events included, keeps exclusion, the pending-stop rule and the log's promises |
| RecorderLifecycle.Recorder.StopRecording | apps/mobile/App.tsx:4356-4395 | the refs after a stop request up to its first await |
| RecorderLifecycle.Recorder.EndTransition | apps/mobile/App.tsx:4207-4212 | the refs after the `finally` of pause and resume |
| RecorderLifecycle.Recorder.PauseRecording | apps/mobile/App.tsx:4138-4161 | the refs after a pause |
| RecorderLifecycle.Recorder.ResumeRecording | apps/mobile/App.tsx:4163-4182 | the refs after a resume up to its first await |
| RecorderLifecycle.Recorder.ResumeAfterStream | apps/mobile/App.tsx:4188-4213 | the refs after the awaited stream start |
| RecorderLifecycle.Recorder.ResumeAfterOwnStop | apps/mobile/App.tsx:4171-4175 | the refs after a resume past the limit has awaited its stop |
| RecorderLifecycle.Recorder.FinishBody | apps/mobile/App.tsx:4538-4540 | the refs after the body of a stop or a reset ends |
| RecorderLifecycle.Recorder.HandleMediaServicesReset | apps/mobile/App.tsx:4263-4282 | the refs after a media reset up to its first await |
| RecorderLifecycle.Recorder.OnNativeStatus | apps/mobile/App.tsx:4561-4584 | the refs after a native completion event, by its disposition, the comparison with the limit included |
| RecorderLifecycle.NothingRemainsIff | apps/mobile/src/recording-storage.ts:58-72 | no second remains exactly when the duration is at least two hours; a duration that is not finite counts as none |
| PendingSync.MergeCoversIff | apps/mobile/src/pending-sync.ts:5-21 | by the two requests alone: a merge serves all that a request asked for, unless it was for all recordings and met one for a single meeting, or was forced and met one for another meeting |
| PendingSync.TargetsAre | apps/mobile/src/pending-sync.ts:44-67 | the targets of a request are, oldest first and each as often as stored, exactly the user's finished recordings that are neither local only nor being deleted, of the named meeting if any, finalized ones only when that meeting is forced, waiting ones only when forced |
| PendingSync.MergeShowsIff | apps/mobile/src/pending-sync.ts:15-20 | a merged request shows its result exactly when it is for one meeting and one of the two wanted it shown |
| PendingSync.MergedAllCoversIff | apps/mobile/src/pending-sync.ts:5-21 | after any number of merges a request is served exactly when the scope that is left is its own, or is all recordings and it was not forced |
| PendingSync.MergedScope | apps/mobile/src/pending-sync.ts:10-14 | that scope is found by pairing off the names: a run of one name and the first different one cancel out to all recordings |
| PendingSync.RetryServedIff | apps/mobile/src/pending-sync.ts:10-20 | of any number of forced retries of different meetings all are served when their number is even, and only the last when it is odd |
| PendingSync.DefaultCoversIff | apps/mobile/src/pending-sync.ts:37-66 | a request without options serves all that another asked for exactly when that one was not forced |
| PendingSync.ThirdRetryDropsFirstTwo | apps/mobile/src/pending-sync.ts:10-20 | two waiting retries are both served, and a third drops them |
| DeferredSync.DeferredIsNeverStranded | apps/mobile/App.tsx:4604-4622 | in every run that keeps the rendering rule a deferred request always has a busy recorder, a render to come, a running sync or an armed timer behind it |
| DeferredSync.RequestsAreAccountedFor | apps/mobile/App.tsx:1891-1897 | in every run each request made, by a caller or a timer, is in exactly one place: waiting, with the deferred options the merge of all that wait, or in one batch that was started, refused by the checks, or forgotten at logout; bodies never overlap and each belongs to one batch |
| DeferredSync.FateOfRequest | apps/mobile/App.tsx:4624-4641 | a batch serves each of its requests exactly by the merge condition, a refused batch that covers a request would have been refused for it alone, and the periodic retry asks again for exactly the unforced ones |
| DeferredSync.StepKeepsGoodIff | apps/mobile/App.tsx:1891-1909 | every step keeps single flight and the deferral rule, except exactly a release of a busy flag that was never rendered, of the ref only if options then wait unattended |
| DeferredSync.StepKeepsGood | apps/mobile/App.tsx:1891-1909 | every step under the rendering rule keeps them |
| DeferredSync.EndOfBusyDrains | apps/mobile/App.tsx:1899-1909 | the render that ends a busy period arms the drain timer, whose firing takes the deferred request |
| DeferredSync.EndOfSyncDrains | apps/mobile/App.tsx:4877-4885 | the end of a sync arms the wake timer for what was deferred; its firing starts a body exactly when session, network and recordings allow it, and leaves all to the end of a busy period |
| DeferredSync.PeriodicRetrySyncs | apps/mobile/App.tsx:1891-1897 | with nothing in the way the periodic retry starts a body for what was deferred, or else for every unforced target, exactly when session, network and recordings allow it |
| DeferredSync.BusyDefers | apps/mobile/App.tsx:4604-4612 | while a busy recorder is shown every request but a forced retry of the current meeting waits, merged with what waits already |
| DeferredSync.ProceedsIff | apps/mobile/App.tsx:4624-4641 | the checks before a sync body pass exactly when session and network are there and some recording is owed: the user's, finished, not being deleted, its mode fixed, and asked for |
| DeferredSync.UnrenderedReleaseStrandsIff | apps/mobile/App.tsx:685-687 | a busy flag taken back unrendered, in either way, and then rendered strands exactly options that wait with nothing armed |
| DeferredSync.UnrenderedReleaseStrands | apps/mobile/App.tsx:3806-3809 | such a state is reached |
| DeferredSync.SyncQueue.SyncPendingRecordings | apps/mobile/App.tsx:4604-4647 | the refs after a request up to its first await, by session, network and the targets it selects; deferred exactly when busy or in flight |
| DeferredSync.SyncQueue.EndBody | apps/mobile/App.tsx:4872-4886 | the refs after a sync body ends |
| DeferredSync.SyncQueue.WakeTimerFires | apps/mobile/App.tsx:4880-4884 | the refs after the wake timer fires, which leaves a busy period to its end |
| DeferredSync.SyncQueue.CommitRender | apps/mobile/App.tsx:1899-1909 | the refs and the drain timer after a render |
| SyncPipeline.UploadsAreOrderly | apps/mobile/App.tsx:4658-4726 | over all crashes, failures and retries: upload calls come after a pending realtime close and all carry the one id of the list and the index; finalize calls come after the record of the upload; nothing is put on record that did not succeed before |
| SyncPipeline.SyncCompletes | apps/mobile/App.tsx:4658-4791 | a sync in which every await succeeds makes exactly the calls the recording still owes, in order, and leaves it closed, uploaded under the id it had or the fresh one, finalized and without attempts, in the index and the list |
| SyncPipeline.FinalizedIsLeftAlone | apps/mobile/src/pending-sync.ts:60 | over runs with a knowing list and no forced retry, no server call follows the record of the finalization |
| SyncPipeline.FinalizeIsRecorded | apps/mobile/App.tsx:4782-4791 | a finalize call that succeeds and is written leaves index and list finalized, with no attempts |
| SyncPipeline.FinalStays | apps/mobile/src/recording-store.ts:845-852 | no run takes a finalization or a recorded upload off the index |
| SyncPipeline.FailureIsCounted | apps/mobile/App.tsx:4793-4821 | a failed await whose error is written ends the sync with one attempt more, none for a refused session, and loses no progress |
| SyncPipeline.ProgressIsSaved | apps/mobile/App.tsx:4694-4704 | the parts that the server has are on record before the upload goes on |
| SyncPipeline.KnownUploadsAreNotRepeated | apps/mobile/App.tsx:4636-4640 | in runs that start each sync with a list that knows of a recorded upload, no upload call follows the record |
| SyncPipeline.LateUploadIff | apps/mobile/App.tsx:1715-1719 | a sync can upload after the upload is on record if and only if it starts while the list does not know of it |
| SyncPipeline.UploadCallsAgree | apps/mobile/App.tsx:4682-4702 | two upload calls of any run carry one id, and with a knowing list no finalize call lies between them |
| SyncPipeline.ProgressSurvives | apps/mobile/App.tsx:4673-4726 | over runs that start each sync with a list that knows the id and the close of the index, the index never loses an id, a finished close or a recorded upload |
| SyncPipeline.ProgressLostIff | apps/mobile/App.tsx:1715-1719 | a sync can lose an id or a finished close from the index if and only if it starts while the list does not know of it |
| SyncPipeline.UploadIsRepeated | apps/mobile/App.tsx:4715-4726 | the record of the upload takes effect but throws, and so does the error record: the next sync uploads again |
| SyncPipeline.IdIsReplaced | apps/mobile/App.tsx:4682-4696 | the same with a first upload id: the next sync puts another id in its place |
| SyncPipeline.StepKeepsGood | apps/mobile/App.tsx:4658-4821 | every step, with a write that may take effect although it fails or the app dies, keeps the order of events |
| SyncPipeline.SyncJob.Begin | apps/mobile/App.tsx:4659-4672 | the job's state up to the first await, from the record in the list |
| SyncPipeline.SyncJob.OnProgress | apps/mobile/App.tsx:4694-4702 | the job's state when the server has more parts, up to the write of their number |
| SyncPipeline.SyncJob.AfterSuccess | apps/mobile/App.tsx:4673-4791 | the job's state from a successful await to the next |
| SyncPipeline.SyncJob.AfterAwait | apps/mobile/App.tsx:4793-4821 | the job's state after success, failure or a crash at any await; a write that succeeds updates the list, one that throws leaves it behind |
| MarkdownAbsorption.AbsorbsIff | src/lib/meeting-markdown.ts:8-63 | for metadata supplied in full, single-line and with no `$` a replacement acts on: writing `a` then `b` equals writing `b` alone, if and only if the text does not open with `---` and an item line while it has a project line and lacks a tags or participants block |
| MarkdownAbsorption.WrittenReads | src/lib/meeting-markdown.ts:16-33 | after a rewrite every slot that was there, or has a place, holds the cleaned value, whichever slots are put around it |
| MarkdownAbsorption.WrittenKeepsBody | src/lib/meeting-markdown.ts:8-36 | everything that is no slot's and not a blank line survives a rewrite, in order |
| MarkdownAbsorption.WrittenTrims | src/lib/meeting-markdown.ts:14-35 | trimming a written text undoes the final newline and only that, also after a block at the end |
| MarkdownAbsorption.WrittenEnds | src/lib/meeting-markdown.ts:14-35 | a rewritten text ends in one newline, or in two behind a list at its end, and is trimmed otherwise |
| MarkdownAbsorption.Damages | src/lib/meeting-markdown.ts:56-62 | on every text outside the condition the two results differ: the second write deletes the items the first one took |
| MarkdownAbsorption.ItemFirstIsBad | src/lib/meeting-markdown.ts:62 | concrete texts outside the condition |
| MarkdownAbsorption.MatchInTitleGrows | src/lib/meeting-markdown.ts:17 | a title `$&` makes every rewrite two characters longer |
| MetadataText.TitleIsShown | src/lib/meeting-markdown.ts:8-18 | in the text itself, with any part of the metadata missing: the first heading line is `# ` and the supplied title with single spaces, if there was a heading and a title; otherwise it is as before |
| MetadataText.ProjectIsShown | src/lib/meeting-markdown.ts:19-21 | the first project line is `project: ` and the supplied project trimmed, if there is one and a place; without one it is as before |
| MetadataText.InfoIsShown | src/lib/meeting-markdown.ts:31-34 | the two info lines show the trimmed project and the nonempty names in order, with single spaces, or that there are none |
| MetadataText.ListsAreShown | src/lib/meeting-markdown.ts:11-30 | the participants list holds those names; the tags list `meeting` and then each supplied tag once, trimmed and without its `#`, in the order first supplied |
| MetadataText.InsertionIs | src/lib/meeting-markdown.ts:38-63 | a missing slot is added as one piece of text, an info line under a blank line behind a heading, the rest behind the opening `---`; a text without a place stays as it is |
| MetadataText.PartWritten | src/lib/meeting-markdown.ts:16-34 | with any part missing, the rewritten text reads as the supplied slots put one after the other |
| MetadataText.PartKeeps | src/lib/meeting-markdown.ts:16-22 | a line whose value is missing stays as it was |
| MetadataText.FirstLineIs | src/lib/meeting-markdown.ts:17 | the first line with a prefix, found line by line, is the segment the pattern matches |
| MetadataText.JoinedGrows | src/lib/meeting-markdown.ts:33 | joined names grow by the separator and the next name |
| LineSubstitution.LineAbsorbsIff | src/lib/meeting-markdown.ts:16-49 | for a heading, project field or info line: the second value makes the first forgotten in all texts with the line if and only if the first is one line with no acting sequence for the text around the match and the second has none for the match; `$$` is not one |
| LineSubstitution.LineIdempotentIff | src/lib/meeting-markdown.ts:16-49 | writing one such value twice is writing it once, in all texts with the line, if and only if it is one line with no acting sequence |
| LineSubstitution.MatchTitleNeverSettles | src/lib/meeting-markdown.ts:8-36 | in a whole rewrite, too, a title `$&` puts another `# ` in front of the old heading line each time |
| LineSubstitution.SpelledMeans | src/lib/meeting-markdown.ts:41-62 | a replacement string written from characters, `$` doubled, and from references to match, sides and group comes out as it is meant |
| MeetingMarkdown.PutIs | src/lib/meeting-markdown.ts:38-63 | a replacement on the text, found or inserted, is the put of its slot on the text's segments |
| MeetingMarkdown.PutCanonical | src/lib/meeting-markdown.ts:56-62 | the resulting segments are again what the text reads as, unless a block lands on top of an item |
| MeetingMarkdown.TagsAre | src/lib/meeting-markdown.ts:12-13 | the written tags are `meeting` first and then every cleaned tag, each once |
| MeetingMarkdown.ExpandInert | src/lib/meeting-markdown.ts:41-62 | a replacement string with no active `$` is written as it is |
| MeetingMarkdown.SpacedIs | src/lib/meeting-markdown.ts:48 | of a project field line feeds become spaces and nothing else changes; it is one line unless it has another terminator |
| MetadataSlots.AbsorbAll | src/lib/meeting-markdown.ts:16-33 | on segments, putting all of `a` and then all of `b` is putting all of `b`, insertions included |
| MetadataSlots.Commute | src/lib/meeting-markdown.ts:16-33 | two slots can be put in either order once one of them has its place |
| MetadataSlots.PutAllReads | src/lib/meeting-markdown.ts:16-33 | each slot ends up with what was put although later slots are put around it |
| MarkdownSegments.SegsRender | src/lib/meeting-markdown.ts:57 | a canonical segment list is what its text reads as |
| MarkdownSegments.SegsCanonical | src/lib/meeting-markdown.ts:57 | the reading of every text is canonical |
| MarkdownSegments.RenderSegs | src/lib/meeting-markdown.ts:57 | reading loses nothing: rendering the reading gives the text back |
| MarkdownSegments.TakeItemsIs | src/lib/meeting-markdown.ts:57 | the greedy item match consumes whole items, ends where no item follows, and may leave the last item's terminator |
| SummaryDrafts.WebPairsRoundTrip | src/components/meeting-summary-editor.tsx:180-208 | printing and parsing decisions or speaker views is the identity if and only if there are at most 20 rows and every row is clean; ids then number the rows |
| SummaryDrafts.WebActionsRoundTrip | src/components/meeting-summary-editor.tsx:210-225 | the same for actions, status included, with at most 30 rows |
| SummaryDrafts.WebLinesRoundTrip | src/components/meeting-summary-editor.tsx:172-178 | the same for plain lines, with at most 12 |
| SummaryDrafts.PhoneDecisionsRoundTrip | apps/mobile/App.tsx:8012-8034 | on the phone the identity if and only if every title is a normal field and every detail is one or empty, without a limit |
| SummaryDrafts.PhoneActionsRoundTrip | apps/mobile/App.tsx:8016-8051 | the same for actions with three normal fields |
| SummaryDrafts.PhoneViewsRoundTrip | apps/mobile/App.tsx:8083-8103 | the same for speaker views, with at most 20 rows |
| SummaryDrafts.PhoneLinesRoundTrip | apps/mobile/App.tsx:8053-8059 | the same for plain lines, with at most 12 |
| SummaryDrafts.PhoneDecisionSavesAreStable | apps/mobile/App.tsx:8020-8034 | whatever was typed, saved decisions read back the same when printed and saved again |
| SummaryDrafts.PhoneViewSavesAreStable | apps/mobile/App.tsx:8083-8096 | the same for speaker views |
| SummaryDrafts.PhoneActionSavesAreStable | apps/mobile/App.tsx:8036-8051 | the same for actions |
| SummaryDrafts.WebPairSavesAreStableIff | src/components/meeting-summary-editor.tsx:180-208 | on the web a saved list reads back the same if and only if no kept row was typed with a bullet behind white space or behind a first bullet |
| SummaryDrafts.WebActionSavesAreStableIff | src/components/meeting-summary-editor.tsx:210-225 | the same for actions |
| SummaryDrafts.WebLineSavesAreStableIff | src/components/meeting-summary-editor.tsx:172-178 | the same for plain lines |
| SummaryDrafts.PhoneLineSavesAreStableIff | apps/mobile/App.tsx:8053-8059 | plain lines on the phone follow the same rule |
| SummaryDrafts.SecondBulletIsEaten | src/components/meeting-summary-editor.tsx:227-232 | every bulleted row typed with one more bullet is such a failure |
| SummaryDrafts.EditorsAgree | apps/mobile/App.tsx:8008-8051 | rows clean for the web with normal spacing mean the same list to both editors |
| SummaryDrafts.PhoneActionReads | apps/mobile/App.tsx:8036-8051 | a typed row of one to four filled columns, with either bar, is the action of those columns, the open ones to be confirmed, confirmed exactly when the fourth contains 确认 |
| SummaryDrafts.PhoneDecisionReads | apps/mobile/App.tsx:8020-8096 | the same for decisions, with an empty detail, and speaker views, with an unknown one |
| SummaryDrafts.BlankColumnIsSkipped | apps/mobile/App.tsx:8098-8103 | a blank column is dropped and what follows moves up |
| SummaryDrafts.NotYetConfirms | apps/mobile/App.tsx:8048 | a status typed as 待确认 is saved as confirmed |
| SummaryDrafts.WebPairReads | src/components/meeting-summary-editor.tsx:180-208 | on the web a typed row, behind a bullet or not, is the pair of its first two columns trimmed, blank or missing ones unknown, and no row when neither is known |
| SummaryDrafts.WebActionReads | src/components/meeting-summary-editor.tsx:210-225 | the same for actions, which need a known task; confirmed exactly when the fourth column is 已确认 or the English word in any case |
| SummaryDrafts.LineReads | src/components/meeting-summary-editor.tsx:172-178 | a plain line loses one bullet and outer white space, on the phone also runs of it inside; blank lines go |
| DraftRows.RoundTripIff | src/components/meeting-summary-editor.tsx:180-225 | for any row parser and printer: lists survive exactly when within the limit and each row survives alone |
| DraftRows.SplitPrinted | src/components/meeting-summary-editor.tsx:21-23 | nonempty one-line rows come apart exactly where they were joined |
| DraftRows.TypedLinesSplit | src/components/meeting-summary-editor.tsx:172-175 | typed lines come apart exactly at the line breaks, any number of them being one boundary |
| DraftRows.ParseKeepsFirst | src/components/meeting-summary-editor.tsx:180-225 | a parse keeps the first rows that the parser accepts, in order and numbered by their lines: one that it accepts is left out only when as many as the limit allows come before it |
| Whitespace.NormalizeIs | apps/mobile/App.tsx:8101 | normalizing white space is idempotent and leaves no white space at the ends |
| Whitespace.TrimIs | src/components/meeting-summary-editor.tsx:231 | trimming leaves no white space at the ends, and trimmed strings are its fixed points |
| Whitespace.TrimTakesOnlySpace | src/components/meeting-summary-editor.tsx:231 | what trimming takes away, at both ends, is white space and nothing else |
| Whitespace.NormalizeKeepsWords | apps/mobile/App.tsx:8101 | normalizing keeps the words in order, with single spaces between them and none around |

## Left out

- UploadPage.GateTheorem: assumes quiet runs; on the `online` path and after an early reset button it is false, as the failing runs show.
- SyncPipeline.ProgressSurvives: assumes informed starts; without them it is false, as IdIsReplaced shows.
- DeferredSync.DeferredIsNeverStranded: assumes the rendering rule; without it it is false, as UnrenderedReleaseStrands shows.
- MarkdownAbsorption.AbsorbsIff: values with a `$` sequence that a replacement acts on are outside it; LineSubstitution settles them for each line slot in texts that have the line, not for tags and participants blocks or for insertions.
- RecorderLifecycle.MutualExclusion: begins after start; the failure tail of a start (apps/mobile/App.tsx:4065-4135) is not part of this model.
- The page's recovery step may recover any stored meeting, not only the one `BrowserRecordingStore.LoadLatest` picks, so the page model has more runs than the code.
- The deletion of a finished meeting's chunks at the reset button: the page model keeps them in the store.
- A second recording on a recovered or completed meeting id: its sequences restart at 1 and overwrite chunks.
- The realtime upload queue and the retry delays: no theorem rests on them.
- The number of parts that the record notes when an upload ends; until then parts are modelled (SyncPipeline.ProgressIsSaved).
- Writing part of the metadata twice: AbsorbsIff is about metadata supplied in full; what one write of a part leaves is in MetadataText.
- The other clean-up awaits of stop and media reset, which change no modelled flag, are one suspended body.
- Aliasing of PCM buffers: the queue holds copies, as `slice(0)` makes them.
- Participant and tag draft parsing (apps/mobile/App.tsx:8061-8081): caps and de-duplication settled by one reading.
- React rendering, message strings, IndexedDB, MediaRecorder, expo-audio and fetch internals.
