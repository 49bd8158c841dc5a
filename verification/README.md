# SENTRA: durable effects, proved

SENTRA drives browser conversations for its users. Its rule is that an uncertain effect is
never repeated: a call to the provider, a message to a chat, a delivery receipt, a browser
result. The rule is kept by small durable state machines, in SQLite tables on the host and in
`chrome.storage.local` in the extension, that must hold across crashes, replays and calls that
overlap. This project models those machines and proves what they promise.

`dafny verify dfyconfig.toml` checks everything.

## How the models are built

Each machine has a specification, a value with one map per table or key family, and a function
per atomic step: one database transaction, one call of the outside world, or one stretch of
JavaScript between two awaits. What a request carries from one step to the next is a *flight*;
flights are memory, and a crash or a restart drops them. A run is any sequence of steps, in any
order, with any arguments, so a theorem about all runs covers every interleaving, replay and
crash point. What the outside has seen (exchanges with the provider, receipts sent, jobs given
to the relay) is a log that no step takes back.

Beside it stands a class whose fields are the tables. Its methods are the code's transactions
and stretches, branch by branch, and each is proved to be the corresponding step. What each
answers, and the tables it leaves, its contract says a second time apart from the steps, of the
old tables alone and with the bounds as numbers: which answer comes exactly when, and which rows
have changed to what. Whole requests (`Start`, `Rebind`, `Record`, `Flush`, `Deliver`,
`Invalidate`, `Prepare`, `Observe`, `RunAll`, `Stage`, `Allocate`, `Claim`, `Commit`, `Resume`)
call them in turn, with any steps of other requests at every await. Their answers carry what the
theorems make of the state they leave, and for a request that nobody disturbs the contract says
exactly when it succeeds.

| files | subject |
|---|---|
| `VoiceLedger`, `VoiceSafety`, `VoiceTheorems`, `VoiceRuntime` | voice calls: start, rebind, heartbeat, status, stop and revoke |
| `VoiceTranscripts`, `JsonText` | the two ways into a call's transcript, and the JSON text behind its message identifiers |
| `ReceiptEmission` | delivery receipts of the service worker |
| `IdentityRevocation`, `IdentityRevival`, `IdentityRaces`, `IdentityWorker` | identity documents, revoke notices and poison |
| `ResultOutbox` | browser results waiting for the relay |
| `Base64`, `BinaryReassembly` | attachments fetched in chunks and turned into data URLs |
| `WebContinuation`, `WebContinuationSafety`, `WebContinuationTheorems`, `WebContinuationApproval`, `WebContinuationReopening`, `WebContinuationRaces`, `WebContinuationRuntime` | moving a chat from conversation A to B |
| `CompactResume`, `CompactResumeSafety`, `CompactResumeTheorems`, `CompactResumeRaces`, `CompactResumeRuntime` | pinned transcripts, and a resume past its gates to the Web layer's claim and commit |
| `AttachmentUpload`, `AttachmentSafety`, `AttachmentTheorems`, `AttachmentStore` | chunked uploads and their files |
| `StreamingLedger` | the bounded window on a stream of frames |
| `CommittedFiber`, `ConversationEvidence` | reading the page's committed tree, and who asked what |
| `NativeHost` | native-messaging framing |
| `ResponseCapture` | the poll for a stable response |
| `TabPool` | many tasks on a few tabs |
| `Basics`, `Maxima` | shared types, and the greatest of a set |

## Where the code and what is said of it differ

The model follows the code. Each of these is a proved statement with the condition under which
the code keeps its word, and a run in which it does not.

- Provider failure "never resurrects the call" (browser/voice.py:978-980). The write after a
  failed rebind has no guard (browser/voice.py:854), nor has the write of an expiry
  (browser/voice.py:675). A terminal call never becomes live again exactly when no rebind of it
  is between its reservation and its outcome: `NeverLiveAgainIff`, with the runs
  `FailedRebindRevives`, `RevivedCallCanBeActive` and `RevokedDuringRebind`. A revocation is
  final exactly when, besides, no expiry of the call is on its way: `RevokedIsFinalIff`, with the
  run `RevocationLost`. Without such a rebind, a terminal call can become revoked always, stopped
  unless it is revoked with no expiry on its way, and expired only if it is or an expiry is on
  its way: `BecomesIff`.
- A revoke notice stays until the relay has acknowledged it
  (edge_extension/service-worker.js:84-86). Between the comparison and the removal another
  invalidation can write. The removal can drop an unacknowledged notice exactly when, at the
  comparison, an invalidation that carries one for the tab is in flight: `EraseDropsUnackedIff`,
  with the run `NoticeErasedUnacknowledged`.
- No stale scan acquires fresh authority (edge_extension/service-worker.js:503-506). In a profile
  without poison, an epoch that has no document any more can be proven again exactly when an
  observation that had read the document is about to write it back, and either no notice of its
  tab is pending, or the flush in flight can still take that notice, or at most 128 notices are
  pending that it cannot take: `RevokedEpochProvenIff`. So a pending notice prevents it only when
  the queue has overflown. Two runs: `RevokedEpochProven`, in which the revocation had been
  acknowledged, and `DeniedEpochProvenLater`, in which its notice was still pending.
- A resume "can never resume a different transcription"
  (native_bridge/conversation_continuation.py:15-20). The comparison is made only when the caller
  names a digest. A resume that has its receipt and binding can publish exactly when it names
  none or the pinned one: `ResumePublishesIff`, with the run `UnnamedTranscriptIsResumed`. One
  that named a digest has published that digest: `PublishedTranscriptIsTheNamedOne`.
- A published allocation can be set back to CLAIMED (native_bridge/continuation_web.py:319-370
  never asks for its state). While an open allocation of its chat stands it stays published; it
  can be the next allocation to change exactly when none does, whether or not a claim is under
  way, and can be reopened at all exactly when the chat can come to have none:
  `AllocationReopensIff`, `EverReopensIff`, with the runs `PublishedAllocationReopens`, where the
  claim had prepared before the publication, and `LateClaimReopens`, where it begins after it. The
  transfer itself stays published: `PublicationIsFinal`.
- The bound of 40 chunks is published (browser/attachments.py:25, 218) but not enforced. An
  upload can acknowledge n chunks exactly when it declares at least n bytes, and so more than 40
  exactly when it declares more than 40 bytes: `ChunksIff` and `MoreThanFortyIff`.
- The tab pool neither loses nor duplicates (browser/tab_pool.py:43). Every run that is not
  cancelled returns a partition of its tasks exactly when they are distinct: `PartitionsIff`.
  Some run returns at all exactly when none is submitted more than twice, and reports a task both
  as completed and as failed exactly when, besides, that one is submitted twice: `CanReturnIff`
  and `ReportedBothWaysIff`.
- A wait returns text (browser/response_capture.py:118-166). It can return the empty text exactly
  when no stable sample is asked for and the baseline is not empty text itself: `EmptyTextIff`.

## Model

| member | source | states |
|---|---|---|
| `VoiceTheorems.AtMostOneExchangePerRequest` | browser/voice.py:479-511 | over every run, no start and no rebind request reaches the provider twice, and every exchange was reserved durably before it |
| `VoiceTheorems.ActiveCallStandsOnItsExchange` | browser/voice.py:865-879 | an active call's session description and provider reference are both the answer of the only exchange ever made for its current generation |
| `VoiceTheorems.GenerationNeverDecreases` | browser/voice.py:846-849 | the generation fence of a call only moves forward and its scope never changes |
| `VoiceTheorems.OutcomesNeverChange` | browser/voice.py:756-771 | an outcome once recorded for a request is what every later replay is told, whatever runs in between |
| `VoiceTheorems.RecordedOutcomeIsTrue` | browser/voice.py:529-547 | the recorded result of a start is the answer of that request's one exchange |
| `VoiceTheorems.NeverLiveAgainIff` | browser/voice.py:850-859 | a terminal call never becomes live again exactly when no rebind of it is between its reservation and its outcome |
| `VoiceTheorems.RevokedIsFinalIff` | browser/voice.py:671-678 | a revoked call stays revoked in every run exactly when neither such a rebind nor the write of its expiry is on its way |
| `VoiceTheorems.BecomesIff` | browser/voice.py:955-983 | which of stopped, revoked and expired a terminal call can come to have, exactly |
| `VoiceTheorems.RevocationLost` | browser/voice.py:671-678 | a run from the empty ledger in which a revoked call is written expired and then stopped, with no rebind anywhere |
| `VoiceTheorems.FailedRebindRevives` | browser/voice.py:852-856 | otherwise a failing rebind makes the call uncertain again |
| `VoiceTheorems.RevivedCallCanBeActive` | browser/voice.py:826-879 | and with a fresh key it can then be active again |
| `VoiceTheorems.RevokedDuringRebind` | browser/voice.py:976-983 | any live call can be revoked while a rebind of it is in flight |
| `VoiceSafety.StepKeepsInv` | browser/voice.py:448-1005 | every transaction, exchange and crash keeps the ledger sound and only adds to what it has promised |
| `VoiceRuntime.VoiceRuntime.StartRequest` | browser/voice.py:479-502 | refused exactly for a bad key, no opt-in or an incomplete offer; else a known key is a conflict exactly when its intent differs, a replay exactly when it has a result and unfinished otherwise, and only a new key reserves and proceeds |
| `VoiceRuntime.VoiceRuntime.StartPersist` | browser/voice.py:513-547 | an answer makes the call active for 3600 seconds with its result recorded, a failure makes it uncertain |
| `VoiceRuntime.VoiceRuntime.Start` | browser/voice.py:448-547 | a whole start, beside any other requests: the answer it gives, new or replayed, is that of the only exchange the provider ever saw for its key |
| `VoiceRuntime.VoiceRuntime.StatusRead` | browser/voice.py:565-590 | reading a status never reaches the provider; uncertain exactly for a reserved key without a call of the owner; a live call past its time is reported expired |
| `VoiceRuntime.VoiceRuntime.StatusExpire` | browser/voice.py:671-678 | the expiry is written whatever happened since it was read |
| `VoiceRuntime.VoiceRuntime.RebindRequest` | browser/voice.py:782-849 | the answer by the old tables: a known key is replayed exactly when its record has this intent and a result, outstanding without one, a conflict with another intent; refused exactly for a missing, foreign or out-of-scope row, an incomplete offer, a bad key, or, for a new key, another generation, a terminal call or a passed window |
| `VoiceRuntime.VoiceRuntime.RebindPersist` | browser/voice.py:865-879 | the answer takes effect only on the reserved generation of a call still uncertain; the outcome is recorded either way |
| `VoiceRuntime.VoiceRuntime.RebindMarkFailed` | browser/voice.py:852-859 | the failure is written without a guard |
| `VoiceRuntime.VoiceRuntime.Rebind` | browser/voice.py:772-885 | a whole rebind, beside any other requests: its answer is that of the only exchange for its key, is on record, and took effect only if the call is active at the generation it reserved |
| `VoiceRuntime.VoiceRuntime.Heartbeat` | browser/voice.py:808-814 | a heartbeat in scope and generation renews a live call, and an active one has its sideband read |
| `VoiceRuntime.VoiceRuntime.FinishRequest` | browser/voice.py:955-983 | stop and revoke commit the terminal status before the provider is told; a known key is answered by its record, an end already reached is replayed, and the refusals are exactly those of scope, start key and durable key |
| `VoiceRuntime.VoiceRuntime.Recorded` | browser/voice.py:756-768 | a known effect key gives its result back exactly when its record has this intent and one, is outstanding exactly without one, a conflict exactly with another intent, and never proceeds |
| `VoiceTranscripts.TranscriptsStaySound` | browser/voice.py:714-749 | over every run verified rows stay one-to-one with recorded provider events, no call holds more than 2000 rows whichever way they came, no row has role tool, nothing recorded changes, and later rows of a message have higher revisions |
| `VoiceTranscripts.RedeliveryChangesNothing` | browser/voice.py:726-732 | events delivered again by the same session at its generation, in any order and after anything else, are accepted and record nothing |
| `VoiceTranscripts.LaterGenerationRecordsAnew` | browser/voice.py:726-747 | the same events delivered first at a later generation are all recorded once more, each speaking event with one more row |
| `VoiceTranscripts.EachNewEventOnce` | browser/voice.py:733-747 | an accepted delivery records exactly the new events, each with one row |
| `VoiceTranscripts.StepKeeps` | browser/voice.py:886-933 | each of the two ingest paths, accepted or rolled back, keeps the tables sound |
| `VoiceTranscripts.Transcript` | browser/realtime_sideband.py:68-83 | an event speaks exactly when it is one of the three kinds with an item and 1 to 32000 characters; as user exactly for the input kind, as assistant exactly for the two output kinds, with its own words |
| `VoiceTranscripts.ItemsTellApart` | browser/realtime_sideband.py:78-79 | spoken events with one item text are of one item and one content part |
| `JsonText.QuotedReads` | browser/realtime_sideband.py:78-79 | a quoted JSON string can be read back whatever follows it |
| `VoiceTranscripts.Latest` | browser/voice.py:737-739 | the greatest revision of a message, 0 if it has none |
| `VoiceTranscripts.TranscriptIngress.IngestSideband` | browser/voice.py:705-754 | a delivery is taken whole on the generation it was read for, or leaves everything as it was with the fault of its first event that cannot be taken; each new speaking event gets the next revision of its message, with its own role and the first 8000 characters of its words |
| `VoiceTranscripts.TranscriptIngress.RecordSegments` | browser/voice.py:886-937 | a signal's 1 to 64 segments are recorded all or none, each as it was reported, cut at 8000 characters and never verified; a refusal has the fault of the first segment denied |
| `VoiceTranscripts.TranscriptIngress.Rejection` | browser/voice.py:893-924 | the checks on one segment reject exactly what the transaction refuses |
| `ReceiptEmission.AtMostOneEmissionPerJob` | edge_extension/service-worker.js:393-454 | over every overlap, failure and restart a job has at most one receipt emission, so never V2 and then legacy |
| `ReceiptEmission.AttemptedIsFinal` | edge_extension/service-worker.js:404-408 | once an attempt is on record no later call adds an emission, except the one that made the record and has yet to post |
| `ReceiptEmission.StepKeepsInv` | edge_extension/service-worker.js:399-453 | the busy set and the durable key together keep every step from a second emission |
| `ReceiptEmission.ReceiptRecorder.EnterCall` | edge_extension/service-worker.js:393-403 | without a receipt unconfirmed, while another call is at it uncertain, else the job is marked busy |
| `ReceiptEmission.ReceiptRecorder.StoreAttempted` | edge_extension/service-worker.js:438-446 | the attempt is durable before anything is posted |
| `ReceiptEmission.ReceiptRecorder.Promote` | edge_extension/service-worker.js:415-434 | a witnessed message promotes the receipt to V2 |
| `ReceiptEmission.ReceiptRecorder.Record` | edge_extension/service-worker.js:393-454 | a whole call, beside any others and whichever of its awaits rejects: if it posts, its receipt is the only one ever emitted for the job; undisturbed it posts exactly with a receipt, no busy call, no attempt on record and no rejected await, else may be sent or threw by what came first |
| `IdentityRevocation.PoisonIsAbsorbing` | edge_extension/service-worker.js:99-111 | once poison is written no call hands out a document or a proof any more, and only observations cleared before reach the relay |
| `IdentityRevocation.NoticeLeavesOnlyAfterAck` | edge_extension/service-worker.js:68-83 | over every run, a revoke notice that has gone was removed by a flush that had an acknowledgement for its tab |
| `IdentityRevocation.EraseDropsUnackedIff` | edge_extension/service-worker.js:80-83 | a removal that the comparison allows can drop an unacknowledged notice exactly when, at the comparison, an invalidation that carries one for the tab is in flight |
| `IdentityRevocation.KeyHoldsLastTouch` | edge_extension/service-worker.js:117-124 | a revoke key holds what the last write or removal left there |
| `IdentityRevocation.GoneIsNeverProven` | edge_extension/service-worker.js:507-511 | an epoch without a document, and without a call about to write one back, is never proven again |
| `IdentityRaces.NoticeErasedUnacknowledged` | edge_extension/service-worker.js:80-83 | a run from empty storage in which a flush removes a notice the relay never acknowledged |
| `IdentityRevival.RevokedEpochProvenIff` | edge_extension/service-worker.js:531-545 | an epoch without a document can be proven once more exactly when a call is about to write its document back whose tab has no pending notice, or one the flush in flight can take, or the other pending notices leave room for a flush |
| `IdentityRevival.ShutIsNeverProven` | edge_extension/service-worker.js:56-60 | once the queue has overflown, an epoch whose documents and marking calls are all behind notices that the flush in flight cannot take is never proven again |
| `IdentityRevival.Drains` | edge_extension/service-worker.js:61-89 | a flush in flight can go on to its end, taking every notice that matches what it has read or that a denial in flight makes match |
| `IdentityRevival.NoticeLeaves` | edge_extension/service-worker.js:56-83 | any notice can leave, by later workers, as long as at most 128 are pending |
| `IdentityRaces.RevokedEpochProven` | edge_extension/service-worker.js:535-545 | a run from empty storage that returns a proof for an epoch whose revocation the relay acknowledged |
| `IdentityRaces.DeniedEpochProvenLater` | edge_extension/service-worker.js:531-545 | a run from empty storage after which, with the notice still pending, the epoch is proven later |
| `IdentityWorker.IdentityWorker.FlushRead` | edge_extension/service-worker.js:56-62 | of the pending notices, sorted by tab, at most 16 are taken with their contents; more than 128 end the flush |
| `IdentityRevocation.BeforeIff` | edge_extension/service-worker.js:61 | the order of the keys of a flush is the lexicographic one |
| `IdentityRevocation.DecimalReads` | edge_extension/service-worker.js:61 | a tab's key ends in its decimal digits without leading zeros |
| `IdentityWorker.IdentityWorker.FlushPost` | edge_extension/service-worker.js:63-79 | a notice of another build is skipped; only an accepted reply goes on to the comparison |
| `IdentityWorker.IdentityWorker.FlushCompare` | edge_extension/service-worker.js:80-81 | the removal follows only on an equal epoch |
| `IdentityWorker.IdentityWorker.Flush` | edge_extension/service-worker.js:54-92 | a whole flush, beside any other calls: it answers that all was delivered exactly when at most 128 notices were pending and each of its batch was of this build and accepted; exactly those of this build accepted are acknowledged, and undisturbed exactly these leave |
| `IdentityWorker.IdentityWorker.Collect` | edge_extension/service-worker.js:112-123 | a notice for every tracked tab that has none pending, and every tracked document to remove |
| `IdentityWorker.IdentityWorker.InvalidateRead` | edge_extension/service-worker.js:101-111 | a global reason denies every tracked tab and poisons the profile |
| `IdentityWorker.IdentityWorker.Invalidate` | edge_extension/service-worker.js:94-126 | a whole invalidation: a global reason leaves the profile poisoned, and undisturbed exactly the documents it denied are gone, exactly those without a notice get theirs, and nothing else changes |
| `IdentityWorker.IdentityWorker.PrepareRead` | edge_extension/service-worker.js:129-137 | malformed identifiers, poison or a queue of over 128 notices give no document |
| `IdentityWorker.IdentityWorker.PrepareLook` | edge_extension/service-worker.js:138-146 | a pending notice or another document stops the preparation |
| `IdentityWorker.IdentityWorker.PrepareWrite` | edge_extension/service-worker.js:150-153 | a new document gets a fresh epoch |
| `IdentityWorker.IdentityWorker.PrepareCheck` | edge_extension/service-worker.js:154-159 | a new document is returned only if it is still there and no poison is |
| `IdentityWorker.IdentityWorker.Prepare` | edge_extension/service-worker.js:129-159 | a whole preparation, beside any other calls: a document it hands out is of the page asked for, is on record, and there was no poison when it began; undisturbed, exactly when it hands one out, which one, and what it leaves |
| `IdentityWorker.IdentityWorker.PublishRead` | edge_extension/service-worker.js:507-511 | nothing is published past poison, a notice, or another document, epoch or build |
| `IdentityWorker.IdentityWorker.PublishPost` | edge_extension/service-worker.js:528-530 | the observation reaches the relay, and only an accepted one goes on |
| `IdentityWorker.IdentityWorker.ProofRead` | edge_extension/service-worker.js:536-545 | a proof is returned exactly when the message was witnessed and the last read is clear |
| `IdentityWorker.IdentityWorker.Observe` | edge_extension/service-worker.js:503-545 | a whole observation, beside any other calls: a proof it returns was witnessed, and the relay accepted the observation of that very document; undisturbed, exactly when it returns one and what it leaves |
| `ResultOutbox.NoResultIsLost` | edge_extension/service-worker.js:830-859 | over every run the last result stored for a job is in the outbox, or exactly it was posted and answered with success or HTTP 400; no websend result is ever stored |
| `ResultOutbox.RemovedOnlyWhenSettled` | edge_extension/service-worker.js:850-854 | a key leaves the outbox only with the value that was settled |
| `ResultOutbox.Outbox.PostResult` | edge_extension/service-worker.js:1125-1136 | a websend result is posted or dropped, any other is queued for storage |
| `ResultOutbox.Outbox.RunMutation` | edge_extension/service-worker.js:832-836 | mutations run one after the other; an erase compares before it removes |
| `ResultOutbox.Outbox.FlushNext` | edge_extension/service-worker.js:844-855 | success and HTTP 400 settle the posted value and queue its erase, any other failure keeps it |
| `ResultOutbox.Outbox.Flush` | edge_extension/service-worker.js:838-859 | a whole flush, beside anything else: every result that waited stays secured, a finished flush has settled all that was answered with success or 400, and undisturbed exactly these leave the outbox |
| `ResultOutbox.Outbox.Deliver` | edge_extension/service-worker.js:1125-1140 | a whole delivery of a result: a websend result leaves the storage alone, any other is stored before the flush, and what waited stays secured |
| `Base64.DecodeEncode` | edge_extension/service-worker.js:386-388 | decoding undoes encoding, section 4 of RFC 4648 |
| `Base64.EncodeConcat` | edge_extension/service-worker.js:386-387 | after a multiple of three bytes encodings may be joined |
| `Base64.EncodeConcatIff` | edge_extension/service-worker.js:386-387 | joined encodings are the encoding of the whole exactly at a multiple of three or for an empty rest |
| `Base64.NoEarlyPadding` | edge_extension/service-worker.js:386-388 | padding appears at the end only |
| `Base64.EncodeLength` | edge_extension/service-worker.js:386-388 | four characters for every three bytes begun |
| `Base64.AlphabetIs` | edge_extension/service-worker.js:386-388 | the letters A to Z, a to z, 0 to 9, + and / in this order, table 1 of RFC 4648 |
| `Base64.LettersAreTheBits` | edge_extension/service-worker.js:386-388 | four letters stand for the 24 bits of three bytes, the highest first |
| `BinaryReassembly.Reassemble` | edge_extension/service-worker.js:373-385 | it ends after at most as many chunks as bytes, and succeeds exactly when the first parts of the relay join to the declared length and digest; each error exactly by its cause |
| `BinaryReassembly.EncodeBySlices` | edge_extension/service-worker.js:386-387 | joining the encodings of 32766-byte slices is the encoding of the whole |
| `BinaryReassembly.ResolveBinarySet` | edge_extension/service-worker.js:368-390 | a set is resolved exactly when it has at most four descriptors, all admitted, and the relay holds every asset; each result is a data URL of bytes with the declared length and digest; else the first descriptor in the way decides the error |
| `BinaryReassembly.DataUrlGivesBytesBack` | edge_extension/service-worker.js:388 | decoding the data URL gives the bytes back |
| `WebContinuationTheorems.PublishedStandsOnItsReceipt` | native_bridge/continuation_web.py:198-228 | a transfer is published only with the core binding committed, the chat seen at the target, and its job's receipt for that target and prompt attested for its run, under the grant it was staged with |
| `WebContinuationTheorems.PublishedAllocationHasItsTransfer` | native_bridge/continuation_web.py:221-227 | an allocation is published only with the transfer claimed from it |
| `WebContinuationTheorems.OneJobPerRow` | native_bridge/continuation_web.py:131-165 | a continuation has no job but its transfer's, an allocation none but its own, each with that row's message and target, and over every run the relay was given it exactly once |
| `WebContinuationTheorems.SharedJobMeansAgreement` | native_bridge/continuation_web.py:350-369 | an allocation and a transfer with one job agree on run, chat, work item, principal, grant, prompt and checkpoint, and no two transfers share a job |
| `WebContinuationTheorems.PublicationIsFinal` | native_bridge/continuation_web.py:221-228 | a published transfer, its committed binding and its receipt never change |
| `WebContinuationApproval.EveryRowWasApproved` | native_bridge/continuation_web.py:111-151 | over every run, every transfer and every allocation goes back to a request an operator approved, with the summary of its checkpoint, under its grant |
| `WebContinuationApproval.EveryMessageWasApproved` | native_bridge/continuation_web.py:157-163 | over every run, so does every message the relay was given for one of them |
| `WebContinuationReopening.AllocationReopensIff` | native_bridge/continuation_web.py:319-370 | a published allocation can be the next of all to change, by some run, exactly when its chat has no open allocation |
| `WebContinuationReopening.EverReopensIff` | native_bridge/continuation_web.py:319-370 | some run takes it out of PUBLISHED exactly when some run leaves its chat without an open allocation |
| `WebContinuationReopening.PublishedWhileOpen` | native_bridge/continuation_web.py:367-369 | it stays PUBLISHED through any run in which an open allocation of its chat stands |
| `WebContinuationReopening.PublishedReopens` | native_bridge/continuation_web.py:319-370 | from any sound state without an open allocation of its chat, even with no request under way, a claim that begins then sets it back to CLAIMED |
| `WebContinuationTheorems.AllocationIdsTellApart` | native_bridge/continuation_web.py:253-255 | allocation identifiers tell requests apart whatever their keys, as long as owner, run and chat contain no bar |
| `WebContinuationSafety.StepKeepsInv` | native_bridge/continuation_web.py:102-370 | every step keeps rows agreeing, receipts, commitments and publications final |
| `WebContinuationRaces.PublishedAllocationReopens` | native_bridge/continuation_web.py:319-370 | a run from empty tables that publishes an allocation, after which a waiting claim sets it back to CLAIMED |
| `WebContinuationRaces.LateClaimReopens` | native_bridge/continuation_web.py:319-370 | the same run with the process gone after the publication, after which a new claim sets it back |
| `WebContinuationRuntime.ContinuationRuntime.PrepareCore` | sentra_mcp/services/session_checkpoint.py:401-458 | the row of a request key is found unchanged or made once, with at most one unresolved continuation per chat; each answer exactly when |
| `WebContinuationRuntime.ContinuationRuntime.StagePrepare` | native_bridge/continuation_web.py:111-135 | only an approved request whose summary is the checkpoint's, with a grant and a PREPARED continuation, goes on |
| `WebContinuationRuntime.ContinuationRuntime.StageInsert` | native_bridge/continuation_web.py:136-151 | the transfer row is made once, and a changed intent is a conflict |
| `WebContinuationRuntime.ContinuationRuntime.StageSubmit` | native_bridge/continuation_web.py:157-166 | the request is done only if the delivery key belongs to this very job |
| `WebContinuationRuntime.ContinuationRuntime.Stage` | native_bridge/continuation_web.py:102-166 | a whole staging, beside any other requests: when it answers that the message is on its way, the request was approved with the checkpoint's summary, its row stands as asked for and its delivery key belongs to its own job; undisturbed, exactly when it answers so |
| `WebContinuationRuntime.ContinuationRuntime.SubmitJob` | native_bridge/job_store.py:264-295 | a known delivery key gives back its job, a new one enters the relay once |
| `WebContinuationRuntime.ContinuationRuntime.TargetInsert` | native_bridge/continuation_web.py:239-276 | refused exactly without approval, a bounded summary and key, the checkpoint's own summary, a grant or the bound conversation; one open allocation per chat, found unchanged while ALLOCATING or made once, and a conflict otherwise |
| `WebContinuationRuntime.ContinuationRuntime.Allocate` | native_bridge/continuation_web.py:234-286 | a whole allocation, beside any other requests: when it answers that the message is on its way, the request was approved with the checkpoint's summary, its allocation stands as asked for and its delivery key belongs to its own job; undisturbed, exactly when it answers so |
| `WebContinuationRuntime.ContinuationRuntime.ClaimAuthorize` | native_bridge/continuation_web.py:324-338 | a claim needs the original grant and the same checkpoint |
| `WebContinuationRuntime.ContinuationRuntime.ClaimProve` | native_bridge/continuation_web.py:339-344 | and the exact, attested receipt of the new chat |
| `WebContinuationRuntime.ContinuationRuntime.ClaimPrepare` | native_bridge/continuation_web.py:345-349 | the continuation to the conversation of the receipt is prepared or found |
| `WebContinuationRuntime.ContinuationRuntime.ClaimRecord` | native_bridge/continuation_web.py:351-370 | the transfer gets the allocation's job or the claim is refused; the allocation is CLAIMED |
| `WebContinuationRuntime.ContinuationRuntime.Claim` | native_bridge/continuation_web.py:319-370 | a whole claim, beside any other requests: when it answers, the allocation is CLAIMED and its transfer agrees with it on everything both record, for the same checkpoint; undisturbed, exactly when it claims |
| `WebContinuationRuntime.ContinuationRuntime.CommitAuthorize` | native_bridge/continuation_web.py:201-208 | a commit needs approval and the grant of the staging |
| `WebContinuationRuntime.ContinuationRuntime.CommitStatus` | native_bridge/continuation_web.py:168-171 | it goes on with the state of its core row as just reconciled |
| `WebContinuationRuntime.ContinuationRuntime.CommitProve` | native_bridge/continuation_web.py:209-214 | then on the exact, attested receipt, read after the reconciliation |
| `WebContinuationRuntime.ContinuationRuntime.CommitLook` | sentra_mcp/services/control_plane.py:1702-1717 | a committed continuation is done if the chat is at its target; a prepared one goes on only from its source and checkpoint |
| `WebContinuationRuntime.ContinuationRuntime.CommitRebind` | sentra_mcp/services/durable.py:1074-1130 | the chat moves only from the expected conversation |
| `WebContinuationRuntime.ContinuationRuntime.CommitSettle` | sentra_mcp/services/control_plane.py:1720-1731 | a rebound chat commits, a failed rebinding is uncertain |
| `WebContinuationRuntime.ContinuationRuntime.CommitPublish` | native_bridge/continuation_web.py:220-227 | the transfer and its claimed allocation are published together |
| `WebContinuationRuntime.ContinuationRuntime.Commit` | native_bridge/continuation_web.py:198-228 | a whole commit, beside any other requests: when it publishes, the publication stands on its receipt and ran with approval under the grant of the staging; undisturbed, exactly when it publishes |
| `WebContinuationRuntime.ContinuationRuntime.Reconcile` | sentra_mcp/services/control_plane.py:1734-1748 | reconciliation reads the binding and never rebinds |
| `WebContinuationRuntime.ContinuationRuntime.TargetStatus` | native_bridge/continuation_web.py:288-317 | whether the receipt of a new chat is exact and attested |
| `WebContinuationRuntime.ContinuationRuntime.Status` | native_bridge/continuation_web.py:168-196 | whether, after reconciling, the receipt of a continuation is exact and attested |
| `CompactResumeTheorems.TranscriptComesBack` | native_bridge/conversation_continuation.py:11-59 | what an accepted prepare was given is what its checkpoint holds after every later run: summary, conversation, and the digest, the message identifiers and the children exactly if given, within their bounds |
| `CompactResumeTheorems.SecondPrepareWritesNothing` | native_bridge/conversation_continuation.py:117-128 | a second prepare of the same owner, run, chat and key writes no checkpoint at any later time, whatever transcript it brings |
| `CompactResumeTheorems.PublishedTranscriptIsTheNamedOne` | native_bridge/conversation_continuation.py:187-212 | over every run, a resume that named a digest publishes only the continuation of a checkpoint that pins this digest, and any publication by a resume stands on its receipt |
| `CompactResumeTheorems.ResumePublishesIff` | native_bridge/conversation_continuation.py:192-195 | from a state in which its continuation has its receipt and can be rebound, a resume can publish exactly if it names no digest or the pinned one |
| `CompactResumeRaces.UnnamedTranscriptIsResumed` | native_bridge/conversation_continuation.py:187-212 | a run from empty tables that pins a digest, allocates, delivers, claims, and publishes by a resume that names no digest |
| `CompactResumeSafety.StepKeepsInv` | native_bridge/conversation_continuation.py:95-212 | every step of prepare, resume and the Web layer keeps each resume on the checkpoint that passed its gate, and checkpoints for good |
| `CompactResumeRuntime.ConversationContinuation.Write` | sentra_mcp/services/session_checkpoint.py:292-334 | a checkpoint is written once per source and never behind the newest of its epoch; the same source with the same digest is found again, with another it is a conflict |
| `CompactResumeRuntime.ConversationContinuation.Prepare` | native_bridge/conversation_continuation.py:95-128 | refused exactly without approval or with a part out of bounds (a digest of 64 hexadecimal digits, 1 to 500 identifiers of 8 to 160 characters, children of at most 200000); a new checkpoint holds exactly what was given |
| `CompactResumeRuntime.ConversationContinuation.Gate` | native_bridge/conversation_continuation.py:146-199 | a resume passes exactly with approval, the row and conversation of its owner, the digest if it names one, and the account |
| `CompactResumeRuntime.ConversationContinuation.LatestCheckpoint` | sentra_mcp/services/session_checkpoint.py:336-362 | the newest checkpoint of the chat, or none if it is of another run |
| `CompactResume.LatestIsNewest` | sentra_mcp/services/session_checkpoint.py:336-362 | the newest checkpoint of an owner and chat: no later one is theirs, and there is one as soon as any is |
| `CompactResumeRuntime.ConversationContinuation.Resume` | native_bridge/conversation_continuation.py:187-212 | a whole resume, beside other resumes, requests, checkpoints and crashes: stopped exactly when it does not pass the gate, and then without a trace; when it publishes, the publication stands on its receipt and continues a checkpoint that pins the digest it named; undisturbed it publishes a continuation that lacks only the commit |
| `AttachmentTheorems.AcknowledgementsArePrefixSums` | browser/attachments.py:505-523 | in every reachable state the acknowledged indices are 0 to chunks - 1, each acknowledgement holds its prefix sum, and the sum stays within the declared total |
| `AttachmentTheorems.TotalNeedsExpectedChunks` | browser/attachments.py:24-26 | no run reaches the total in fewer than the expected chunks, which are 1 to 40 |
| `AttachmentTheorems.ChunksIff` | browser/attachments.py:460-530 | for every declaration, some run acknowledges n chunks of an upload declared so exactly when it is admissible and n is at most its total |
| `AttachmentTheorems.MoreThanFortyIff` | browser/attachments.py:218 | and more than the published 40 exactly when the total is more than 40 |
| `AttachmentTheorems.OpenUploadLosesNothing` | browser/attachments.py:757-758 | whatever crashed when, an open upload's parts can all be read and are what was acknowledged |
| `AttachmentTheorems.CommittedPartsNeverChange` | browser/attachments.py:509-511 | the part file of an acknowledged chunk does not change while the upload is open |
| `AttachmentTheorems.CompletedIsItsChunks` | browser/attachments.py:709-756 | a completed upload has exactly one blob of its own, and the stored bytes are its chunks joined in order with the declared length and digest |
| `AttachmentTheorems.ReceiptDescribesTheUpload` | browser/attachments.py:742-753 | every recorded completion describes its upload and its blob |
| `AttachmentTheorems.ClosedIsFinal` | browser/attachments.py:585-593 | no upload is ever both completed and aborted |
| `AttachmentTheorems.CompletionReplaysItsReceipt` | browser/attachments.py:696-702 | the completing request gets the same receipt at any later time |
| `AttachmentTheorems.CompletesIff` | browser/attachments.py:705-725 | an open upload completes exactly when all bytes are there, have the declared digest and look like the declared kind |
| `AttachmentTheorems.ChunkReplaysItsAck` | browser/attachments.py:494-500 | a repeated chunk request gets its stored acknowledgement while the upload takes chunks |
| `AttachmentTheorems.OtherChunkIntentsAreRefused` | browser/attachments.py:497-504 | a new key for an acknowledged index, or its key for another chunk, is refused |
| `AttachmentSafety.RunKeepsInv` | browser/attachments.py:375-778 | over every run with crashes between file and commit the ledger, parts, blobs and receipts stay sound |
| `AttachmentStore.AttachmentStore.UploadBegin` | browser/attachments.py:398-425 | a begin is idempotent by its request, and announces the ceiling of total over chunk size |
| `AttachmentStore.AttachmentStore.UploadChunk` | browser/attachments.py:460-530 | a chunk is refused, replayed or accepted; the part file precedes its rows |
| `AttachmentStore.AttachmentStore.JoinParts` | browser/attachments.py:710-713 | the parts in index order, or nothing if one cannot be read |
| `AttachmentStore.AttachmentStore.Verify` | browser/attachments.py:714-734 | length, digest, kind and budget of the assembled bytes; the kind by the literal header of a JPEG, PNG or PDF file |
| `AttachmentStore.AttachmentStore.Decide` | browser/attachments.py:683-734 | a completion is refused, replayed or ready, before anything is written |
| `AttachmentStore.AttachmentStore.UploadComplete` | browser/attachments.py:682-777 | the blob file precedes one commit of blob, receipt and state; finished, replayed or not exactly by the old rows and parts, with the receipt in full |
| `AttachmentStore.AttachmentStore.UploadAbort` | browser/attachments.py:578-608 | an open upload is aborted, an aborted one replays, a completed one is left alone |
| `AttachmentStore.AttachmentStore.UploadView` | browser/attachments.py:659-668 | complete is reported exactly when the acknowledged bytes reach the total |
| `StreamingLedger.StreamingLedger.RecordFrame` | browser/streaming.py:47-109 | a frame is recorded, replayed, conflicting, stale or too large exactly as the unbounded log would have it, and both tables show the newest 512 frames of every message: the first 32000 characters, truncated exactly above that |
| `StreamingLedger.StreamingLedger.Store` | browser/streaming.py:83-101 | inserting and pruning both tables appends one frame to the log they stand for |
| `StreamingLedger.StreamingLedger.Latest` | browser/streaming.py:111-126 | the newest frame of the unbounded log |
| `StreamingLedger.StreamingLedger.History` | browser/streaming.py:128-143 | the newest frames of the unbounded log, newest first, with the limit forced into 1 to 512 |
| `StreamingLedger.StreamingLedger.ReadContent` | browser/streaming.py:189-208 | the full text of a frame among the newest 512, and nothing else |
| `StreamingLedger.StoreKeepsAll` | browser/streaming.py:94-100 | storing for one message leaves every other message's window alone |
| `StreamingLedger.PrunedHoldsLast` | browser/streaming.py:94-100 | one table, pruned below the cutoff, holds exactly the last 512 frames of the log |
| `CommittedFiber.Committed` | edge_extension/conversation-evidence.js:17-45 | it ends on every graph, cyclic or not, and returns the committed view as defined by climb and descent |
| `CommittedFiber.ViewIsACommittedPath` | edge_extension/conversation-evidence.js:31-44 | a view is the end of a path from root.current down, each node a child of the one above and the only sibling equal to the walked fiber of its level or its alternate, within 4096 siblings in all |
| `CommittedFiber.CommittedPathIsFound` | edge_extension/conversation-evidence.js:17-45 | every such path is found |
| `CommittedFiber.ClimbToRoot` | edge_extension/conversation-evidence.js:18-30 | the first host root on the return chain within 2048 fibers, or none |
| `CommittedFiber.CycleNeverEnds` | edge_extension/conversation-evidence.js:21 | a return chain that comes back to itself never reaches a host root |
| `CommittedFiber.DescendOne` | edge_extension/conversation-evidence.js:33-40 | the one matching child of a level within the budget, or none |
| `CommittedFiber.WalkDown` | edge_extension/conversation-evidence.js:31-44 | the descent along the path under one shared budget |
| `ConversationEvidence.Observe` | edge_extension/conversation-evidence.js:52-109 | it answers exactly when the scanned anchors are clean, with exactly the well-formed user pairs they show |
| `ConversationEvidence.OrderDoesNotMatter` | edge_extension/conversation-evidence.js:62-98 | cleanness and pairs depend on which anchors there are, not on their order |
| `ConversationEvidence.CleanIsOneToOne` | edge_extension/conversation-evidence.js:88-95 | each request has one message and each message one request |
| `ConversationEvidence.ReadChain` | edge_extension/conversation-evidence.js:65-80 | the last conversation identifier of the first 80 fibers, whether any two differ, and the messages listed |
| `ConversationEvidence.FiberReads` | edge_extension/conversation-evidence.js:65-80 | an empty fiber shows nothing, any other its identifiers, the messages of its lists and its single one |
| `ConversationEvidence.AnchorReads` | edge_extension/conversation-evidence.js:65-80 | an anchor is read 80 fibers high and, if it shows a conversation, 600 messages deep |
| `ConversationEvidence.ScanAnchor` | edge_extension/conversation-evidence.js:62-97 | one anchor adds its branch to the flags and its pairs to both maps |
| `ConversationEvidence.WalkAnchors` | edge_extension/conversation-evidence.js:62-98 | an early end means the anchors are not clean |
| `ConversationEvidence.Record` | edge_extension/conversation-evidence.js:84-97 | both maps hold exactly the pairs so far, or no larger set can be evidence |
| `NativeHost.EncodeMessage` | native_bridge/host.py:16-18 | one frame, complete whatever follows it, or the error of an oversized body |
| `NativeHost.DecodeMessages` | native_bridge/host.py:21-31 | the buffer is exactly the frames of the messages returned followed by a leftover without a complete frame, or some frame is not JSON |
| `NativeHost.ServeForever` | native_bridge/host.py:34-50 | the frames of everything read are handled in order, each once, and answered in turn; a crash has a fatal frame |
| `NativeHost.ServesEachMessageOnce` | native_bridge/host.py:34-50 | for any messages and any split of their frames into reads, each is handled exactly once in order and the host never crashes |
| `NativeHost.SplitIsUnique` | native_bridge/host.py:21-31 | a byte string is cut into frames and a rest in one way only |
| `NativeHost.LeftoverIsStrictPrefix` | native_bridge/host.py:25-31 | a leftover is a strict prefix of one frame, and nothing else is |
| `NativeHost.ValueOfLittleEndian` | native_bridge/host.py:18 | reading back a packed length |
| `ResponseCapture.WaitForStableResponse` | browser/response_capture.py:90-166 | the poll ends at the first turn that ends it, with the result that turn gives |
| `ResponseCapture.AcceptedTextIsStable` | browser/response_capture.py:118-166 | a returned text is not empty, not the baseline, equal to each of the last samples, and the page was finished or the marker was in it |
| `ResponseCapture.SixFailuresRaise` | browser/response_capture.py:142-152 | six failed polls in a row end the wait without a text |
| `ResponseCapture.ResultIsDetermined` | browser/response_capture.py:98-168 | the samples decide the result |
| `ResponseCapture.EmptyTextIff` | browser/response_capture.py:118-161 | some wait with a configuration returns the empty text exactly when it asks for no stable sample and its baseline is not the empty text |
| `TabPool.TasksAreConserved` | browser/tab_pool.py:45-80 | over every interleaving each identifier is in the queue, in flight, completed, failed or lost to a cancellation, as often as it was submitted |
| `TabPool.DistinctTasksPartition` | browser/tab_pool.py:51-80 | distinct identifiers are in exactly one of these places |
| `TabPool.DistinctTasksReturn` | browser/tab_pool.py:86-94 | without cancellation distinct identifiers are returned as a partition into completed and failed |
| `TabPool.PartitionsIff` | browser/tab_pool.py:86-94 | for at least one worker, every complete run returns a partition of the submitted tasks exactly when they are distinct |
| `TabPool.CanReturnIff` | browser/tab_pool.py:87-94 | some run returns exactly when no task is submitted more than twice |
| `TabPool.ReportedBothWaysIff` | browser/tab_pool.py:88-94 | some run returns a task as completed and as failed exactly when it is submitted twice and none more often |
| `TabPool.TabPool.Begin` | browser/tab_pool.py:82-84 | the pool grows to the number submitted, never past its bound |
| `TabPool.TabPool.TakeNext` | browser/tab_pool.py:52-56 | a free worker takes the first of the queue, or its loop ends |
| `TabPool.TabPool.RecordOutcome` | browser/tab_pool.py:63-75 | an outcome reaches exactly one list |
| `TabPool.TabPool.Finish` | browser/tab_pool.py:87-94 | the result is returned exactly when both counts agree and no completed task repeats |
| `TabPool.TabPool.RunAll` | browser/tab_pool.py:36-94 | a whole run, whatever turns the workers get: distinct tasks come back as a partition, a task submitted three times is an error |

## Left out

- Liveness: a start that was reserved but never finished stays uncertain; nothing here says that any request is answered in the end.
- SHA-256: a digest is modelled by what was digested, so distinct contents have distinct digests; the truncated digests behind identifiers are taken as injective, except in `VoiceTranscripts.MessageId`, where the digest is any function.
- Encryption, key rings, file permissions and legacy migrations: encoding and decoding of protected values cancel.
- Clocks: times are integers given to each step; nothing depends on their order except the windows the code computes.
- Voice: lookup of a call by its start request key, TURN and provider configuration, the release of a call at the provider, and the sorted view of a transcript.
- Storage ordering: storage operations of a service worker that died are taken to land before those of the next; `ReceiptEmission` also admits late writes.
- Transactions and stretches without a row of their own (`MarkWrite`, `InvalidateRemove`, `SidebandLost`, `LeaveCall`, `Release` and the like) are proved to be their step, and what they are for is in the theorems and the whole requests.
- Identity: the profile epoch, tab listing, route parsing and the challenge before a scan; a call that is denied simply ends.
- The control plane, relay and receipt broker behind a Web continuation are kept to the rows and rules cited; leases, queues, retries and the live browser proof are parameters of a step.
- WebContinuation: a continuation's random identifier is modelled by its unique owner, chat and request key, and a missing grant or an unparsable target by a parameter.
- WebContinuation.ReconcileStep: the reads of row and binding and the transition they lead to are one step; in between, the code can find the row changed and give up, or the binding moved on from what it then records.
- A sent delivery never changes, so its receipt and the attestation of that receipt are read in one step of a claim or a commit.
- Compact&Resume: the account proof is a parameter; workspaces, work items and ConversationStore checks, the cursor, and the other fields a status reports are left out. Checkpoints created in the same instant count in the order they were written.
- Attachments: base64 decoding of a chunk is given with the request, the single-shot route only registers whole blobs, and reading blobs back is not modelled; part and blob files change only through the steps shown.
- Fibers are read, never written, so the heap is fixed during one walk; `assistantFrame` is left out.
- ConversationEvidence.Observe: the state of the composer and the nonce are passed through and not modelled.
- NativeHost: JSON is a pair of functions; a handler that raises answers with its error.
- ResponseCapture: progress callbacks and the length of a poll; one poll is one sample.
- TabPool: the lock, timeouts and per-worker counters. A cancelled gather is part of a run but not of `PartitionsIff`, `CanReturnIff` and `RunAll`, which are about calls that are not cancelled.
- `memory/`, `browser/approval.py`, catalogs, dashboards, the content script and all page automation: no state machine of their own that would add a harder statement.
