# Avaloria inbox and question board: verified model

This project models the parts of the Avaloria web application that decide whether a child's answer is kept and which
question a child is asked, and proves what those parts are for. `dafny verify dfyconfig.toml` checks all of it.

## What is modelled

| component | modules |
|---|---|
| the question board: an append-only lifecycle log, two stores for it, and the turn order shown from it | `Lifecycle`, `Rotation`, `PostgresLifecycleLog`, `FileLifecycleLog`, `LifecycleText`, `LifecycleRotation` |
| the per-directory write queue both file stores run through | `WriteQueue` |
| a spoken answer: microphone, sender, lossy HTTP hop, route, store | `AudioCapture`, `CaptureEffects`, `AudioSender`, `Http`, `AudioDelivery`, `AudioRetry`, `AudioFiling`, `AudioArtifact` |
| recordings on disk and the rows that point at them | `BlobStore` |
| a typed answer: local storage, delivery, receipt | `TextDelivery` |
| the project inbox: records, the JSONL file as lines and as text, the PostgreSQL table, paging | `InboxRecord`, `FileInbox`, `JsonLines`, `InboxText`, `PostgresInbox`, `Paging` |
| access: rate limiter, session tokens and cookies, bounded request bodies | `RateLimiter`, `Session`, `Utf8`, `BoundedBody` |
| shared vocabulary | `Common`, `Json`, `Text` |

Objects that the program updates in place are classes (the capture controller, the answer sender, the rate limiter, the
stores, the local repository). Their methods are proved against specification functions on values. What happens between
calls - awaits, interleavings, lost answers, crashes, failing writes - is a step function over those same specification
functions, and the main results are about `Run(steps)` for every sequence of steps. A step that cannot happen in a state
leaves the state alone, so no hypothesis about the schedule is needed.

## Assumptions

- Listeners of the capture controller and the sender do not call back into them.
- `createId`, receipt ids, preview URLs and the temporary file nonce are fresh.
- SHA-256 has no collision among the recordings that come in (`BlobStore.DigestOk`); the keyed hash of the session gate is
  idealised (`Session.CollisionFree`), except that keys equal up to trailing zeros are one key, as HMAC makes them.
- `RateLimiter.ForgettingIsInvisible`: the limiter's clock does not step back. Which other clocks keep the limit is proved.
- Of JSON text (RFC 8259): a printed object has no raw line break, reads back as itself behind white space on its line,
  and does not read at all behind anything else; white space alone is no document (`JsonLines.Prints`, `BlankIsNothing`).
- `FileInbox` and `FileLifecycleLog` prove their runs over whole lines. `JsonLines.TextRefinesLines` says when a file is
  that; `InboxText` and `LifecycleText` say what happens when it is not.
- Which strings are well-formed UTF-16, and the year `Date.parse` finds in a string, are parameters (`Http.Platform`).
- An intermediary invents neither a receipt nor, for audio, a 4xx other than 401, 403 and 429.

## What the proofs found

- A caller refused by the PostgreSQL lifecycle log can be told the very state it expected: the conflict and the read-back
  are two moments. `StaleReportParity` says exactly when (an odd number of commits in between), `StaleReportCanAgree` gives
  a run.
- In PostgreSQL a reopened question can take the turn, when a lower sequence number commits after a higher one.
  `ReopenKeepsTurnExactlyWhen` gives the exact condition, `LateCommitStealsTheTurn` a run. The file log never does this
  (`TurnSurvivesEveryStep`).
- "Refused", the one outcome that tells a child to record something new, can be untruthful in two ways: the route answers 400
  to a body that broke off, and a deployment may lower its byte limit between two attempts. `TruthfulExactlyWhen` shows
  these are the only two.
- `FileAudioBlobStore.store` ignores how much `handle.write` wrote: after a short write the truncated file is synced, renamed
  to its final name, trusted by every retry and given a receipt. It also skips the directory sync when it finds the file
  already there, and nothing syncs the directory a new shard is created in, so a power loss can leave a row without its
  recording. `NoDanglingExactlyWhen` and `SurvivesPowerExactlyWhen` give the exact conditions.
- The inbox file keeps its promises exactly while no write breaks off and nothing but white space follows its last line
  break. After a torn line - or a complete record that only lacks its line break, which reads back until then - the next
  append is answered with a receipt and lost, takes that record with it, and a retry is stored again under another receipt
  (`InboxText.FirstWriterWinsExactlyWhen`, `OneReceiptExactlyWhen`, `ReadableStaysExactlyWhen`).
- The lifecycle file is less forgiving still: one missing line break, and the next change makes it unreadable for good
  (`LifecycleText.ReadableExactlyWhen`, `UnreadableForGood`).
- While a body is merged, its chunks are still held: `readBoundedBytes` keeps up to twice its cap.
- A clock that steps back is harmless to the rate limiter unless it comes back to within a window of a moment it had left
  a window behind (`LimitKeptExactlyWhen`).
- Two answers with the same `receivedAt` and `submissionId` - possible only in a damaged or edited file - are listed in file
  order; `OrderIsFixedExactlyWhen`.
- The comment at src/application/submissions/deliver-submission.ts:36-41 expects two inbox lines for one retried submissionId.
  With the stores as they are now there is one (`TextDelivery.FiledOnce`, and `InboxText.ReadableStaysExactlyWhen` for the
  file).

## Model

| member | source | states |
|---|---|---|
| Rotation.RotateQuestions | src/content/open-questions.ts:189-223 | the loop that splits and sorts computes the rotation the lemmas below are about |
| Rotation.SortTurns | src/content/open-questions.ts:206-216 | the in-place sort yields the stable turn order: never-reopened questions first in dataset order, then by sequence |
| Rotation.RotationIsQueue | src/content/open-questions.ts:170-223 | for every valid history, active followed by upcoming is a FIFO queue: seeded-open questions, a close removes, a reopen enqueues at the tail; the archive is exactly the rest in dataset order |
| Rotation.TurnIsKept | src/content/open-questions.ts:170-223 | no event moves the turn unless it closes the question being asked; reopening never steals it |
| Rotation.ClosingPassesTheTurn | src/content/open-questions.ts:189-223 | closing the active question hands the turn to the next in the queue, or to nobody |
| Rotation.NothingIsLost | src/content/open-questions.ts:189-223 | for any snapshot at all, the three parts of the rotation hold each dataset question exactly once |
| Rotation.ReopenKeepsTurnExactlyWhen | src/content/open-questions.ts:206-216 | with arbitrary sequence numbers, a reopen leaves the active question in place if and only if that question was never reopened or was reopened with an earlier number |
| Lifecycle.StateIsParity | src/domain/questions/question-lifecycle.ts:35-60 | the state of a question is its seed flipped once per recorded event |
| Lifecycle.RevisionsUnique | db/migrations/0003_question_lifecycle.sql:27-48 | in a chained log, revisions of one question are distinct and grow with position and sequence |
| Lifecycle.LatestIsLast | src/adapters/persistence/file-question-lifecycle-log.ts:89-102 | the latest event by revision is the last committed one, so the state read off it is the state of the whole history |
| PostgresLifecycleLog.EveryRunIsLinear | src/adapters/persistence/postgres-question-lifecycle-log.ts:69-89 | every interleaving of read-then-insert calls keeps one unbroken chain per question |
| PostgresLifecycleLog.ChainsInEveryRun | src/adapters/persistence/postgres-question-lifecycle-log.ts:217-253 | revisions are exactly 0..n-1, each row leaves the state its predecessor produced or the seed, and sequence grows with revision |
| PostgresLifecycleLog.EveryAnswerIsLinearizable | src/adapters/persistence/postgres-question-lifecycle-log.ts:217-253 | each finished call was decided at a moment inside its own run as the sequential store would have decided it then: applied with exactly that row, or refused because the state differed from the expected one; a refused caller is told the state at the end of its call |
| PostgresLifecycleLog.ReadDecides | src/adapters/persistence/postgres-question-lifecycle-log.ts:69-89 | in every run a statement goes on exactly when the question is, at its snapshot, in the expected state, with its number of rows as the revision; otherwise the call is turned away, not failed |
| PostgresLifecycleLog.InsertDecides | src/adapters/persistence/postgres-question-lifecycle-log.ts:221-241 | an insert commits exactly when no row of its question came since its snapshot, and commits the row that was asked for; a collision turns the call away and stores nothing |
| PostgresLifecycleLog.ReadBackTells | src/adapters/persistence/postgres-question-lifecycle-log.ts:281-301 | a call that was turned away finishes as stale, with the state at that moment |
| PostgresLifecycleLog.OnlyFaultsBreak | src/adapters/persistence/postgres-question-lifecycle-log.ts:230-241 | a call throws only when the database failed it; contention alone never breaks one |
| PostgresLifecycleLog.AloneIsSequential | src/adapters/persistence/postgres-question-lifecycle-log.ts:217-253 | after any run, a call nobody interferes with answers exactly as the sequential store, stores exactly the event it reports and takes one number when it stores one |
| PostgresLifecycleLog.TableOnlyGrows | src/adapters/persistence/postgres-question-lifecycle-log.ts:69-89 | committed rows are never changed, moved or removed |
| PostgresLifecycleLog.StaleReportParity | src/adapters/persistence/postgres-question-lifecycle-log.ts:281-301 | what a refused caller is told equals what it expected if and only if an odd number of that question's events committed between the moment that decided the call - the state it read, or the commit it collided with - and the read-back |
| PostgresLifecycleLog.StaleReportCanAgree | src/adapters/persistence/postgres-question-lifecycle-log.ts:281-301 | a concrete run in which it does |
| LifecycleRotation.ReadSnapshotIsHistory | src/adapters/persistence/postgres-question-lifecycle-log.ts:105-116 | the snapshot either store reads, latest event per question, is the snapshot of the whole history |
| LifecycleRotation.PostgresRotationIsQueue | src/adapters/persistence/postgres-question-lifecycle-log.ts:255-273 | in every concurrent run the questions shown are the queue of the committed events in sequence order |
| LifecycleRotation.LateCommitStealsTheTurn | src/adapters/persistence/postgres-question-lifecycle-log.ts:69-89 | a concrete run in which a commit out of sequence order moves the turn to a reopened question |
| WriteQueue.WriteQueues.Serialize | src/adapters/persistence/file-question-lifecycle-log.ts:34-43 | a task is chained behind the last promise of its directory, however that one ends |
| WriteQueue.EveryRunIsSerial | src/adapters/persistence/file-question-lifecycle-log.ts:34-43 | in every interleaving with reads and writes failing anywhere, each file and each answer is that of running its tasks one after another in submission order |
| WriteQueue.OneAtATime | src/adapters/persistence/file-submission-inbox-store.ts:35-46 | at most one task of a directory is between its read and its write |
| WriteQueue.NeverStalls | src/adapters/persistence/file-submission-inbox-store.ts:35-46 | whatever failed before, the earliest unsettled task of a directory can always take a step, and it is the only one that can |
| WriteQueue.StepsAreTaken | src/adapters/persistence/file-question-lifecycle-log.ts:119-150 | a read decides from the file as it is then or rejects the task; a write puts the decided lines at the end of that one file, as far as it gets, and the task resolves exactly when nothing went wrong |
| WriteQueue.OneMore | src/adapters/persistence/file-submission-inbox-store.ts:35-46 | after any settled run one more task, run alone, resolves with what is decided from the file as it is |
| FileLifecycleLog.EventRoundTrip | src/adapters/persistence/file-question-lifecycle-log.ts:59-86 | a written event is read back as itself if and only if it is well formed |
| FileLifecycleLog.OnlyReadableEvents | src/adapters/persistence/file-question-lifecycle-log.ts:59-86 | nothing malformed is ever read from any line |
| FileLifecycleLog.ReadExactlyWhen | src/adapters/persistence/file-question-lifecycle-log.ts:211-251 | a file is read if and only if each line is empty or an event, and then exactly its events are |
| FileLifecycleLog.FileQuestionLifecycleLog.Events | src/adapters/persistence/file-question-lifecycle-log.ts:211-251 | the reading loop returns every event in order, or fails on any damaged line |
| FileLifecycleLog.FileQuestionLifecycleLog.LatestPerQuestion | src/adapters/persistence/file-question-lifecycle-log.ts:89-102 | the loop's map holds the highest revision of each question and no other question |
| FileLifecycleLog.FileQuestionLifecycleLog.Append | src/adapters/persistence/file-question-lifecycle-log.ts:119-150 | one critical section answers and appends as decided from the file it read, under each write fault |
| FileLifecycleLog.FileQuestionLifecycleLog.Snapshot | src/adapters/persistence/file-question-lifecycle-log.ts:152-161 | the snapshot is the latest state and sequence of every question in the file |
| FileLifecycleLog.FileQuestionLifecycleLog.History | src/adapters/persistence/file-question-lifecycle-log.ts:163-174 | the history is the matching events by descending sequence |
| FileLifecycleLog.DescendingIsReversed | src/adapters/persistence/file-question-lifecycle-log.ts:163-174 | on a file in sequence order that is the file read backwards |
| FileLifecycleLog.HistoryIs | src/adapters/persistence/file-question-lifecycle-log.ts:163-174 | the history of a question is every event with exactly that id, as often as the log has it, the newest first; with no question named it is every event |
| FileLifecycleLog.DecideIsSequential | src/adapters/persistence/file-question-lifecycle-log.ts:119-150 | on a healthy file one critical section answers as the sequential store, and its line is read back as the event it answered with |
| FileLifecycleLog.EveryRunIsAHistory | src/adapters/persistence/file-question-lifecycle-log.ts:119-150 | in every run each file stays readable, one chain per question, with sequence equal to the line's position |
| FileLifecycleLog.EveryAnswerIsSequential | src/adapters/persistence/file-question-lifecycle-log.ts:119-150 | every settled append got the sequential store's answer at its turn; a refused caller is never told the state it expected |
| FileLifecycleLog.DamagedFileRefusesEverything | src/adapters/persistence/file-question-lifecycle-log.ts:211-251 | while one line is unreadable no append resolves and the file does not change |
| FileLifecycleLog.FileRotationIsQueue | src/adapters/persistence/file-question-lifecycle-log.ts:152-161 | what is shown from any healthy file is the queue of its events |
| FileLifecycleLog.TurnSurvivesEveryStep | src/content/open-questions.ts:170-223 | over whole concurrent runs of the file log, the question being asked changes only in a step that adds the one event closing it |
| LifecycleText.AppendReadsBackExactlyWhen | src/adapters/persistence/file-question-lifecycle-log.ts:186-251 | at the level of text, a readable file reads one event more after an append if and only if it ended in a line break; otherwise it is never read again |
| LifecycleText.TextIsAHistory | src/adapters/persistence/file-question-lifecycle-log.ts:119-251 | while every line is ended and no write breaks off, the runs over text are the runs over lines and each file is a valid history at every moment |
| LifecycleText.UnreadableForGood | src/adapters/persistence/file-question-lifecycle-log.ts:211-251 | once one line cannot be read, no append to that directory resolves and its file does not change, in every continuation of every run |
| LifecycleText.ReadableExactlyWhen | src/adapters/persistence/file-question-lifecycle-log.ts:119-251 | the files stay readable through every run if and only if no write breaks off half-way and every file starts with its last line ended |
| AudioCapture.AudioCaptureController.StartRecording | src/adapters/media/audio-capture-controller.ts:208-222 | asks for the microphone at most once at a time and remembers the generation it asked under |
| AudioCapture.AudioCaptureController.MicrophoneGranted | src/adapters/media/audio-capture-controller.ts:234-280 | a stale grant is stopped; a current one starts a recorder whose callbacks may fire, throw or end inside start() |
| AudioCapture.AudioCaptureController.MicrophoneRefused | src/adapters/media/audio-capture-controller.ts:222-232 | a refusal is shown only to the generation that asked |
| AudioCapture.AudioCaptureController.StopRecording | src/adapters/media/audio-capture-controller.ts:282-291 | stops the recorder, or frees the microphone when it cannot; what that comes to from every reachable state is CaptureEffects.StopEndsTheCapture |
| AudioCapture.AudioCaptureController.Discard | src/adapters/media/audio-capture-controller.ts:299-303 | gives up capture and recording together |
| AudioCapture.AudioCaptureController.ChooseFile | src/adapters/media/audio-capture-controller.ts:305-341 | a non-audio file leaves a running capture alone; an audio file replaces capture and recording |
| AudioCapture.AudioCaptureController.Release | src/adapters/media/audio-capture-controller.ts:343-356 | gives everything back |
| AudioCapture.AudioCaptureController.FinishCapture | src/adapters/media/audio-capture-controller.ts:388-424 | joins the chunks into a recording, or fails when there are none |
| AudioCapture.NoMicrophoneLeak | src/adapters/media/audio-capture-controller.ts:208-456 | in every run each granted stream is stopped or is the current one, which exists exactly while recording; only the current recorder has handlers; exactly one acquisition is pending while permission is requested |
| AudioCapture.PreviewsAreConserved | src/adapters/media/audio-capture-controller.ts:388-461 | the URLs created are those revoked, in order, then the one on show |
| AudioCapture.RecordingsAreFaithful | src/adapters/media/audio-capture-controller.ts:241-424 | a finished recording is exactly the concatenation of its capture's chunks up to the first stop |
| AudioCapture.UnmountGivesEverythingBack | src/adapters/media/audio-capture-controller.ts:343-382 | after release no stream and no URL is left, and a grant still to come is stopped on arrival |
| CaptureEffects.StopEndsTheCapture | src/adapters/media/audio-capture-controller.ts:282-291 | from every reachable state that shows "recording": a stop that throws, or in which the recorder stops or fails, gives the stream back, takes the handlers off and leaves the phase - for the recorder's bytes, in order, when it stopped first and there were any, otherwise for what was in hand, with the reason; a stop in which it does neither changes nothing shown |
| CaptureEffects.RecorderEndsTheCapture | src/adapters/media/audio-capture-controller.ts:241-254 | a recorder that ends on its own ends the capture as the button would; one whose capture is over reaches nothing |
| CaptureEffects.StopIsIdleOtherwise | src/adapters/media/audio-capture-controller.ts:282-283 | in any other phase the stop button does nothing |
| CaptureEffects.RecordAsksOnce | src/adapters/media/audio-capture-controller.ts:208-222 | ignored while a capture is asked for or made; otherwise exactly one request is pending and what was in hand stays, or the child is told that this browser cannot record |
| CaptureEffects.RefusalIsTold | src/adapters/media/audio-capture-controller.ts:222-232 | a refusal is shown to the request that is waited for, and to no other |
| CaptureEffects.LateGrant | src/adapters/media/audio-capture-controller.ts:234-239 | a grant nobody waits for is given straight back and changes nothing shown |
| CaptureEffects.GrantStartsACapture | src/adapters/media/audio-capture-controller.ts:241-280 | a grant that is waited for records that very stream with a recorder of its own, unless the recorder cannot be made, throws or ends inside start(): then it ends as a stop would have ended it |
| CaptureEffects.DiscardGivesBack | src/adapters/media/audio-capture-controller.ts:299-356 | discarding and leaving give back every stream, handler, request and URL |
| CaptureEffects.ChoiceReplacesOrRefuses | src/adapters/media/audio-capture-controller.ts:305-341 | an audio file replaces capture and recording; any other file changes nothing but the sentence shown |
| CaptureEffects.AudioFiles | src/adapters/media/audio-capture-controller.ts:151-157 | a declared type decides alone, a name only without one, in any case; an empty file is never audio |
| CaptureEffects.OwnStreamIsOpen | src/adapters/media/audio-capture-controller.ts:208-456 | while "recording" is shown its stream is open, and nothing is stopped that was not granted |
| AudioSender.AudioAnswerSender.PrepareRecording | src/adapters/media/audio-answer-sender.ts:186-207 | binds identity, question and time once per recording |
| AudioSender.AudioAnswerSender.SendRecording | src/adapters/media/audio-answer-sender.ts:220-250 | ignores repeated and unbound sends, otherwise opens one attempt of a new generation |
| AudioSender.AudioAnswerSender.ResumeAfterSniff | src/adapters/media/audio-answer-sender.ts:250-286 | an unreadable or unsupported recording fails; any other goes out as the bound identity's draft |
| AudioSender.AudioAnswerSender.SettleAttempt | src/adapters/media/audio-answer-sender.ts:312-324 | publishes an outcome only for the current generation |
| AudioSender.AudioAnswerSender.Dismiss | src/adapters/media/audio-answer-sender.ts:295-298 | forgets a failure but not the recording |
| AudioSender.StateIsCoherent | src/adapters/media/audio-answer-sender.ts:159-329 | in every run the state is about the bound recording; sent iff a receipt, failed iff a failure, sending iff exactly one current attempt is open |
| AudioSender.PrepareBindsOnce | src/adapters/media/audio-answer-sender.ts:186-207 | preparing a bound recording again, under any question, changes nothing |
| AudioSender.OnlyAReceiptSends | src/adapters/media/audio-answer-sender.ts:250-286 | sent is reached only by the current attempt's own receipt |
| AudioSender.PrepareBinds | src/adapters/media/audio-answer-sender.ts:186-207 | in every run a recording not bound yet is bound to exactly the id, time and question given, idle, with every open attempt superseded |
| AudioSender.SendOpensOneAttempt | src/adapters/media/audio-answer-sender.ts:220-246 | a press opens one attempt under the bound identity exactly when that recording is neither on its way nor sent; one that is too large fails by that name |
| AudioSender.SniffDecides | src/adapters/media/audio-answer-sender.ts:248-277 | what goes on the wire is the bound identity, the bytes and the type they tell; unreadable bytes and unknown types fail under their own names |
| AudioSender.DeliveryIsShown | src/adapters/media/audio-answer-sender.ts:279-286 | what comes back to the current attempt is what is shown |
| AudioSender.DismissClears | src/adapters/media/audio-answer-sender.ts:295-298 | dismissing takes the failure off and leaves recording and identity |
| Http.ReceiptRoundTrip | src/adapters/http/server-receipt.ts:17-36 | an acknowledged receipt is read back trimmed, or not at all when a field is blank |
| Http.ReceiptsAreReal | src/adapters/http/server-receipt.ts:17-36 | whatever body is read, a receipt has two tidy non-blank fields and an explicit acknowledgement |
| Http.RefusedExactlyWhen | src/adapters/http/http-audio-answer-inbox.ts:69-85 | "refused" means a status below 500 that is neither success nor 401, 403 or 429 |
| Http.OutcomeExactlyWhen | src/adapters/http/http-audio-answer-inbox.ts:69-172 | each other outcome exactly by its status; a delivery is a success with a receipt, and nothing else |
| Http.AcceptsExactlyWhen | src/app/api/inbox/submissions/audio/route.ts:124-237 | the route takes exactly the non-empty bodies within the limit whose own bytes tell the declared type, under storable identifiers and a storable time |
| AudioDelivery.ExactlyOnce | src/app/api/inbox/submissions/audio/route.ts:180-304 | over lost, duplicated and delayed requests, lost and stripped answers, retries and rotation: one row per submissionId, holding the question, time and bytes bound at prepare, its recording stored; one draft per id |
| AudioDelivery.SentShowsTheStoredReceipt | src/adapters/media/audio-answer-sender.ts:250-286 | sent shows the receipt of the stored row under the bound question |
| AudioDelivery.RowsOnlyGrow | src/app/api/inbox/submissions/audio/route.ts:268-304 | stored rows are never changed or removed |
| AudioDelivery.RefusalIsFinal | src/adapters/http/http-audio-answer-inbox.ts:69-85 | with a fixed limit and unseen answers to broken-off bodies, after refused nothing is or ever will be stored under that id |
| AudioDelivery.TruthfulExactlyWhen | src/app/api/inbox/submissions/audio/route.ts:203-232 | refused is truthful in every run if and only if the limit stays fixed and the answer to a broken-off body never reaches the browser |
| AudioRetry.GuardsDecide | src/app/api/inbox/submissions/audio/route.ts:170-237 | in every run each guard's refusal reaches the client under its own name, and only a whole, acceptable request passes |
| AudioRetry.BlobFirst | src/app/api/inbox/submissions/audio/route.ts:239-253 | past stage one the recording is stored; when it fails the client hears of an outage and nothing is filed |
| AudioRetry.FiledAnswersItsReceipt | src/app/api/inbox/submissions/audio/route.ts:294-304 | for an answer already filed nothing is stored and the client hears that row's receipt, from the store that looks first and from the one that inserts, loses and reads the winner |
| AudioRetry.NewAnswerIsFiled | src/app/api/inbox/submissions/audio/route.ts:255-304 | a new answer gets one row with the draft's own fields, and the receipt only when the write succeeded; what the store refuses is refused |
| AudioRetry.ArrivesExactlyWhen | src/adapters/media/audio-answer-sender.ts:220-286 | after any run, one undisturbed attempt ends in "sent" if and only if route and store take the recording and the receipt is readable - the receipt of the row the answer had already, or of the one row now added |
| AudioRetry.RetryAfterSilence | src/adapters/media/audio-answer-sender.ts:264-286 | the attempt after one that was filed but never heard of ends in "sent" under the first row's receipt |
| AudioRetry.SentAsBound | src/adapters/media/audio-answer-sender.ts:101-119 | in every run each attempt, and each row under its id, carries the recording, question and time bound by the one step that used that id |
| AudioFiling.RefusedByTheGuards | src/app/api/inbox/submissions/audio/route.ts:203-292 | over the table's own CHECK constraints, a truthful refused is one the route's guards made: the table turns away nothing they let through |
| AudioArtifact.TwelveBytesDecide | src/domain/media/audio-artifact.ts:167-213 | the first n bytes identify every recording as the whole does if and only if n is at least 12; the sender reads 16 |
| AudioArtifact.SniffedExactlyWhen | src/domain/media/audio-artifact.ts:155-205 | which type is told by which leading bytes, exactly |
| AudioArtifact.SpellingDoesNotMatter | src/app/api/inbox/submissions/audio/route.ts:158-166 | case, white space and parameters of a declared type do not matter |
| AudioArtifact.NameIsDeclared | src/app/api/inbox/submissions/audio/route.ts:162-170 | a declared type is found with or without parameters |
| AudioArtifact.SniffedTypeIsAccepted | src/app/api/inbox/submissions/audio/route.ts:227-232 | a type the browser declares from 16 bytes is never refused as a mismatch |
| AudioArtifact.AcceptedKeysAreMinted | src/adapters/persistence/file-audio-blob-store.ts:157-180 | the blob store accepts exactly the keys the domain mints |
| AudioArtifact.KeysAreInjective | src/domain/media/audio-artifact.ts:97-103 | a key names one digest and one type |
| BlobStore.FileAudioBlobStore.Store | src/adapters/persistence/file-audio-blob-store.ts:71-119 | a refused key touches nothing; a key already present changes nothing; a resolved write leaves what was written under a synced name; no other name changes; a temporary file stays only when removing it failed |
| BlobStore.MovesLead | src/adapters/persistence/file-audio-blob-store.ts:71-119 | the seven system calls taken one by one lead to the outcome of the method, path by path |
| BlobStore.UndisturbedIsStore | src/adapters/persistence/file-audio-blob-store.ts:71-119 | in the interleaved system, one upload left undisturbed does to the disk what the method does |
| BlobStore.CompleteExactlyWhenWhole | src/adapters/persistence/file-audio-blob-store.ts:94-106 | what a write leaves is the recording its key names if and only if every byte was written |
| BlobStore.NoPartialRecording | src/adapters/persistence/file-audio-blob-store.ts:71-119 | while successful writes are whole: in every interleaving with failures, crashes and power losses, a file under a final key is the whole recording that hashes to it |
| BlobStore.NoPartialRecordingExactlyWhen | src/adapters/persistence/file-audio-blob-store.ts:94-106 | that holds in every run if and only if successful writes are whole |
| BlobStore.PlaybackIsTheRecording | src/adapters/persistence/file-audio-blob-store.ts:121-132 | reading back what a row points at gives, while the power stays on, the very recording the row describes, under a key the store accepts |
| BlobStore.DescribedExactlyWhen | src/domain/media/audio-artifact.ts:133-153 | size, digest, type, extension and key in a row are those of its recording's own bytes, exactly |
| BlobStore.UploadArrives | src/app/api/inbox/submissions/audio/route.ts:239-304 | after any run, an upload that meets no failure is answered with the receipt of its row, old or new, and has its recording under its key, whole when writes are |
| BlobStore.FailedRowGetsNoReceipt | src/app/api/inbox/submissions/audio/route.ts:243-292 | a row write that fails gives no receipt, whether or not the row is there |
| BlobStore.RecordingsStay | src/app/api/inbox/submissions/audio/route.ts:284-292 | no step removes or changes a recording, a failed row and a racing upload included, unless the power goes |
| BlobStore.ReceiptMeansFiled | src/app/api/inbox/submissions/audio/route.ts:243-304 | a receipt is answered only beside its row and, while the power stays on, beside its whole recording |
| BlobStore.OwnWriteIsSynced | src/adapters/persistence/file-audio-blob-store.ts:115-119 | a call that wrote the file has synced its directory; the early return promises nothing of the kind |
| BlobStore.SyncedByACall | src/adapters/persistence/file-audio-blob-store.ts:202-209 | a name counts as synced if and only if, in the run so far, some upload's sync of its directory completed after the file had appeared there |
| BlobStore.SurvivesPowerExactlyWhen | src/adapters/persistence/file-audio-blob-store.ts:78-119 | a row's recording survives every power loss if and only if some upload completed a sync of its shard after the file had appeared there and the shard's own entry is durable |
| BlobStore.NoDanglingExactlyWhen | src/adapters/persistence/file-audio-blob-store.ts:84-106 | every row has its recording in every run if and only if successful writes are whole and the power stays on |
| InboxRecord.ReadInboxRecord | src/adapters/persistence/inbox-record-shape.ts:97-160 | the reader's loops collect exactly the defective fields, in order, and build the record when there are none |
| InboxRecord.NoDefectsMeansSound | src/adapters/persistence/inbox-record-shape.ts:97-138 | no defect is listed if and only if every field is sound |
| InboxRecord.RecordRoundTrip | src/adapters/persistence/inbox-record-shape.ts:97-211 | a written record reads back as itself if and only if it is sound, and never as another |
| InboxRecord.OnlySoundRecords | src/adapters/persistence/inbox-record-shape.ts:97-211 | no line, whatever it holds, reads as an unsound record |
| InboxRecord.MintedTextIsReadable | src/app/api/inbox/submissions/route.ts:57-143 | every record the text route can mint is one the reader accepts |
| InboxRecord.MintedAudioIsReadable | src/app/api/inbox/submissions/audio/route.ts:124-266 | every record the audio route can mint is one the reader accepts |
| InboxRecord.TextIsVerbatim | src/app/api/inbox/submissions/route.ts:101-181 | a text record holds the submitted fields as they came, under this server's receipt |
| InboxRecord.AudioIsVerbatim | src/app/api/inbox/submissions/audio/route.ts:219-266 | an audio record is minted exactly for an accepted request within the product's limit, and names its ids, time, type, size and digest |
| FileInbox.FileSubmissionInboxStore.Records | src/adapters/persistence/file-submission-inbox-store.ts:213-278 | every readable record in order, and every skipped line with its number and reasons |
| FileInbox.SkippedAre | src/adapters/persistence/file-submission-inbox-store.ts:228-276 | the skipped lines are exactly the unreadable ones, each once, in order, under its own number counted from one, with its reasons |
| FileInbox.FileSubmissionInboxStore.FindBySubmissionId | src/adapters/persistence/file-submission-inbox-store.ts:195-203 | the first record under the id, or none |
| FileInbox.FileSubmissionInboxStore.AppendIfAbsent | src/adapters/persistence/file-submission-inbox-store.ts:114-144 | an oversized recording is refused before the queue; otherwise the file and the answer are as decided, under each fault |
| JsonLines.TextRefinesLines | src/adapters/persistence/file-question-lifecycle-log.ts:186-251 | for either file store: while every line is ended and no write breaks off, a run over text is the run over its lines, task by task and file by file |
| InboxText.TextIsLines | src/adapters/persistence/file-submission-inbox-store.ts:114-188 | that holds of the inbox, for every record it can be asked to keep |
| InboxText.AppendReadsBackExactlyWhen | src/adapters/persistence/file-submission-inbox-store.ts:141-188 | at the level of text, an appended record is read back behind everything readable before if and only if nothing but white space follows the file's last line break |
| InboxText.TornLineSwallows | src/adapters/persistence/file-submission-inbox-store.ts:228-249 | otherwise the append resolves, its record is never read, and a record that ended the file without its line break is gone with it |
| InboxText.ReadableStaysExactlyWhen | src/adapters/persistence/file-submission-inbox-store.ts:114-144 | from any texts, damaged and duplicated lines included: between any two points of any run what was readable stays in order and each id is added at most once, none that was there - if and only if no write breaks off half-way and no file starts with a record lacking its line break |
| InboxText.FirstWriterWinsExactlyWhen | src/adapters/persistence/file-submission-inbox-store.ts:114-144 | in every run a resolved call speaks for the first record the file shows under its id, unchanged - if and only if no write breaks off half-way and only white space follows each file's last line break |
| InboxText.OneReceiptExactlyWhen | src/app/api/inbox/submissions/route.ts:215-226 | in every run all resolved calls for one submission agree on the receipt, in exactly the same cases |
| PostgresInbox.RowRoundTrip | src/adapters/persistence/postgres-submission-inbox-store.ts:203-296 | a record put into columns and read back loses nothing but the spelling of its instants |
| PostgresInbox.MintedPassesChecks | db/migrations/0002_submission_audio.sql:37-92 | what either route mints passes every CHECK constraint |
| PostgresInbox.FirstWriterWins | src/adapters/persistence/postgres-submission-inbox-store.ts:434-502 | across all processes and connection faults a resolved call speaks for the row under its id and its receipt |
| PostgresInbox.HeldRecordsAreSound | src/adapters/persistence/postgres-submission-inbox-store.ts:273-296 | what a losing call is handed is a record the file store would accept, its instants already in their one spelling |
| PostgresInbox.TheWinnerIsFound | src/adapters/persistence/postgres-submission-inbox-store.ts:470-490 | a call that lost the conflict always finds a row it can read |
| PostgresInbox.AloneDecides | src/adapters/persistence/postgres-submission-inbox-store.ts:434-502 | after any run, a call nobody interferes with is kept under a new id, handed the stored record under a taken one, refused when a constraint refuses it, and failed when its receipt id is in use |
| PostgresInbox.FailedInsertDecides | src/adapters/persistence/postgres-submission-inbox-store.ts:441-468 | a connection that fails gives no answer, and the row is there unless it failed first |
| Paging.OrderIsFixedExactlyWhen | src/adapters/persistence/file-submission-inbox-store.ts:296-304 | the listing is independent of file order if and only if no two different records share both sort keys |
| Paging.PageIsAPrefix | src/adapters/persistence/file-submission-inbox-store.ts:293-314 | a page is the first pageSize exact matches, latest received first and greater id first at equal times, and total ignores the limit |
| Paging.LatestOnTop | src/adapters/persistence/file-submission-inbox-store.ts:296-308 | down a page received times fall, and ids at equal times; everything on it is stored and matches, and no match left off is later than an entry on it |
| Paging.LimitHonouredExactlyWhen | src/adapters/persistence/file-submission-inbox-store.ts:97-109 | a page size below the maximum is used if and only if the limit is that positive whole number; every malformed limit shows a full page |
| Paging.LargerLimitsExtend | src/adapters/persistence/file-submission-inbox-store.ts:103-109 | a larger limit only extends the page |
| Paging.WhereFrom | src/adapters/persistence/postgres-submission-inbox-store.ts:327-350 | conditions and values are pushed in step: the i-th condition names the i-th value |
| Paging.PlaceholdersLineUp | src/adapters/persistence/postgres-submission-inbox-store.ts:327-415 | the conditions select exactly the file adapter's matches, with the limit bound behind them |
| Paging.AdaptersAgree | src/adapters/persistence/postgres-submission-inbox-store.ts:386-415 | on the same records every answer the database may give under ORDER BY received_at DESC, submission_id DESC is the file adapter's page |
| RateLimiter.InMemoryRateLimiter.TryConsume | src/adapters/access/in-memory-rate-limiter.ts:49-72 | one call answers and remembers as specified |
| RateLimiter.InMemoryRateLimiter.HasRoomForNewKey | src/adapters/access/in-memory-rate-limiter.ts:75-82 | sweeps only a full map and answers whether there is room afterwards |
| RateLimiter.InMemoryRateLimiter.SweepStale | src/adapters/access/in-memory-rate-limiter.ts:84-90 | in any iteration order exactly the keys with no live time are deleted |
| RateLimiter.ForgettingIsInvisible | src/adapters/access/in-memory-rate-limiter.ts:49-90 | over every run with a monotone clock, a call is granted if and only if the full history has fewer than limit live grants for its key and fewer than maxTrackedKeys other live keys |
| RateLimiter.NeverMoreThanLimit | src/adapters/access/in-memory-rate-limiter.ts:49-72 | no key is granted more than limit times in any half-open span of windowMs, under any clock that never comes back to within a window of a moment it has left a window behind |
| RateLimiter.LimitKeptExactlyWhen | src/adapters/access/in-memory-rate-limiter.ts:49-90 | for a limit of two or more, those are exactly the clocks that keep the limit whatever is called |
| RateLimiter.MemoryIsBounded | src/adapters/access/in-memory-rate-limiter.ts:49-90 | at most maxTrackedKeys keys with at most limit times each, whatever arrives and whatever the clock does |
| RateLimiter.BackwardClockOvergrants | src/adapters/access/in-memory-rate-limiter.ts:59-70 | a concrete run in which a clock that steps back lets a third call into a span of two |
| Utf8.EncodeIsInjective | src/adapters/access/hmac-family-access-gate.ts:25-27 | two strings with the same UTF-8 octets are the same |
| Utf8.DigitsRoundTrip | src/adapters/access/hmac-family-access-gate.ts:104-108 | a printed number reads back as itself |
| Session.KeyMaterialIsInjective | src/adapters/access/hmac-family-access-gate.ts:141-144 | two (code, secret) pairs share key material if and only if they are equal |
| Session.SignaturesAgreeExactlyWhen | src/adapters/access/hmac-family-access-gate.ts:141-148 | a token passes another configuration's signature if and only if the configuration is the same, zero padding of HMAC keys included |
| Session.AcceptedIsSigned | src/adapters/access/hmac-family-access-gate.ts:90-122 | nothing is accepted but a version-1 token with this gate's signature over its own expiry, and that still ahead |
| Session.OnlyTheCodeOpens | src/adapters/access/hmac-family-access-gate.ts:66-88 | a session is opened if and only if the submitted code is the configured one, trimmed; an absent or blank code leaves the gate unusable |
| Session.ReadSessionCookie | src/adapters/http/family-session-cookie.ts:27-50 | the loop's early return yields the first pair under exactly that name |
| Session.PairRoundTrip | src/adapters/http/family-session-cookie.ts:35-47 | a pair is read with the white space around its name and value taken off |
| Session.HeaderReads | src/adapters/http/family-session-cookie.ts:27-50 | among any other cookies the first pair under exactly the name is read, whatever follows it; an empty value is none |
| Session.SessionRoundTrip | src/adapters/http/family-session-cookie.ts:79-93 | a session through Set-Cookie, a browser with any other cookies and the reader is granted if and only if code and secret are the same and the instant lies before the whole second of issue plus TTL |
| Session.RotationRevokesExactlyWhen | src/adapters/access/hmac-family-access-gate.ts:60-64 | from the configured values themselves: a session outlives a redeployment if and only if code and secret are the same after trimming, an absent one being an empty one, and its time is not up |
| Session.PurposesAreApart | src/adapters/access/hmac-family-access-gate.ts:9-14 | no digest of a submitted code is ever a key that signs sessions |
| Session.CookieSays | src/adapters/http/family-session-cookie.ts:79-93 | Set-Cookie carries the pair, the path, HttpOnly, SameSite=Strict, the lifetime, and Secure exactly when asked |
| Session.LifetimeBounds | src/adapters/access/hmac-family-access-gate.ts:75-119 | that is every span at least a second short of the TTL and none of the TTL or more |
| BoundedBody.ReadBoundedBytes | src/adapters/http/bounded-json-body.ts:48-90 | the whole body when it fits and arrives, nothing otherwise; the chunks held on to and the merged copy are exactly stated and together at most twice the cap |
| BoundedBody.KeptIsLongest | src/adapters/http/bounded-json-body.ts:58-75 | after every read the chunks held on to are within the cap, and they are as many as fit |
| BoundedBody.CutsDoNotMatter | src/adapters/http/bounded-json-body.ts:61-84 | however a body is cut into chunks, the answer is the same |
| BoundedBody.SetAt | src/adapters/http/bounded-json-body.ts:77-82 | one chunk is copied to its place and nothing else in the buffer changes |
| BoundedBody.TakenIs | src/adapters/http/bounded-json-body.ts:66-72 | reading ends with the very chunk that crosses the cap |
| BoundedBody.HonestLengthIsJudgedAlike | src/adapters/http/bounded-json-body.ts:21-32 | an honest declared length is accepted exactly when the body itself would be, and the body that arrives whole under an accepted length is what is read |
| TextDelivery.SubmissionRepository.DeliverSubmission | src/application/submissions/deliver-submission.ts:43-73 | delivered means the acknowledged copy, and only it, was saved; on every failure the caller's submission is untouched |
| TextDelivery.ReceiptIsTidy | src/domain/submissions/submission.ts:146-178 | a receipt the client accepts is one the domain accepts, stored as it was read |
| TextDelivery.NeverOverstates | src/application/submissions/deliver-submission.ts:43-73 | in every run an answer shown as arrived is in the inbox under its id, question and time, word for word, with that receipt; whose words they are is TextDelivery.WordsAreKept |
| TextDelivery.WordsAreKept | src/domain/submissions/submission.ts:73-104 | in every run the stored answer, every attempt to deliver it and every row under its id carry the question, text and time of the one submit that used that id |
| TextDelivery.SubmitStores | src/domain/submissions/submission.ts:73-104 | a submit with a fresh id and no blank field stores exactly what was written, as local; otherwise nothing changes |
| TextDelivery.AcknowledgedExactlyWhen | src/domain/submissions/submission.ts:146-178 | only a receipt with both fields acknowledges, it is kept trimmed, and nothing of the answer changes |
| TextDelivery.UndisturbedArrivesExactlyWhen | src/application/submissions/deliver-submission.ts:43-73 | after any run, one undisturbed attempt brings a stored answer home if and only if the route accepts its fields and its receipt is readable - under the row it had already, or the one row now added |
| TextDelivery.RefusedExactlyWhen | src/adapters/http/http-submission-inbox.ts:62-83 | which answers are a refusal and which an outage |
| TextDelivery.FiledOnce | src/app/api/inbox/submissions/route.ts:193-226 | each answer is in the inbox at most once, whatever was retried |
| TextDelivery.AnswersAreKept | src/domain/submissions/submission.ts:146-178 | no step alters what was written, loses it, takes back an arrival or changes its receipt |

## Left out

- Promises, HTTP and database sessions are step relations over values, not objects: update in place and aliasing across
  awaits are captured only for the fields of the modelled classes. `path` and `mkdir` are part of the file a class holds.
- JavaScript's built-in sort is a stable insertion sort on sequences; its in-place buffer is not modelled.
- Rotation.RotateQuestions: the dataset's display texts are not part of a question here.
- PostgresLifecycleLog.EveryRunIsLinear: one statement is a snapshot read, a sequence draw and a commit; other database faults
  are one failing step, and locks are not modelled.
- FileLifecycleLog.EveryRunIsAHistory: over whole lines, and files shorter than the safe integers; `LifecycleText` has the
  text, and the exact condition.
- FileInbox.AtMostOnePerSubmission: over whole lines, like `FirstWriterWins` and `OneReceiptPerSubmission` beside it;
  `InboxText` has the text, and the exact conditions.
- InboxText.FirstWriterWinsExactlyWhen: a write breaks off between two characters; a character cut in its own octets reads
  as another one and is a torn line all the same.
- AudioDelivery.ExactlyOnce: rows carry the bytes in place of their digest; the digest, the disk and crashes are `BlobStore`.
  The row is stored in one step, as the file's queue makes it, or in PostgreSQL's two statements; `InboxText` and
  `PostgresInbox` prove those steps of each store, and the protocol is not run inside them.
- BlobStore.SurvivesPowerExactlyWhen: file contents are durable once the file was synced, and whether a shard directory's
  own entry is durable is given, since nothing in the program syncs the directory above it; the drive's own cache is not modelled.
- TextDelivery.NeverOverstates: says nothing about the wording "refused", which the text client also uses for 401, 429 and a
  positive answer without a receipt (src/adapters/http/http-submission-inbox.ts:61-77).
- Paging.AdaptersAgree: one shared total order of strings stands for localeCompare and for the database's collation, and the
  page and the count are taken from one table.
- Session.SessionRoundTrip: a browser keeps the pair before the first semicolon; Max-Age, Secure and SameSite are its business.
- The strict UTF-8 decoding and JSON parsing of a text body, `Date.parse`, ISO formatting and `Number` on anything but plain
  digits are parameters.
- The admin session, sign-in clients, question board client, pool configuration, health probes, environment reading and logging.
- React components, routing, message tables, slug and emblem helpers, filter helpers, the byte-limit clamp: finite tables or
  presentation.
- Several processes writing one file store, which the code disclaims.
