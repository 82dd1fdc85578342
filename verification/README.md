# Verification of the avatar service

This project models the avatar service (an upload/delete API, a queue worker, PostgreSQL, an S3-compatible object store
and RabbitMQ) in Dafny and proves what its code keeps over whole runs. `dafny verify dfyconfig.toml` checks all of it.

## What is modelled

**The avatar lifecycle** (`Lifecycle`, `Invariants`, `UploadSteps`, `DeleteSteps`, `JobSteps`, `UploadMailSteps`,
`CleanSteps`, `Preservation`, `Reachability`, `Guarantees`, `Completion`, `Exactness`, `KeyLists`, `Isolation`,
`Witnesses`). Upload handlers, delete handlers, thumbnail jobs and cleanup jobs change the avatars table, the object
store and the queues one call at a time. A run is any sequence of events; each call carries its outcome, a failed call
has no effect, and an event that is not enabled changes nothing, so a statement about all sequences is a statement about
all interleavings. Crashes of servers and workers and redeliveries are events too. Nothing is assumed about
compensations: a compensating call, a retry publish or a process may fail, and such a failure is recorded in
`incidents`, which no step reads, at the moment it can no longer be made good. Every guarantee therefore holds of all
runs, in the form "it holds, or one of these failures struck this avatar". `Exactness` turns the exceptions round: when
a message, an object or a completion is lost, exactly; `Completion` and `KeyLists` say what two of the recorded
incidents, overlapping jobs and stale key lists, mean in terms of the history. `Witnesses` gives histories for three of
them: a delete event with a key list that has gone stale, a message dropped for a row that is restored afterwards, and
two jobs for one avatar. The step files hold the lemmas for each primitive step and each group of invariant clauses.

**The code of handlers and jobs** (`Stores`, `Handlers`, `Jobs`, `JobRuns`). The same operations as classes and methods
with their loops and deferred rollback, proved against what they leave behind for every outcome of every call, and shown
to be runs of the lifecycle.

**Keys and catalog** (`Text`, `Keys`, `Catalogs`, `Avatars`). The key scheme down to its strings.

**Reading** (`Rendering`, `Reading`). Stored variants as a cache of a deterministic render, while all actors go on.

**Retries** (`Routing`, `Topology`, `Retry`, `RetryRuns`, `RetryTheorems`, `MailRoutes`). The declared topology, the
worker's onward publish with its counter header, the consume loop, the protocol they form, and its agreement with the
lifecycle's queues. Routing follows the direct exchange of section 3.1.3.1 of AMQP 0-9-1; a message that expires in a
retry queue is a step to that queue's return routing key.

**The publisher and its circuit breaker** (`Breaker`, `Publishing`). A timed machine with a leaky counter, and the session
it guards.

**The placeholder** (`Placeholder`, `Replicas`, `PlaceholderReads`). Ensuring the default image's objects from any number
of replicas at once, on a bucket in any state, and serving from them.

## Assumptions

- A failed call had no effect. Closing a connection releases it, whatever Close returns.
- Decoding, resizing, encoding and MD5 are deterministic functions (`Rendering.Codec`) the model is generic in; MD5 text
  is nonempty and unquoted, and the ETag of a stored object is its MD5. Encoders never give an empty file where
  `EncodesSomething` is required.
- Avatar ids are fresh UUIDs: 36 characters without a slash where strings are concerned, and never reused.
- Messages start without the counter header, and tracing adds no entry of that name (`Retry.Trace`): it writes the keys of
  W3C trace context and baggage only.
- Delays, counters and clocks are unbounded integers, except where the code compares with the 32-bit maximum.
- The circuit breaker's calls do not overlap: the publisher holds its mutex around them.

## Where the code differs from its comments and from itself

- `Cooldown` is described as the time before a half-open probe (internal/pkg/circuitbreaker/circuitbreaker.go:25). In the
  code the first call after the cooldown is refused too, and only the one after it is the probe: `Breaker.OpenRefuses`
  and `Breaker.Recovery`.
- A stored placeholder original answers requests for any format (internal/usecase/avatar_placeholder.go:210-215), while
  the in-memory path encodes it again: `PlaceholderReads.PrewarmedOriginal`.
- When the placeholder file is replaced, the bucket's older objects are neither overwritten
  (internal/usecase/avatar_placeholder.go:161-167) nor passed over, so the older image goes on being served:
  `PlaceholderReads.ReplacedImageIsNotServed`.
- A stored thumbnail requested without a format is JPEG, while the fallback keeps PNG and WebP:
  `Reading.EmptyFormatDisagreesIff`.
- A catalog label with white space around it is accepted, looked up as it is on the stored path and trimmed on the
  fallback: `Reading.SameSideAgreesIff`. The sizes the API admits (api/swagger.yaml:220) have none:
  `Reading.AdmittedReadsAgreeIff`.

## Model

| member | source | states |
|---|---|---|
| Guarantees.NoOrphans | internal/usecase/avatar_queue_jobs.go:56-139 | In every reachable state, every object in the store belongs to a known avatar, holds the uploaded bytes or their render, and is answered for by a live row that lists it, a handler or job at work, or a delete message in some queue that lists it and has not removed it; otherwise a failure named in the contract struck it |
| Guarantees.LiveRowSafety | internal/usecase/avatar.go:157-192 | In every reachable state, a live row has no delete event in any queue and never had one, and its original is in the store with the uploaded bytes, unless the rollback of its own upload failed at DeleteHard |
| Guarantees.NoLostProcessing | internal/usecase/avatar.go:174-192 | In every reachable state, a live row that is not completed has an upload message still to be handled or dead-lettered, or an upload handler at work, unless a failure named in `Abandoned` struck it |
| Guarantees.WorkersLeaveDeletedRows | internal/repository/postgres/avatar.go:153-186 | No worker step, crash, redelivery or expiry changes, removes or revives a soft-deleted row |
| Guarantees.RowsAreTheirUploads | internal/usecase/avatar_queue_jobs.go:110-134 | In every reachable state a row has the user, type, key and time of its upload, and once completed the width and height of the decoded upload and a key map of every thumbnail |
| Guarantees.DeletionStartsIff | internal/usecase/avatar.go:432-441 | A deletion starts exactly for the owner of a live row, with the list of all keys of that row |
| Completion.CompletedIsAbsorbing | internal/usecase/avatar_queue_jobs.go:82-88 | In every history in which no two jobs are ever at work on the avatar at once, however often its message is delivered: a row completed in one state is completed with the full key map in every later one, and every listed thumbnail is in the store until a delete event is sent |
| Completion.OverlappedIff | internal/usecase/avatar_queue_jobs.go:82-91 | The recorded incident says exactly that at some point of the history two jobs were at work on the avatar at once |
| Completion.UndisturbedWithoutDuplicates | internal/usecase/avatar_queue_jobs.go:82-91 | Without a second copy of an avatar's message no two jobs are ever at work on it at once, so completion is absorbing then |
| Guarantees.RestingAvatarIsExact | internal/usecase/avatar_queue_jobs.go:42-168 | An avatar no failure struck, with no handler at work and no message in any queue, is completed or deleted, and the store holds exactly the keys its live row lists |
| Guarantees.DeclaredDelaysMissNoQueue | internal/repository/rabbitmq/topology.go:58-77 | When every retry delay is positive and fits 32 bits, no message is ever lost to an undeclared queue |
| Exactness.LostProcessingIff | internal/usecase/avatar.go:463-476 | Absent a message delivered twice, an unfinished live row is still going to be processed exactly when none of the failures in Abandoned struck it |
| Exactness.StaleThumbnailsOrphaned | internal/usecase/avatar.go:463-468 | Unless two jobs were at work on the avatar at once, after a delete event with a stale key list every thumbnail of the avatar is in the store and nobody answers for any |
| Exactness.ThumbnailClaimedIff | internal/usecase/avatar.go:463-468 | A thumbnail of an avatar on which no two jobs were at work at once, and which no other failure struck, has somebody to answer for it exactly when no delete event was sent with a stale key list |
| KeyLists.CurrentListStays | internal/usecase/avatar.go:463-468 | Once the row is soft-deleted, a key list that is what the row lists stays so under every event but the handler's own |
| KeyLists.StaleListIff | internal/usecase/avatar.go:463-468 | What a delete handler is going to list differs from what its row lists exactly when a job completed the row after the handler's read and before its soft delete |
| KeyLists.StaleKeyListWasRaced | internal/usecase/avatar.go:463-468 | A delete event with a stale key list is recorded only in a history in which a job completed the row between a delete handler's read and its soft delete |
| KeyLists.NoOrphansWhenAtOnce | internal/usecase/avatar.go:463-468 | When read and soft delete of the avatar's delete handlers are one step, every stored object of an avatar with a row is answered for, or a failure other than a stale key list struck it |
| Exactness.CompletionLostIff | internal/usecase/avatar_queue_jobs.go:63-71 | An event takes a completion back exactly when it is a job's SetProcessingStatus(failed) on that live row, and only if two jobs were at work on the avatar at once in every history that ends in this state |
| Exactness.ListedThumbnailLostIff | internal/usecase/avatar_queue_jobs.go:63-66 | A thumbnail of a completed row without a delete event leaves the store exactly when a job's rollback takes it, and only if two jobs were at work on the avatar at once in every history that ends in this state |
| Isolation.KeysInPlayWellFormed | internal/usecase/avatar.go:503-509 | With UUID ids, every key in a reachable store, job, handler or message is one whose string spells it out |
| Isolation.ForeignStringsUntouched | internal/usecase/avatar_queue_jobs.go:124 | When an event changes what is stored under a string, that string is a key of the avatar the event is made for, and of no other avatar or placeholder |
| Isolation.ForeignObjectsUntouched | internal/usecase/avatar.go:503-509 | In every reachable state, no put, rollback, cleanup or other event made for one avatar changes an object of another, nor a placeholder |
| Preservation.ApplyKeeps | internal/usecase/avatar_queue_jobs.go:42-168 | Every event of every actor, with every outcome of its call, keeps all 28 clauses of the invariant |
| Reachability.ReachableInv | internal/usecase/avatar.go:157-192 | Every reachable state, whatever the interleaving and the failures, satisfies the invariant |
| Preservation.JobLoadsOriginal | internal/usecase/avatar_queue_jobs.go:91-104 | The object a thumbnail job loads under its message's key holds the bytes its avatar was uploaded with |
| Witnesses.RestoredWithoutMessage | internal/usecase/avatar.go:463-476 | For every avatar there is a history with one refused publish and a working compensation after which the restored row is live and pending and no message will process it |
| Witnesses.StaleKeyListOrphans | internal/usecase/avatar.go:463-468 | For every avatar and every job that succeeds there is a history without any failed call after which every thumbnail is in the store and nobody answers for it, because the delete handler read the row before the job completed |
| Witnesses.LoserUndoesWinner | internal/usecase/avatar_queue_jobs.go:63-71 | For every avatar there is a history with a redelivered message in which a completed row becomes failed and the thumbnails it still lists are gone |
| Handlers.AvatarService.Upload | internal/usecase/avatar.go:116-192 | For every outcome of every call: which of the errors is reported, and exactly which row, object and message an upload leaves; an accepted one a pending row with no map and no dimensions, the body under the key of user, id and type, and a message that names both with a count of zero; a body that cannot be read or is refused nothing |
| Handlers.AcceptedIff | internal/usecase/avatar.go:121-151 | An upload gets past its checks exactly when its body is not empty, is within the limit (10 MiB unless set) and begins with the bytes of its type: FF D8 FF, the eight of PNG, or RIFF and WEBP; too large is reported exactly beyond the limit |
| Handlers.OneTypeOnly | internal/pkg/imagevalidate/magic.go:8-19 | No body passes the checks under two types |
| Handlers.AvatarService.DeleteAvatarWithPublish | internal/usecase/avatar.go:455-480 | For every outcome of every call: the reported result, and exactly which soft-delete mark and which delete event remain; the event lists the keys of the row as read |
| Handlers.AvatarService.DeleteByID | internal/usecase/avatar.go:432-441 | Only the owner of a live row gets past the read; everyone else changes nothing; each of the five errors is reported exactly in its own case; success marks the row and sends one event with all its keys |
| Handlers.AvatarService.DeleteLatestForUser | internal/usecase/avatar.go:444-453 | Forbidden exactly when actor and path user differ; no such avatar exactly without a live row of that user; otherwise the row created last among these is deleted as DeleteRows says |
| Handlers.UploadCompensation | internal/usecase/avatar.go:174-192 | A failed upload whose compensations work leaves rows, objects and messages as they were; one whose compensations fail leaves exactly the row, or the object, or both, that the failed calls were to undo |
| Handlers.UploadIsARun | internal/usecase/avatar.go:157-192 | The upload handler, alone, is a run of the protocol's events with the same rows, objects and messages for every outcome of every call |
| Handlers.DeleteIsARun | internal/usecase/avatar.go:455-480 | The delete handler, alone, is a run of the protocol's events with the same rows and messages for every outcome of every call |
| Jobs.AvatarQueueJobs.ProcessAvatarUpload | internal/usecase/avatar_queue_jobs.go:42-140 | For any catalog and any schedule of faults: rows and objects left behind are those of the job's ending, rollback and status included, and an error is reported exactly when it ends in failure, naming the call that failed |
| Jobs.AvatarQueueJobs.Attempt | internal/usecase/avatar_queue_jobs.go:73-140 | Up to its return: the early returns, the uploaded keys in order, and whether a failure is to be marked on the row |
| Jobs.AvatarQueueJobs.PutThumbnails | internal/usecase/avatar_queue_jobs.go:109-132 | The nested loops put the renders in plan order and stop at the first one that cannot be encoded or stored; without a failure the key map is the full map |
| Jobs.AvatarQueueJobs.ProcessAvatarDelete | internal/usecase/avatar_queue_jobs.go:143-168 | Empty keys are skipped and every other key is tried; the objects left are those not listed or whose every removal failed; success exactly when no removal failed |
| Jobs.CompletedJob | internal/usecase/avatar_queue_jobs.go:109-139 | A job that ends well has completed its live row: the key map covers exactly sizes x formats, the dimensions are width and height of the decoded original, each stored object is the render of the original, and nothing else of the row, no other row and no other object changed |
| Jobs.JobEndsIff | internal/usecase/avatar_queue_jobs.go:73-139 | A job does nothing exactly when the row it reads is gone, deleted or completed; it completes the row exactly when original, decoder, every encoder, every put and the update work; and it marks a failure exactly on a row it found unfinished |
| Jobs.FailedJob | internal/usecase/avatar_queue_jobs.go:56-71 | A job that fails completes no row, and of the keys it had put exactly those whose removals all failed remain, as renders; every other object is as before |
| JobRuns.JobIsARun | internal/usecase/avatar_queue_jobs.go:42-140 | A thumbnail job, alone, is a run of the protocol's events with the same rows and objects, and its message is left to be acknowledged exactly when it reports no error |
| JobRuns.CleanIsARun | internal/usecase/avatar_queue_jobs.go:143-168 | A cleanup job, alone, is a run of the protocol's events: the objects left are those not listed or not removed, and the message is settled exactly when every removal worked |
| Reading.ReadTransparency | internal/usecase/avatar.go:251-271 | A live row read at any time, its objects read at any later times while every actor goes on: a successful answer equals the render of the uploaded original in bytes, content type, length and ETag, if and only if the request is not a thumbnail hit that the two paths take differently, which without white space around the size is a matter of the format alone |
| Reading.ImageAnswered | internal/usecase/avatar.go:251-271 | A live row read at any time, its objects read at any later times: the request succeeds exactly when both reads of a listed thumbnail or of the original asked for as it is work, or else the original is read and can be rendered; each error in exactly its case; body, type, length and ETag of every success are those of the upload or its render |
| Reading.RenderedFromOriginal | internal/usecase/avatar.go:335-385 | Rendering gives the upload itself exactly when no format is asked for and it cannot or need not be resized; otherwise it fails exactly when decoder or encoder does, and gives the image at the side and in the format meant |
| Reading.QuotedOnce | internal/usecase/avatar.go:285-288 | An ETag is quoted exactly when it is neither empty nor quoted already |
| Rendering.FormatTables | internal/models/thumbnail_sizes.go:3-24 | Names, content types, file extensions and upload types of the three formats agree with each other |
| Rendering.OtherNames | internal/usecase/avatar.go:318-385 | Every other format name is read as JPEG; every other upload type is encoded as JPEG and has no extension |
| Reading.SeenIsGenuine | internal/usecase/avatar_queue_jobs.go:115-132 | Whenever an avatar's object is read, it is the upload itself or the render of it |
| Reading.StoredMatchesRenderIff | internal/usecase/avatar.go:335-385 | A stored thumbnail equals the fallback's payload exactly when both have the same format and the trimmed label the fallback looks up has the same side, or a rendering at its side, or unresized, that happens to have the same bytes; with neither side nor format, when the upload itself is the thumbnail |
| Reading.SameSideAgreesIff | internal/usecase/avatar.go:335-385 | For an image in which the catalog's sides show, any label, padded with white space or not, is rendered alike exactly when its trimmed form has the same side and the formats are the same |
| Reading.TrimmedSizesAgreeIff | internal/usecase/avatar.go:335-385 | For a label without white space around it, the two paths agree exactly when they take the format alike |
| Reading.AdmittedReadsAgreeIff | internal/usecase/avatar.go:251-271 | For sizes and formats without white space around them, a successful answer equals the render of the uploaded original unless, and only unless, a stored thumbnail of a PNG or WebP upload is asked for without a format |
| Keys.KeyStringsEqualIff | internal/usecase/avatar_queue_jobs.go:124 | Two keys the code can build have the same string exactly when they are the same key, or a placeholder label is literally original |
| Keys.Spelling | internal/models/placeholder_keys.go:9-24 | The names of originals, thumbnails and placeholder objects |
| Keys.OriginalInjective | internal/usecase/avatar.go:507-509 | An original's string determines its id, for any user id |
| Keys.ThumbnailInjective | internal/usecase/avatar_queue_jobs.go:124 | A thumbnail's string determines id, label and extension |
| Keys.AvatarsNeverShareObjects | internal/usecase/avatar.go:503-509 | No object of one avatar shares its string with an object of another avatar or with a placeholder |
| Keys.PlaceholderKeysEqualIff | internal/models/placeholder_keys.go:9-24 | Two placeholder keys have the same string exactly when label and extension agree |
| Keys.SegmentsEqualIff | internal/usecase/avatar.go:503-505 | Two users share a segment exactly when their trimmed ids have the same length and agree after each slash is read as an underscore |
| Text.TrimSplits | internal/usecase/avatar.go:503-505 | What is trimmed off is white space, all of it and nothing else |
| Text.SpaceCodes | internal/usecase/avatar.go:503-505 | White space by code point |
| Keys.SegmentIsTheUserIff | internal/usecase/avatar.go:503-505 | A user id is its own segment exactly when it has no slash and no white space around it |
| Keys.SegmentEmptyIff | internal/usecase/avatar.go:503-505 | The segment is empty exactly for an id of nothing but white space |
| Catalogs.BuildCatalog | internal/pkg/config/avatars.go:29-51 | Accepts exactly the nonempty lists of distinct, named, positive presets, in order, and otherwise reports the first preset that is not so, and which of the three it fails |
| Catalogs.PlanCovers | internal/usecase/avatar_queue_jobs.go:111-130 | The nested loops make exactly sizes x formats |
| Catalogs.PlanDistinct | internal/usecase/avatar_queue_jobs.go:111-130 | With distinct labels no variant is made twice |
| Catalogs.PlanAt | internal/usecase/avatar_queue_jobs.go:111-130 | The order of the nested loops: size by size, and within a size format by format |
| Avatars.AllObjectKeys | internal/models/avatar_keys.go:4-17 | The original first, then the nonempty keys of the map, every entry exactly once |
| Avatars.KeyList | internal/models/avatar_keys.go:4-17 | A row's key list spells exactly the keys the row refers to |
| Avatars.FullMapKeys | internal/usecase/avatar_queue_jobs.go:115-131 | A completed row lists exactly the keys of its plan |
| Breaker.CircuitBreaker.Execute | internal/pkg/circuitbreaker/circuitbreaker.go:70-96 | The new state and the response, for every state, clock reading and outcome |
| Breaker.Fresh | internal/pkg/circuitbreaker/circuitbreaker.go:40-54 | A new breaker is closed with a counter of zero and has the configured threshold and cooldown, or 5 and 30 seconds where these are not positive |
| Breaker.CounterIsMaxSuffixSurplus | internal/pkg/circuitbreaker/circuitbreaker.go:77-94 | While closed, the counter is the maximum over all suffixes of this closed period's outcomes of failures minus successes, and below the threshold |
| Breaker.LeakyCounter | internal/pkg/circuitbreaker/circuitbreaker.go:78-94 | One more outcome moves the maximum suffix surplus exactly as the leaky counter moves |
| Breaker.OpensExactlyAtThreshold | internal/pkg/circuitbreaker/circuitbreaker.go:77-83 | A closed breaker opens at exactly the call that gives some suffix of the period a surplus of the threshold |
| Breaker.FailureBound | internal/pkg/circuitbreaker/circuitbreaker.go:70-96 | In any run, failures let through are at most successes plus threshold x openings plus threshold - 1 |
| Breaker.OpeningsSpaced | internal/pkg/circuitbreaker/circuitbreaker.go:57-83 | With a monotone clock, consecutive openings are more than a cooldown apart |
| Breaker.OpeningsBound | internal/pkg/circuitbreaker/circuitbreaker.go:57-83 | (openings - 1) x cooldown is at most the duration of the run |
| Breaker.FailuresInTime | internal/pkg/circuitbreaker/circuitbreaker.go:57-96 | Both bounds together: how many failures can be let through in a given time |
| Breaker.OpenRefuses | internal/pkg/circuitbreaker/circuitbreaker.go:57-68 | From an opening on, every call is refused up to and including the first one checked after the cooldown, and that one moves the breaker to half-open |
| Breaker.RefusedBetweenOpenings | internal/pkg/circuitbreaker/circuitbreaker.go:57-83 | Between two openings there is a first call checked after the cooldown, and every call up to and including it is refused |
| Breaker.Recovery | internal/pkg/circuitbreaker/circuitbreaker.go:57-94 | The call after that one is the probe: it is let through, and closes the breaker with a counter of zero or opens it again |
| Publishing.Publisher.NewPublisher | internal/repository/rabbitmq/publisher.go:31-50 | A publisher with a session, or none and nothing left open |
| Publishing.Publisher.ConnectOnce | internal/repository/rabbitmq/publisher.go:52-80 | What an attempt leaves of session, breaker and network, for every way it can go |
| Publishing.Publisher.ReconnectIfNeeded | internal/repository/rabbitmq/publisher.go:111-120 | Keeps a session that is up, and otherwise closes it before connecting anew |
| Publishing.Publisher.Perform | internal/repository/rabbitmq/publisher.go:123-173 | PublishJSON, Health and Close do what Performed says from every sound session and leave it sound |
| Publishing.PerformedOwned | internal/repository/rabbitmq/publisher.go:151-173 | A publish that succeeds sends its message once, on the channel of the one open connection; nothing else sends anything; Close leaves no connection open |
| Publishing.SucceedsIff | internal/repository/rabbitmq/publisher.go:123-173 | A publish succeeds exactly when the context holds at every check, the body marshals, the session is up or the breaker is not open and a new one is established, and the channel takes the message; a health check exactly when there is a session in the same way, the queue has a name and the broker knows it |
| Publishing.SessionKept | internal/repository/rabbitmq/publisher.go:111-117 | A session that is up is kept: nothing is dialled, closed or noted by the breaker |
| Publishing.SessionReplaced | internal/repository/rabbitmq/publisher.go:111-120 | One that is not is replaced by the connection just dialled, or given up with nothing left open |
| Publishing.RunOwned | internal/repository/rabbitmq/publisher.go:95-173 | Over any run: conn is nil exactly when ch is, the only open connection is the session's, and connections opened minus closed is one with a session and zero without |
| Publishing.BreakerFollows | internal/repository/rabbitmq/publisher.go:52-80 | Over any run, the breaker is in the state its own machine reaches on the attempts made, and failed attempts are its failures |
| Publishing.FailedAttemptsBound | internal/repository/rabbitmq/publisher.go:52-80 | However often the publisher is used, failing attempts to connect are bounded by successes and openings |
| Topology.DeclareTopology | internal/repository/rabbitmq/topology.go:15-56 | Fails exactly when the broker refuses a call or a delay exceeds 32 bits, and says which; otherwise the broker holds the exchange and the whole layout |
| Topology.DeclareRetryQueues | internal/repository/rabbitmq/topology.go:58-77 | Skips delays that are not positive, stops at the first that does not fit, and declares the others with their time to live and return key |
| Topology.RetryQueueNamesEqualIff | internal/worker/processor.go:117-119 | Retry queue names are equal exactly when base and index are |
| Topology.RetryQueueDeclaredIff | internal/repository/rabbitmq/topology.go:58-77 | A retry queue exists exactly when its delay is positive, and returns its messages under its main queue's key |
| Topology.KeysRoute | internal/repository/rabbitmq/topology.go:20-53 | Main and dead-letter routing keys lead to their one queue each |
| Topology.PlainQueues | internal/repository/rabbitmq/topology.go:20-53 | Main and dead-letter queues have neither a time to live nor a dead-letter exchange |
| Retry.Processor.RepublishOrDlq | internal/worker/processor.go:70-115 | Sends the failed message to the next hop, or fails and sends nothing |
| Retry.Processor.HandleDelivery | internal/worker/processor.go:40-68 | Success exactly when there is nothing to do, the job succeeds or the message was sent onwards |
| Retry.Processor.ConsumeLoop | internal/worker/app.go:147-179 | Every delivery taken is settled once, in order: acknowledged exactly when its body is no JSON, its job succeeds or its own publish was sent, else rejected without requeueing; the loop ends for the reason it reports |
| Retry.SettlementIff | internal/worker/app.go:164-176 | A settlement is an acknowledgement exactly in these three cases, and the handling of one delivery sends at most one message |
| Retry.SentOnwardIff | internal/worker/processor.go:70-115 | A failed message is sent onwards exactly when the context holds, the channel accepts and the raised counter is a 32-bit count |
| Retry.CounterReads | internal/worker/amqp_retry.go:7-29 | What a table says of the count: an integer of any width its value, a float that value towards zero, anything else zero |
| Retry.CounterRoundTrip | internal/worker/amqp_retry.go:7-29 | The count one handling writes is the count the next one reads, one higher; body, id and every other header arrive unchanged, tracing's headers are those of this handling, and no header is made up |
| Retry.HopFollowsNextStop | internal/worker/processor.go:85-114 | Through the declared layout the next hop reaches exactly the queue of the current count, the dead-letter queue, or none when the delay is not positive |
| MailRoutes.PublishReachesPlace | internal/worker/processor.go:85-114 | The publish of a failed delivery reaches exactly the queue the lifecycle puts the forwarded copy on, with the count that copy has; none when the delay is not positive |
| MailRoutes.UploadReachesPlace | internal/worker/processor.go:85-114 | The lifecycle's step for a failed upload job is that publish: it reaches exactly the queue of the copy the step adds, with its count, or nothing when the step finds no queue |
| MailRoutes.DeleteReachesPlace | internal/worker/processor.go:85-114 | The same for the lifecycle's step for a failed cleanup job |
| MailRoutes.ExpiryReturnsToMain | internal/repository/rabbitmq/topology.go:67-72 | A message that expires in a declared retry queue returns to its main queue |
| RetryRuns.RunKeepsCopies | internal/worker/processor.go:70-115 | In every run every copy is on a queue of its own kind with header, place and history in agreement |
| RetryRuns.SettledAsLogged | internal/worker/app.go:164-176 | The worker's settlement and the fate of the copy agree: an acknowledgement exactly for a copy discarded, finished or published onwards, a rejection exactly for one that is lost; and when each of these is the case |
| RetryRuns.FailedOnward | internal/worker/processor.go:85-114 | What a failed job's accepted publish leaves: the forwarded delivery and one copy at the next stop, or none when that queue was never declared |
| RetryRuns.ExpireReturns | internal/repository/rabbitmq/topology.go:67-72 | Exactly the copies on retry queues expire, and they return to their own main queue |
| RetryTheorems.Itinerary | internal/worker/processor.go:70-115 | A message stays on its own queues, enters retry queues 0, 1, 2, ... once each in order, is handled at most once more than there are delays, not counting redeliveries, and reaches the dead-letter queue after exactly that many handlings and exactly the sum of the delays |
| RetryTheorems.OwnQueuesDisjoint | internal/repository/rabbitmq/topology.go:20-53 | Upload and delete queues have nothing in common |
| RetryTheorems.Conservation | internal/worker/app.go:164-176 | In every reachable state, places held plus endings equal publishes plus duplications, for every message |
| RetryTheorems.MessageConservation | internal/worker/app.go:164-176 | With positive delays, no redelivery and no failed publish, a message published once is in exactly one place until a successful job, or an unreadable body, ends it |
| RetryTheorems.FailedMessageSurvivesIff | internal/worker/processor.go:85-114 | A message whose job failed survives exactly when its onward publish is accepted and the delay it has come to is positive or past the last |
| RetryTheorems.RetryTerminates | internal/worker/processor.go:70-115 | In every run the effective events number at most four per attempt of each published message, and as many again per redelivery |
| RetryTheorems.OnlyDeadLettersRest | internal/worker/app.go:154-178 | Every copy that is not on a dead-letter queue can move on |
| Placeholder.BuildKeyMap | internal/usecase/avatar_placeholder.go:87-97 | Exactly the labels, each with exactly the three formats and their keys |
| Placeholder.EnsureInS3 | internal/usecase/avatar_placeholder.go:99-113 | Nothing without a configured image; otherwise store and error count are those of ensuring all targets in order, whatever fails |
| Placeholder.EnsureThumbsForSize | internal/usecase/avatar_placeholder.go:131-159 | A size's three formats are ensured in order, going on after every failure |
| Replicas.EnsureIsARun | internal/usecase/avatar_placeholder.go:99-175 | One replica alone is a run of the replicas' events with the same store and error count |
| Replicas.EnsuredAt | internal/usecase/avatar_placeholder.go:115-175 | One replica alone puts exactly the targets it can look at, finds missing or empty and can encode, and leaves everything else as it was |
| Replicas.EnsuredErrors | internal/usecase/avatar_placeholder.go:115-175 | It reports one error for each target that should have been put and was not, and none else |
| Replicas.Convergence | internal/usecase/avatar_placeholder.go:99-175 | For any replicas, interleaving and failures: nonempty initial objects are never overwritten, other keys never touched, and every target is as at the start or its deterministic render |
| Replicas.CleanReplicaCompletes | internal/usecase/avatar_placeholder.go:99-175 | One replica that ends without an error or a failed stat has every target present and nonempty |
| Replicas.SettledForGood | internal/usecase/avatar_placeholder.go:161-175 | Once every target is in place the store never changes again and no replica begins a put |
| PlaceholderReads.TargetAt | internal/usecase/avatar_placeholder.go:99-159 | The targets are the original and then sizes x formats, each with its key and its render |
| PlaceholderReads.TargetsSoundIff | internal/models/placeholder_keys.go:9-24 | No two targets share a key exactly when no label is called original |
| PlaceholderReads.ReadPair | internal/usecase/avatar_placeholder.go:99-175 | What two reads of a placeholder object can see: a nonempty initial object always, else the target's bytes, or an initial empty object until it is replaced |
| PlaceholderReads.PlaceholderAnswered | internal/usecase/avatar_placeholder.go:177-229 | Nothing without a configured image; the stored object, as it is, when both of its reads work; otherwise the image rendered in memory, each error in exactly its case |
| PlaceholderReads.PrewarmedThumbnail | internal/usecase/avatar_placeholder.go:177-229 | On a bucket in any state, a stored thumbnail answers with what rendering in memory would give exactly when that rendering exists, has the requested format's type, and is what the object serves |
| PlaceholderReads.PrewarmedTrimmedThumbnail | internal/usecase/avatar_placeholder.go:177-229 | For a size without white space around it: exactly when both paths take the format alike and the stored object is the image's render, or was missing or empty and has been replaced by it |
| PlaceholderReads.PrewarmedOriginal | internal/usecase/avatar_placeholder.go:209-216 | The stored original answers as it is for every format; this is what rendering in memory would give exactly when that rendering exists, has the placeholder's type, and is what the object serves |
| PlaceholderReads.ReplacedImageIsNotServed | internal/usecase/avatar_placeholder.go:161-167 | A bucket that holds the original of an older file goes on serving it, and the answer differs from the render of the new file |

## Left out

- HTTP handlers, generated API code, middleware, web UI, logging, metrics, tracing spans and configuration loading: no state of their own.
- Bodies that are no JSON, or hold an id that is no UUID, in the lifecycle: the publisher never sends them. The retry protocol has the first.
- Partial effects of failed calls, such as a statement that is committed although its acknowledgement is lost.
- `DialContext`'s goroutine and timeouts (internal/repository/rabbitmq/dial.go): an attempt returns an owned connection, or none.
- Update times, file names and sizes of rows, and list queries.
- The worker's `Run` and `Close` with their `ready` flag, health servers, and QoS: the loops they start are modelled.
- Headers changed in place: a publish to the dead-letter queue adds its tracing headers to the delivery's own table, which nobody reads afterwards.
- Conversion of counter headers that are floats beyond the integer range.
- A topology redeclared over queues of the same names but other arguments, which a broker refuses.
- Invalid UTF-8: strings are sequences of Unicode characters.
- Witnesses.RestoredWithoutMessage: one trace among those the exception covers; the same holds of the other two witnesses.
- KeyLists.StaleKeyListWasRaced: one direction; a raced handler may still crash or be refused before it sends its event, and `KeyLists.StaleListIff` says what its list then is.
- KeyLists.StaleListIff: asks for a catalog with at least one variant, as every accepted one has (`Catalogs.BuildCatalog`).
- Breaker.OpeningsSpaced: assumes a monotone clock, as Go's `time.Since` provides within a process.
- RetryTheorems.RetryTerminates: bounds the events of a run; that enabled events do happen is a matter of the broker and the scheduler.
- Rollback and cleanup in the lifecycle visit their keys in any order; the methods in `Jobs` keep the code's order.
- Replicas that ensure different placeholder images into one bucket at the same time.
