# Verified model of the chat back end's protocols

nexus-services keeps its promises through small concurrent protocols: conditional
document updates, one transaction, a leased outbox, a stream, a few in-memory
structures under locks. This project models those protocols in Dafny 4.11 and
proves what they keep in every interleaving. `dafny verify dfyconfig.toml` checks
everything.

Every protocol appears in two forms. The form of the source is a class with the
source's fields and imperative methods, each proved against functions on values;
where a method makes several database calls, `Others()` stands between them for
anything other processes may do, and ghost results name what each call found. The
protocol is a state machine whose `Step` performs one of those calls, one locked
section or one channel operation; events that are not enabled change nothing, and
`Run` folds a sequence of them. Theorems are about all runs.

Time is counted in nanoseconds since Go's zero time, and every instant written to
MongoDB is rounded down to a millisecond (`Instants.Stored`); the rate limiter
counts in the database's milliseconds. One database update or transaction is one
step; a stream, a subject and an object store do one operation per step, and each of
them may also land without the caller learning of it, a publication even long after
its worker gave up on it.

| files | protocol |
|---|---|
| `Domain`, `MessageStore`, `MessageAnswers`, `MessageRaces` | idempotent message creation: lookup, transaction (image, sequence, item, event), second lookup |
| `Outbox`, `Relay`, `LeaseTiming` | claim, publish, finish, retry, two-phase recovery of expired leases, and their timing |
| `Delivery`, `EndToEnd` | the dispatcher, and store, relay and dispatcher running at once on one outbox and one stream |
| `RateLimiter` | two sliding windows kept as a pruned list |
| `Connection`, `Gateway`, `Realtime`, `AttemptLimit` | the websocket queue, the hub's bookkeeping, and hub plus epoch-based subscriber |
| `Images`, `ImageLife`, `UploadLease`, `ImageGrace`, `ImageMessages` | upload leases, two-pass deletion across two stores, attachment by the message store |
| `RefreshTokens` | session entity, compare-and-set rotation, revocation on reuse |
| `Paging`, `ChatListing`, `Audit`, `StoreAudit` | listing by sequence while messages are appended, and the start-up audit |
| `Argon2id`, `Encodings`, `Text`, `Common` | the hash string's printer and parser, and shared vocabulary |

## What the proofs found

Where a promise does not hold as stated, the code is modelled as it is and the
exact condition is proved.

- The creating call answers the item as built in memory, a repetition as stored:
  they are identical if and only if the creation time is a whole millisecond
  (`MessageStore.RepeatIsIdenticalIffWholeMillisecond`, with a run in which they differ
  in `MessageRaces.RepetitionsCanDiffer`).
- A text message repeated in a race is told that its chat's counter is exhausted
  when it is, before the unique index can report the duplicate
  (`MessageStore.LosingTransactionDefers`, with such a run in
  `MessageRaces.RepetitionCanMeetExhaustion`). An image message never is
  (`ImageMessages.LosingImageRetryMeetsTheWinner`).
- The publisher's check that the lease is longer than publish plus finish neither keeps
  publishers apart nor protects a lease. Two workers never publish at once if and only
  if the claim call, the publish timeout and one millisecond fit
  (`LeaseTiming.PublishersExcludeEachOther`); a worker keeps its lease if and only if the
  finish timeout fits as well (`LeaseTiming.LeaseIsSafeIffAMillisecondIsLeft`).
- A deleted image record can be trusted exactly under the limits of
  `ImageLife.Safe`, which are a little wider than puts and cleanup runs together
  within the grace period (`ImageGrace.DeletedIsTrueIffSafe`).
- A replaced refresh token is always refused, but its session is revoked if and only if
  the token was itself in time when it was verified (its leeway included) and the
  document the presentation read was active by its clock reading
  (`Refresh.RefusalRevokesIff`).
  Both exceptions happen: a race between reading, rotation and expiry
  (`Refresh.SupersededTokenCanEscapeRevocation`), and, without any race, the
  presentation of a replaced token after its own expiry while the rotated session lives
  on (`Refresh.ExpiredTokenEscapesRevocation`).
- The hash parser accepts leading zeros and line breaks that the printer never
  writes, and an empty password can be hashed but never matched
  (`Argon2id.ParsedTextIsPrintedIffCanonical`, `Argon2id.NonCanonicalTextsAreAccepted`,
  `Argon2id.OwnHashMatches`).

## Model

| member | source | states |
|---|---|---|
| `MessageStore.Repository.RunTransaction` | internal/resources/mongodb/message_store/create.go:242-394 | attach, allocate, insert item, insert event: collections and answer are those of the atomic transaction, which `MessageAnswers.TransactionIsExact` and `MessageAnswers.CommitWritesExactly` characterise; any abort (image, chat, range, duplicate) changes nothing |
| `MessageAnswers.TransactionIsExact` | internal/resources/mongodb/message_store/create.go:242-394 | on consistent data a transaction commits if and only if its image (if it has one) was uploaded by the sender for this chat, is ready and unexpired at the creation time, the sender takes part in the chat, the counter has room and nothing has its key or identifiers; otherwise it answers the first of these that is missing |
| `MessageAnswers.CommitWritesExactly` | internal/resources/mongodb/message_store/create.go:251-394 | a commit writes one item with the fields of the request and the next sequence and one event, moves that chat's counter and sort position, attaches the image, and touches no other document |
| `MessageAnswers.CommittedEventIsDue` | internal/resources/mongodb/message_store/document.go:104-140 | the event of a committed message can be claimed exactly from the message's creation time on, with no attempts made, no lease and no other outcome |
| `MessageAnswers.ChatIsReportedMissing` | internal/resources/mongodb/message_store/create.go:44-76 | a call answers that there is no such chat if and only if nothing was found under its key, its image (if any) served, and the sender was not one of the two participants of a stored chat |
| `MessageAnswers.UndisturbedCreation` | internal/resources/mongodb/message_store/create.go:21-90 | a new message nobody interferes with is created with its fields as given, or the first of the four obstacles is named: image, chat, exhausted counter, an identifier already stored |
| `MessageAnswers.UndisturbedRepetition` | internal/resources/mongodb/message_store/create.go:194-240 | a repetition nobody interferes with is answered the stored message if chat and content are the same, and a conflict otherwise |
| `MessageStore.Repository.CreateWithOutbox` | internal/resources/mongodb/message_store/create.go:21-90 | whatever other processes do between its three database steps, the answer is the one the snapshots of lookup, transaction and second lookup call for |
| `MessageStore.StagesMakeTheCall` | internal/resources/mongodb/message_store/create.go:21-90 | the stepwise call used in interleavings, run to its end on any three databases, answers what the whole call answers |
| `MessageStore.TransactionKeepsGapFree` | internal/resources/mongodb/message_store/create.go:321-394 | a transaction, committed or aborted, keeps every chat at exactly the sequences 1..last_sequence, at most 2^53-1 |
| `MessageStore.TransactionKeepsIndexed` | internal/resources/mongodb/timeline_repository/repository.go:54-87 | a transaction keeps both unique indexes listing exactly the stored items |
| `MessageStore.TransactionKeepsPaired` | internal/resources/mongodb/message_store/create.go:242-319 | a committed transaction adds one item and its one event, equal field by field |
| `MessageStore.TransactionKeepsReadable` | internal/resources/mongodb/message_store/document.go:78-102 | every stored item decodes to itself, was sent by a participant and is not newer than its chat's sort position |
| `MessageStore.StoreStaysConsistent` | internal/resources/mongodb/message_store/create.go:242-394 | in every run of calls, failures, unseen commits, image changes and publications: per chat the sequences are exactly 1..last_sequence, items and events correspond one to one with equal contents, and no item is newer than summary_sort_at |
| `MessageStore.OneItemPerKey` | internal/resources/mongodb/message_store/create.go:21-90 | two successful calls with one (sender, client message) key asked for the same message and were answered the same item; at most one of them created it |
| `MessageStore.RepeatIsIdenticalIffWholeMillisecond` | internal/resources/mongodb/message_store/create.go:78-89 | creator and repeater are answered identical items if and only if the creation time is a whole millisecond (the creator answers from memory) |
| `MessageStore.LookupAnswersTheExistingItem` | internal/resources/mongodb/message_store/create.go:194-240 | once an item holds the key, either lookup answers it for the same chat and content and refuses every other request |
| `MessageStore.LosingTransactionDefers` | internal/resources/mongodb/message_store/create.go:44-76 | a transaction that lost the race aborts and leads to the second lookup, except that an exhausted chat counter refuses it first, unless its image was refused before that |
| `MessageRaces.RepetitionsCanDiffer` | internal/resources/mongodb/message_store/create.go:78-89 | a concrete run in which a creator and a repeater are answered different items: the first message of a chat, created off the millisecond |
| `MessageRaces.RepetitionCanMeetExhaustion` | internal/resources/mongodb/message_store/create.go:44-76 | a concrete run that fills a chat to its last sequence, after which a repetition of its last text is refused for the counter instead of being answered that text |
| `Documents.DocumentsRoundTrip` | internal/resources/mongodb/message_store/document.go:146-253 | every accepted message reads back from its document as itself, stored or not |
| `Timeline.ClientMessageIDIsStable` | internal/domain/timeline/message_identity.go:21-29 | an accepted client message identifier is in the canonical form, which parses to itself |
| `Timeline.EverySpellingParses` | internal/domain/timeline/message_identity.go:21-29 | every spelling of a canonical identifier, with capital letters and white space around it, parses to that identifier |
| `Timeline.ContentIsTextOrImage` | internal/domain/timeline/item.go:67-116 | a valid content is exactly a text that is not blank, or an image with a trimmed identifier of up to 128 bytes and a caption of up to 4000 characters, without fields of the other kind |
| `Outbox.Repository.ClaimNext` | internal/resources/mongodb/outbox_repository/claim.go:74-113 | takes the first due document in (due time, creation, _id) order and leases it, or nothing when none is due |
| `Outbox.ClaimTakesTheFirstDue` | internal/resources/mongodb/outbox_repository/claim.go:74-113 | a claim finds something if and only if something is due, and what it takes precedes every other due document |
| `Outbox.Repository.FinishLease` | internal/resources/mongodb/outbox_repository/complete.go:20-123 | the three finishing updates: one update behind the ownership filter; false and no change when the lease is not held |
| `Outbox.FinishedIsDueWhenAnnounced` | internal/resources/mongodb/outbox_repository/complete.go:29-123 | after a failed attempt the event is due again exactly from its announced time, after a final outcome never; attempts count failures; the lease is gone; the message is unchanged |
| `Outbox.Repository.RecoverExpired` | internal/resources/mongodb/outbox_repository/recover.go:14-64 | find, then one guarded update per document found: the result is that of the guarded updates on whatever the collection has become in between |
| `Ordering.FirstKeysAscend` | internal/resources/mongodb/outbox_repository/recover.go:14-40 | the find phase reads in ascending order of expiry and _id |
| `Outbox.RecoveryFindsTheLongestExpired` | internal/resources/mongodb/outbox_repository/recover.go:14-40 | what the find leaves behind expired no earlier than anything it takes, and it takes everything recoverable up to the limit |
| `Outbox.RecoveryFindsSomething` | internal/resources/mongodb/outbox_repository/recover.go:14-40 | the find is empty if and only if the limit is zero or nothing is recoverable |
| `Outbox.RecoveryCountsItsChanges` | internal/resources/mongodb/outbox_repository/recover.go:40-64 | the answered count is the number of documents the guarded updates changed |
| `Relay.RetryDelayGrows` | internal/application/outbox/publish_one.go:73-95 | each failure up to the sixth waits longer than the one before whatever the jitter, through 1, 2, 5, 10, 30, 60 and 300 seconds; the waits an attempt count can get are exactly those from the base to a fifth more |
| `Relay.NewPublishOne` | internal/application/outbox/publish_one.go:45-71 | answers a publisher exactly for a worker name that is not blank, positive timeouts and a lease longer than both, and otherwise the error for the name or the timeouts |
| `Relay.PublishOne.RunOnce` | internal/application/outbox/publish_one.go:97-192 | claim, publish, finish: an acknowledged event with its lease held ends published with exactly that receipt, a transient failure ends pending after the wait for its attempts, an invalid message ends failed, each with the matching outcome, whatever happened meanwhile; a lost lease is reported and changes nothing |
| `Relay.FinishSettles` | internal/application/outbox/publish_one.go:140-191 | in every run a finishing step whose lease is lost changes nothing; otherwise the event ends published with its receipt, pending again after the wait for its attempts, or failed, as its publication ended, and an acknowledged one stays published at the acknowledged place |
| `Relay.UndisturbedAttemptPublishes` | internal/application/outbox/publish_one.go:97-192 | in every reachable state with something due, an undisturbed attempt claims a due event, puts its envelope at the end of the stream and records it published there, or fails it for good if it is invalid |
| `Relay.EventIsNeverLost` | internal/application/outbox/publish_one.go:97-192 | in every run of workers, crashes, recoveries and publications landing late, each event is pending, leased, rejected as invalid, or published with its envelope in the stream at the recorded place; and the stream holds nothing else |
| `Relay.OnlyCompleteMessagesArePublished` | internal/resources/nats/jetstream_publisher/publisher.go:51-118 | in every run, late landings included, whatever the outbox holds, each published envelope is a complete created message of a chat with a sequence in range |
| `Relay.RecoveryIsFenced` | internal/resources/mongodb/outbox_repository/recover.go:14-64 | whatever runs between find and update, an update changes a document if and only if it is still exactly the one found, and then only returns it to the queue with attempts and due time kept |
| `Relay.DeadLeaseFinishesNothing` | internal/resources/mongodb/outbox_repository/complete.go:20-27 | once a lease was recovered or finished, every later finishing call with it matches nothing |
| `Relay.LeaseFinishesAtMostOnce` | internal/resources/mongodb/outbox_repository/complete.go:20-123 | each lease is finished successfully at most once, and a published or failed event never changes again |
| `LeaseTiming.PublishersExcludeEachOther` | internal/application/outbox/publish_one.go:55-59 | no two workers ever publish the event at the same time if and only if claim + publish + 1 ms fits into the lease; the finish timeout plays no part |
| `LeaseTiming.LeaseIsSafeIffAMillisecondIsLeft` | internal/application/outbox/publish_one.go:55-59 | a worker within its timeouts never loses its lease if and only if claim + publish + finish + 1 ms fits into the lease, because the stored lock is rounded down |
| `Chats.RelationIsSymmetric` | internal/domain/chat/chat.go:41-135 | a direct chat does not depend on the order of its participants, and exactly each of the two is related to the other |
| `Chats.CanonicalChatReads` | internal/domain/chat/chat.go:41-135 | a stored chat of two trimmed identifiers reads as itself if and only if they are in canonical order and its counter is in range |
| `Delivery.SubjectIsTheUsersOwn` | internal/ports/realtime_validation.go:8-10 | the usable identifiers are exactly those of up to 256 bytes that are one token of their NATS subject, without wildcards, white space and control characters |
| `Delivery.OnlyMessagesAreAddressed` | internal/application/delivery/dispatch.go:57-118 | what is addressed is a complete created message of up to 64 KiB sent by a participant of a stored chat, and it goes to the other participant |
| `Delivery.RefusalHasItsReason` | internal/drivers/worker/delivery_runner/runner.go:64-131 | a recorded refusal names the envelope if it was over 64 KiB and the event otherwise |
| `Delivery.FailedLookupDecidesNothing` | internal/application/delivery/dispatch.go:70-92 | while the chat lookup fails nothing is addressed, and what is refused would be refused with any chats |
| `Delivery.PublisherRefusesOnlyTheSender` | internal/ports/realtime_validation.go:12-23 | after the dispatcher's validation the realtime validation can only fail on the sender's identifier, and fails exactly then |
| `Delivery.SubjectsCarryCompleteMessages` | internal/ports/realtime_validation.go:12-23 | the realtime validation of publisher and subscriber lets through exactly the complete messages of protocol version 1 |
| `Delivery.Runner.PublishMessageCreated` | internal/resources/nats/realtime_publisher/publisher.go:33-55 | refuses an unusable subject or event without publishing; otherwise publishes unless the send did not land |
| `Delivery.Runner.Dispatch` | internal/application/delivery/dispatch.go:57-118 | recipient first, then sender; a refusal publishes nothing at all |
| `Delivery.Runner.ProcessMessage` | internal/drivers/worker/delivery_runner/runner.go:64-131 | acknowledges only after both publications, terminates only after the failure record; everything else leaves the message to be redelivered |
| `Delivery.ProcessingFollowsItsScript` | internal/drivers/worker/delivery_runner/runner.go:64-131 | the sequential processing ends where its script of single steps ends, so what holds for all interleavings of steps holds for it |
| `EndToEnd.GoodItemPassesValidation` | internal/resources/nats/jetstream_publisher/publisher.go:51-118 | a stored message passes the stream publisher's and the dispatcher's validation with every field as stored |
| `EndToEnd.CommittedMessageIsAccountedFor` | internal/resources/mongodb/message_store/create.go:242-319 | with calls, publishers, recoveries and dispatchers interleaved, each committed message's event is pending, leased or published with its envelope in the stream, and never failed |
| `EndToEnd.CommittedMessageIsDueAtOnce` | internal/resources/mongodb/message_store/document.go:104-140 | in every run, a committed event that no attempt has finished is leased or can be claimed from its item's creation time on |
| `EndToEnd.AcknowledgedMeansDelivered` | internal/application/delivery/dispatch.go:57-118 | an acknowledged stream message was delivered, with the fields of the stored item, to the subjects of both participants |
| `EndToEnd.TerminatedMeansRefused` | internal/drivers/worker/delivery_runner/runner.go:110-131 | a terminated message has its failure record in the stream, and is larger than 64 KiB or has a participant whose identifier is no subject token |
| `EndToEnd.OnlyStoredMessagesAreDelivered` | internal/application/delivery/dispatch.go:94-117 | whatever any subject receives is a stored message of a chat that user takes part in |
| `EndToEnd.UndisturbedMessageIsDelivered` | internal/drivers/worker/delivery_runner/runner.go:64-131 | from every reachable state, a message in the stream whose dispatch is not disturbed reaches both participants and is acknowledged, provided it is within 64 KiB and their identifiers are subject tokens |
| `RateLimiter.Limiter.Reserve` | internal/resources/mongodb/message_rate_limiter/limiter.go:47-68 | one upsert per user; the wait is the distance from the checked time to retry_at; a blank user is refused |
| `RateLimiter.Limiter.Expire` | internal/resources/mongodb/message_rate_limiter/limiter.go:36-45 | a deletion by the TTL index touches one document at most, and no later attempt of any user is answered or stored differently because of it |
| `RateLimiter.ExpiryIsExact` | internal/resources/mongodb/message_rate_limiter/limiter.go:36-45 | expires_at is the least time for that: an attempt leads to the same document with and without the stored one if and only if it comes at the expiry or later |
| `RateLimiter.StepRefines` | internal/resources/mongodb/message_rate_limiter/limiter.go:70-115 | the pruned list agrees with the complete admission history on both windows for all later times, is never empty, and expires a minute after its last entry |
| `RateLimiter.ReserveIsExact` | internal/resources/mongodb/message_rate_limiter/limiter.go:70-115 | after any run an attempt is admitted if and only if the history has fewer than 60 in 60 s and 30 in 10 s, and retry_at is the least time at which it would be |
| `RateLimiter.WindowsNeverOverflow` | internal/resources/mongodb/message_rate_limiter/limiter.go:70-115 | no 60 s window ever holds more than 60 admissions, no 10 s window more than 30 |
| `RateLimiter.OnlyAdmissionsMatter` | internal/resources/mongodb/message_rate_limiter/limiter.go:36-68 | refused attempts and TTL deletions can be left out of any run without changing a later decision |
| `RateLimiter.RetryAfterSuffices` | internal/drivers/http/handler/chats/create_message.go:190-192 | the whole-second Retry-After value always suffices and overshoots the exact wait by less than a second; the wait lies in (0, 60 s] |
| `RateLimiter.RetryAfterIsLeast` | internal/drivers/http/handler/chats/create_message.go:190-192 | the announced seconds are the least whole number that is no shorter than the wait |
| `RateLimiter.IdleDocumentsExpire` | internal/resources/mongodb/message_rate_limiter/limiter.go:36-45 | in every run the TTL index can delete a user's document exactly when a minute has passed since each of the admissions, and a document that stays is unchanged |
| `Connection.Connection.Enqueue` | internal/drivers/websocket/connection.go:36-57 | appends and signals within both limits; otherwise asks for the close and leaves the queue alone |
| `Connection.Connection.Activate` | internal/drivers/websocket/connection.go:59-89 | puts the ready frame in front of everything buffered, within both limits |
| `Connection.Connection.Drain` | internal/drivers/websocket/connection.go:182-206 | writes a prefix of the queue in order, all of it if no write fails; nothing before activation |
| `Connection.QueueStaysSound` | internal/drivers/websocket/connection.go:36-89 | appending, activating and taking keep queuedBytes the sum of the queued lengths, within both limits |
| `ConnectionRun.ConnectionIsBoundedFIFO` | internal/drivers/websocket/connection.go:36-207 | in every interleaving of callback, activation, writer and closers the taken frames are a prefix of the ready frame followed by the events in order with none left out; nothing is taken before activation; both limits hold |
| `ConnectionRun.LivingConnectionMissesNothing` | internal/drivers/websocket/connection.go:36-57 | taken and queued frames of a connection that is not closing are exactly what was offered |
| `ConnectionRun.QueueAlwaysDrains` | internal/drivers/websocket/connection.go:169-207 | no wake-up is lost: from every reachable state the signals already under way and the writer alone bring out everything accepted |
| `ConnectionRun.ClosingHasACause` | internal/drivers/websocket/connection.go:36-93 | in every run a connection is asked to close only if its owner closed it, a write failed, or a frame was offered or activated beyond one of the two limits |
| `Gateway.Gateway.Reserve` | internal/drivers/websocket/hub.go:94-133 | checks draining, health, both connection limits and the attempt window; joins the current user state unless it failed; refuses without any change |
| `Gateway.Gateway.Release` | internal/drivers/websocket/hub.go:135-159 | leaves the counts and the state, hands out the subscription of a state that became empty, and removes the current state only if it is this one |
| `Gateway.Gateway.Prepare` | internal/drivers/websocket/hub.go:161-170 | begins a state's preparation once, and never while draining |
| `Gateway.Gateway.Finish` | internal/drivers/websocket/hub.go:174-188 | keeps an obtained subscription only if the state still has connections, has not failed, and the gateway is healthy and not draining |
| `Gateway.Gateway.FailUser` | internal/drivers/websocket/hub.go:220-231 | fails the state and asks all its connections to close |
| `Gateway.StopAllIsStopEach` | internal/drivers/websocket/hub.go:220-245 | asking a set of connections to close is asking each of them, in whatever order |
| `Gateway.Gateway.Shutdown` | internal/drivers/websocket/hub.go:233-245 | fails all current states and asks all connections to close |
| `Gateway.ReserveKeepsSound` | internal/drivers/websocket/hub.go:94-133 | a reservation keeps exact counts, both connection limits, the attempt limits and the links between connections and states |
| `Gateway.ReleaseKeepsSound` | internal/drivers/websocket/hub.go:135-159 | a release keeps them too: no zero counts, no current state without connections, no newer generation removed |
| `AttemptLimit.AttemptsAreLimited` | internal/drivers/websocket/hub.go:94-133 | in every run with a clock that does not go back, a stored window starts at an admitted reservation, counts exactly the admissions since and covers a minute with at most 6 * MaxConnectionsPerUser of them; no minute, however it lies to the windows, holds more than twice as many |
| `AttemptLimit.ReservationIsExact` | internal/drivers/websocket/hub.go:94-133 | on a healthy gateway that is not draining a reservation is admitted if and only if both connection limits and the attempt limit of the user's current minute have room, counted by what was really admitted |
| `Subscriber.Subscriber.Fail` | internal/resources/nats/realtime_subscriber/subscriber.go:58-70 | the failure step of the interleavings: a new epoch, unhealthy, and the callbacks of every listener |
| `Subscriber.Subscriber.MonitorRound` | internal/resources/nats/realtime_subscriber/subscriber.go:72-94 | runs the three monitor steps of the interleavings on whatever they find; a round restores health if and only if the connection was up and unhealthy, its flush succeeded, and the connection is still up in the same epoch |
| `Subscriber.Subscriber.Subscribe` | internal/resources/nats/realtime_subscriber/subscriber.go:96-134 | a chain of the interleavings' steps on whatever they find, which ends in success only if the connection was healthy at the end in the epoch read at the start; every failure after registration unregisters |
| `Realtime.BookkeepingIsExact` | internal/drivers/websocket/hub.go:94-266 | in every interleaving: perUser counts the live connections with no zero entries, all limits hold, the wait count is the unreleased connections plus running preparations, no state is prepared twice |
| `Realtime.WaitNeverRisesWhileDraining` | internal/drivers/websocket/hub.go:233-266 | after draining begins the wait count never rises |
| `Realtime.DrainingDismissesEverybody` | internal/drivers/websocket/hub.go:233-266 | in every run, once draining has begun every live connection was asked to close or is about to be, and no user has a state that a connection could join |
| `Realtime.SubscriptionsAreClosed` | internal/drivers/websocket/hub.go:135-192 | no subscription outlives its state's last connection, once the preparation is over and no release is closing it |
| `Realtime.NoSilentGap` | internal/resources/nats/realtime_subscriber/subscriber.go:42-134 | when callbacks under way have run, every connection past its ready check that is not asked to close has a subscription made in the current epoch, on a NATS connection that since before the ready frame has not broken and whose library has dropped no message |
| `Realtime.EverythingSettles` | internal/resources/nats/realtime_subscriber/subscriber.go:58-70 | from every state, running the library callbacks, failure callbacks and close requests under way, and nothing else, leaves none under way |
| `Realtime.HealthyMeansFlushed` | internal/resources/nats/realtime_subscriber/subscriber.go:72-94 | a run that ends healthy contains a monitor flush that succeeded, in the epoch of the end, while the connection was up and the monitor had loaded that epoch |
| `Realtime.HealthReturns` | internal/resources/nats/realtime_subscriber/subscriber.go:72-94 | on a connection that is up, one undisturbed monitor round with a successful flush makes the subscriber healthy, whatever happened before |
| `Realtime.RoundsEnd` | internal/resources/nats/realtime_subscriber/subscriber.go:72-94 | a monitor round that has begun comes to rest whatever its flush does |
| `Realtime.UndisturbedSubscribeSucceeds` | internal/resources/nats/realtime_subscriber/subscriber.go:96-134 | on a healthy connection a subscription that nothing disturbs is obtained, in the current epoch |
| `Realtime.UndisturbedConnectionBecomesReady` | internal/drivers/websocket/hub.go:94-218 | on a healthy gateway that is not draining, a new connection whose state nobody has prepared obtains a subscription of the current epoch and becomes active |
| `ImageRepository.Repository.ReserveUpload` | internal/resources/mongodb/image_repository/repository.go:62-98 | insert, or the existing asset, or a take-over of a lapsed lease, according to what each of its database calls finds |
| `ImageRepository.Repository.MarkReady` | internal/resources/mongodb/image_repository/repository.go:100-106 | marks ready an unexpired pending image whose unlapsed lease has this token, and no other; `UploadLease.MarkAnswersByTheClock` gives the answer by the clock |
| `ImageRepository.Repository.ReleaseUpload` | internal/resources/mongodb/image_repository/repository.go:108-111 | releases only the lease with this token |
| `ImageRepository.Repository.ClaimAbandoned` | internal/resources/mongodb/image_repository/repository.go:125-144 | takes an abandoned image, or else one whose deletion is due again, or reports that there is none |
| `ImageRepository.Repository.CompleteDeletion` | internal/resources/mongodb/image_repository/repository.go:146-154 | marks deleted only from the end of the grace period on, and only with the current delete token |
| `ImageService.Service.Upload` | internal/application/images/service.go:73-129 | success only after a confirmed put and a MarkReady that matched; the lease is released in any case |
| `ImageService.Service.CleanupOnce` | internal/application/images/service.go:160-173 | completes only after a confirmed storage delete |
| `ImageLife.RepeatedUploadMeetsItsImage` | internal/resources/mongodb/image_repository/repository.go:53-98 | a repeated upload has one image: it is refused as a conflict exactly if chat, checksum or size differ, as expired exactly if the image is being deleted or gone or is past its expiry unattached, and is otherwise pointed to that image |
| `ImageLife.ReadableImagesHaveTheirBytes` | internal/resources/mongodb/image_repository/repository.go:100-144 | in every interleaving of uploads, retries, sends and cleanups, a ready or attached image has its object with the recorded checksum, and no delete was ever issued for it |
| `ImageLife.SupersededTokenDoesNothing` | internal/resources/mongodb/image_repository/repository.go:100-111 | an upload token that lost its lease can never again mark ready or release |
| `ImageLife.DeletedMeansNoBytes` | internal/resources/mongodb/image_repository/repository.go:146-154 | for safe time limits a record marked deleted has no object |
| `ImageLife.FinalStatusesStay` | internal/resources/mongodb/image_repository/repository.go:125-154 | attached and deleted images never change again, so an absent object stays absent |
| `UploadLease.MarkAnswersByTheClock` | internal/resources/mongodb/image_repository/repository.go:100-106 | in every run a call that still has the image's token is told success by its mark if and only if the reading is, in stored milliseconds, before the end of its lease and before the image's expiry; otherwise nothing changes |
| `UploadLease.UploadWithinItsLeaseSucceeds` | internal/resources/mongodb/image_repository/repository.go:53-106 | in every run an upload whose put is done and that marks before its two minutes and the expiry are over still has the token, leaves the image ready and is told so, whoever else tried |
| `UploadLease.NewImageTimetable` | internal/resources/mongodb/image_repository/repository.go:53-98 | a new image keeps its candidate's fields; it can be marked before two minutes, taken over from then to a day, and is abandoned from a day on |
| `UploadLease.UndisturbedUploadStores` | internal/application/images/service.go:73-129 | from every reachable state, a new upload that nothing disturbs is told its image, which is ready with its bytes stored |
| `UploadLease.CleanupClaimIsExclusive` | internal/resources/mongodb/image_repository/repository.go:125-144 | a cleanup's claim is exclusive for two minutes, after which the image is due again |
| `UploadLease.CompletionUsesUpTheToken` | internal/resources/mongodb/image_repository/repository.go:146-154 | a completion uses up its token, deletes the image exactly from the end of the grace period on, and before that makes it due again at that end |
| `UploadLease.UndisturbedCleanupDeletes` | internal/application/images/service.go:160-173 | an abandoned image that nobody disturbs is deleted in two passes, the second after the grace period, and its object is gone |
| `ImageGrace.DeletedIsTrueIffSafe` | internal/domain/image/image.go:13-15 | no run ends with a deleted record whose object is stored if and only if late puts and cleanup runs fit the five-minute grace period together (or the two-minute lease and the grace period separately, with a millisecond to spare) |
| `ImageMessages.AttachedImagesStayReadable` | internal/resources/mongodb/message_store/create.go:251-264 | an attached image is shown by exactly one message, of its uploader and chat; every image a message shows is attached and keeps its bytes |
| `ImageMessages.LosingImageRetryMeetsTheWinner` | internal/resources/mongodb/message_store/create.go:44-76 | in every reachable state an image message asked for again has its transaction refused by the image, never by the counter or an index, and the lookup after that answers the stored item |
| `ImageMessages.RepetitionAnswersTheWinner` | internal/resources/mongodb/message_store/create.go:21-90 | however a repetition goes on among all other calls, uploads and cleanups, it ends with the stored item, with a failure, or, only for a text, with the exhausted counter |
| `Sessions.Session.EnsureActive` | internal/domain/session/session.go:89-98 | active means neither revoked nor expired |
| `Sessions.Session.ValidateRefreshTokenDigest` | internal/domain/session/session.go:108-119 | accepts exactly the current digest |
| `Sessions.Session.RotateRefreshToken` | internal/domain/session/session.go:121-138 | replaces digest and expiry of an active session only |
| `Sessions.Session.Revoke` | internal/domain/session/session.go:140-152 | the first revocation stays |
| `SessionStore.Repository.FindByID` | internal/resources/mongodb/session_repository/repository.go:95-131 | restores the stored session, and tells absence from an invalid document |
| `SessionStore.Repository.Rotate` | internal/resources/mongodb/session_repository/repository.go:133-208 | compare-and-set: only the expected digest of an unrevoked, unexpired session; otherwise a conflict without change |
| `SessionStore.Repository.Revoke` | internal/resources/mongodb/session_repository/repository.go:210-272 | revokes once; a second lookup tells revoked from absent |
| `Refresh.NewUseCase` | internal/application/auth/refresh.go:46-107 | answers a use case exactly for a positive access lifetime and a longer refresh lifetime |
| `Refresh.UseCase.Execute` | internal/application/auth/refresh.go:109-295 | a token that is empty, not genuine or not in time is refused without any change; otherwise, whatever happens between its steps, new tokens come only from a compare-and-set that matched, and a mismatch or a conflict revokes |
| `Refresh.UseCase.RejectReusedToken` | internal/application/auth/refresh.go:297-314 | never returns tokens; a matching revocation is reported as an invalid token |
| `Refresh.RefusalRevokesIff` | internal/application/auth/refresh.go:117-187 | in every run a presentation answered as invalid has revoked its session if and only if its token was in time at its verification and the document it read was active at its decision; a session it revoked stays revoked or is gone |
| `Refresh.SupersededTokenRevokesIff` | internal/application/auth/refresh.go:117-187 | however far its presentation had come when a token was replaced, once it has an answer other than a failure the answer is invalid, and it has revoked exactly under that condition |
| `Refresh.TokenIsSingleUse` | internal/application/auth/refresh.go:109-295 | two presentations that both returned new tokens for one refresh token are the same presentation |
| `Refresh.UndisturbedRefreshSucceeds` | internal/application/auth/refresh.go:109-295 | the current token of an active session, presented in time and undisturbed, is answered new tokens, and the session has rotated to them |
| `Refresh.UndisturbedReuseRevokes` | internal/application/auth/refresh.go:155-187 | a replaced token of an active session, presented in time and undisturbed, is answered as invalid and has revoked the session from that moment on |
| `Refresh.EndedSessionNeverRotates` | internal/resources/mongodb/session_repository/repository.go:133-272 | once a session is revoked or gone no later rotation of it succeeds |
| `Refresh.FirstRevocationStays` | internal/resources/mongodb/session_repository/repository.go:210-272 | in every run a revoked session, as long as its document is kept, stays exactly what it was when it was revoked, the revocation time included |
| `Refresh.SupersededTokenNeverSucceeds` | internal/resources/mongodb/session_repository/repository.go:133-208 | however far its presentation had come, a token that was replaced never yields new tokens |
| `Refresh.RefusalEndsTheSession` | internal/application/auth/refresh.go:117-314 | a refused presentation leaves its session revoked or gone, unless its token was not in time at its verification or the document it read had expired by its clock reading |
| `Refresh.SupersededTokenCanEscapeRevocation` | internal/application/auth/refresh.go:155-187 | the second exception happens: a concrete race refuses a replaced token without revoking its session, which is still active |
| `Refresh.ExpiredTokenEscapesRevocation` | internal/resources/security/jwtadapter/manager.go:97-111 | the first exception happens without any race: a replaced token presented alone after its own expiry is refused before the session is read, which stays active |
| `Paging.Repository.ListBySequence` | internal/resources/mongodb/timeline_repository/sequence.go:19-117 | one page or the errors for a bad window, legacy data or an undecodable document |
| `Paging.Repository.ReadCursor` | internal/resources/mongodb/timeline_repository/sequence.go:78-95 | every document found is decoded in order, one failure fails the page |
| `Paging.Repository.ReverseItems` | internal/resources/mongodb/timeline_repository/sequence.go:106-111 | the in-place reversal of a backward page |
| `PageWalk.ForwardPage` | internal/resources/mongodb/timeline_repository/sequence.go:60-105 | a forward page is the next items after the cursor up to the limit, with a cursor if and only if more remain |
| `PageWalk.BackwardPage` | internal/resources/mongodb/timeline_repository/sequence.go:60-112 | a backward page is the last items before the cursor in ascending order, with a cursor if and only if earlier ones remain |
| `PageWalk.OutOfRangeIsRefused` | internal/resources/mongodb/timeline_repository/sequence.go:47-58 | a window beyond what is stored, or that ends before it starts, is refused, and nothing else is |
| `ChatListing.ForwardListingIsExact` | internal/resources/mongodb/timeline_repository/sequence.go:30-112 | while any calls append, following nextAfterSequence to a fixed end stops after the pages needed and yields exactly after+1..through |
| `ChatListing.BackwardListingIsExact` | internal/resources/mongodb/timeline_repository/sequence.go:30-112 | following nextBeforeSequence from the first page yields exactly 1..n of that page's moment |
| `Audit.Repository.CheckRealtimeData` | internal/resources/mongodb/timeline_repository/audit.go:15-28 | runs the audit and keeps the flag that switches the count of invalid documents off |
| `Audit.Repository.CheckSnapshot` | internal/resources/mongodb/timeline_repository/audit.go:30-86 | finds nothing if and only if every group and every counter passes |
| `Audit.AuditCharacterisesContiguity` | internal/resources/mongodb/timeline_repository/audit.go:30-86 | given the unique index, the aggregates pass if and only if every chat's sequences are exactly 1..counter with usable client keys and empty chats have no counter |
| `Audit.CountFindsWhatIsOutOfRange` | internal/resources/mongodb/timeline_repository/sequence.go:33-45 | the count of a listing that was not audited finds nothing in a numbered chat if and only if every sequence is in 1..2^53-1 and every document has a client key |
| `Audit.FastPathIsSafe` | internal/resources/mongodb/timeline_repository/sequence.go:39-45 | after one passing audit, whatever the writers do, another one would pass, a listing of the audited documents finds a chat's sequences to be exactly 1..counter, and skipping the count changes no page of it |
| `StoreAudit.StoreDataPassesTheAudit` | internal/resources/mongodb/timeline_repository/repository.go:54-87 | what the message store writes, in any run, satisfies the unique index and passes the audit |
| `StoreAudit.ListingsReadTheAuditedData` | internal/resources/mongodb/timeline_repository/sequence.go:60-95 | the documents a listing reads by sequence are, chat by chat, those the audit has read |
| `Argon2id.NewHasher` | internal/resources/security/argon2id/argon2id.go:57-65 | answers a hasher exactly for parameters within all limits |
| `Argon2id.Hasher.Hash` | internal/resources/security/argon2id/argon2id.go:67-93 | the encoded form of the derived key, never blank |
| `Argon2id.Hasher.Matches` | internal/resources/security/argon2id/argon2id.go:95-119 | the verdict on the parsed hash; errors for an empty password and a malformed hash |
| `Argon2id.EraseBytes` | internal/resources/security/argon2id/argon2id.go:252-256 | zeroes the whole buffer |
| `Argon2id.HashRoundTrips` | internal/resources/security/argon2id/argon2id.go:121-250 | for all valid parameters the encoding stays within 512 bytes and parses to the same parameters, salt and key |
| `Argon2id.ParsedTextIsPrintedIffCanonical` | internal/resources/security/argon2id/argon2id.go:135-207 | an accepted text is the printed one if and only if it has no leading zeros and no line breaks |
| `Argon2id.NonCanonicalTextsAreAccepted` | internal/resources/security/argon2id/argon2id.go:135-207 | every hash has accepted texts that are not its printed one: with a zero before its memory cost, and with a line break before its salt |
| `Argon2id.OwnHashMatches` | internal/resources/security/argon2id/argon2id.go:67-119 | the hash of a password accepts it if and only if it is not empty, and another one if and only if it derives the same key |
| `Argon2id.HashThenMatch` | internal/resources/security/argon2id/argon2id.go:67-119 | the whole path through two hashers whose parameters may differ |
| `Base64.DecodeExactly` | internal/resources/security/argon2id/argon2id.go:173-181 | unpadded strict base64: a text decodes to given bytes if and only if, line breaks aside, it is their encoding (sections 3.2 and 4 of RFC 4648) |
| `Decimal.ParsesItsPrint` | internal/resources/security/argon2id/argon2id.go:197-207 | a printed number parses to itself if it is below the bound, and is refused otherwise |
| `Decimal.PrintIsCanonical` | internal/resources/security/argon2id/argon2id.go:197-207 | a digit text is the print of its value if and only if it has no leading zero |

## Left out

- `Others()` methods promise nothing about the database and stand for arbitrary interference; which interference is possible is what the state machines say.
- MongoDB, NATS, object storage and websocket libraries: only the atomic steps, index aborts and delivery guarantees the code relies on; a driver's retries inside one transaction are one attempt.
- Stream retention and the stream's duplicate window: the stream keeps its entries, and a publication may be recognised as a duplicate of any entry with the same event identifier.
- `LeaseTiming` assumes one clock for all publishers and calls that land within their timeouts; `ImageGrace` assumes one clock and its two stated bounds.
- Distribution of stream subjects over partitions (FNV-1a of the chat identifier).
- A delivered message's metadata checks (its stream and consumer): a message from elsewhere is only sent back.
- JSON encoding: an envelope decodes to itself, its size is a parameter; strings are sequences of code points, so invalid UTF-8 does not occur.
- Letter case outside ASCII in kinds, content types and client message identifiers: no such letter lowers or raises to a character of an accepted value.
- Cryptography: key derivation is any function of its inputs with the requested output length; a refresh token is known by its digest, and in the interleavings presenting a token means presenting one that was issued, at its expiry or after it as well as before.
- The token library (github.com/golang-jwt/jwt): its checks of a genuine token's instants are `Refresh.InTime`, with instants in whole seconds; a cancelled request is a failed step.
- Image width, height, content type and bucket, the reading and seeking of the request body, presigned access, and the wiring of a missing images collection.
- `Subscriber.Subscriber.Close`: unregistering and unsubscribing are one step.
- Timers, heartbeats, ready and write timeouts, session checks and contexts of the gateway: only their effect, a close request or a failed step.
- The order in which a connection's goroutines learn of the stop signal beyond what the writer's select allows; closing handshakes.
- Subscriber start-up and shutdown, metrics and logging.
- HTTP handlers (except the Retry-After rounding), routing, configuration, bootstrap.
- The duplicate-key retry of the rate limiter's upsert.
- Sign-up, sign-in, sign-out and session queries beyond the creation and revocation of sessions.
- Legacy cursor listings of timelines, chats and users, and the direct-chat upsert: easier repeats of the paging and unique-index arguments.
- The audit's values are reduced to missing, null, integers, doubles and strings; strings are not ordered among themselves.
- The load generator under `scripts/stress`.
