# Verified models of the messenger, the downloader, the token exchange and the HTTP mocker

This project models the parts of the repository whose correctness depends on
several goroutines, processes or loops working together, and proves what they
guarantee.

- **Store-and-forward messaging** (`semestral/internal/messaging`, and the
  receiving side of the client). The server's tables (`MessageStore`,
  `StoreInvariants`, `Backlog`), the broker with its bounded session queues
  (`Broker`), the sending handler (`Service`), the receiving client (`Client`) and
  the chat membership handlers (`Chats`, and interleaved in `ChatHandlers`) are
  objects and functions of their own.
  `Delivery` puts them together as one interleaved state machine: any number of
  senders, publishing goroutines, streams and clients, with lost and repeated acks,
  broken streams, failed inserts and server restarts. Its steps use the very
  functions the objects' methods are proved against.
- **The event-driven downloader** (`hw3/pkg/downloader`). `DownloadEvents`,
  `DownloadRecords`, `Tasks`, `DownloadTasks` and `DownloaderService` model the
  objects; `Downloader` is the interleaved machine of submitting callers, workers,
  progress tickers, the event channel, the event loop, subscribers and shutdown.
  `RecordHistory`, `DownloadHistory` and `DownloadWork` tell what records, counts,
  cancellations and deliveries go back to from the events and steps alone.
- **One-time refresh tokens** (`semestral/internal/profiles` and
  `semestral/internal/auth`). `RefreshTokens` is the server alone, under any
  interleaving of logins, refreshes, restarts and the passing of time; `TokenClient`
  adds one client with any number of concurrent requests, a double-checked write lock,
  lost replies and other clients.
- **The HTTP mocker** (`hw4/pkg/mocker`). `RequestSpecs` relates the comparison of
  frequency tables to multisets, `Mocker` relates the nested table to a
  specification over the log of calls alone.
- **`FormatBytes`** (`hw3/internal/shell/commands/formatting.go`).

## How the pieces fit

A method that changes state is proved against a function on values (for example
`SqliteRepository.AcknowledgeAndCleanupMessage` against `Acknowledged`,
`TasksStore.Remove` against `Removed`). The state machines take their steps with the
same functions, and the theorems are about all their runs: a run is a sequence of
states and steps that starts in the initial state and takes enabled steps, in any
order. `DeliverySafety`, `DownloaderSafety` and `TokenSafety` show that every step
keeps the invariants, the `…Theorems` modules draw the conclusions, and the
`…Progress` modules show that no reachable state is a dead end.
`WorkerRefinement` shows that an interleaved worker sends what one `Execute` sends.

Where the source can be interrupted, the machine has a step boundary:

- `Delivery`: reading the members (`Prepare`), the insert transaction (`Commit`),
  copying the targets under the read lock (`Collect`), each non-blocking send
  (`Offer`), registering a session (`Register`), reading the undelivered messages
  (`Snapshot`), each write to the stream (`Flush`, `Forward`), the end of the handler
  with its deferred unsubscribe (`End`), the client's local insert (`Keep`), the start
  of its ack by the update loop (`IssueAck`), the ack transaction (`Ack`),
  `StopReading`, `Abandon`, `Read` and `Restart`.
- `ChatHandlers`: each query and each write of a handler is a step; between them the
  handler keeps what it has seen.
- `Downloader`: the shutdown check, the table insert and the record insert of
  SubmitDownload are three steps; a worker, its copy loop and its ticker move
  separately; the loop removes the task of a terminal event (`Handle`), finishes the
  record (`Finalise`) and broadcasts (`Announce`) in three steps.
- `TokenClient`: the read under the read lock, taking the write lock, the second look
  with the call, and the reply are steps of a caller; the server's removal of the old
  token and registration of the new one are separate steps, the server can restart
  between any two, and the clocks of client and server advance independently.

## What was found

- A graceful `Shutdown` can return while one record is still not final: the drained
  channel closes when the last task is removed, before the loop finishes that task's
  record (`GracefulShutdownMayBeEarly` reaches such a state; `DrainedIsSettledIff`
  says this is the only exception).
- Without a transaction around lookup and insert, two handlers can create two direct
  chats for one pair (`ChatHandlers.TwoDirectChats`). Over every run, that happens
  exactly when a handler inserts on a lookup that has become stale
  (`UniqueUnlessStale`), hence never when the handlers run one at a time.
- `semestral/README.md:91` says that all undelivered messages are sent on
  subscription; the query stops at 100. With 101 pending one can be missed
  (`SnapshotMissesOne`); one batch is complete exactly up to 100 pending messages
  (`BatchIsCompleteIff`), and n messages need ceil(n/100) rounds (`BacklogDrains`),
  which are always possible (`BacklogCanAlwaysBeDelivered`).
- A group name may have up to 100 bytes, not 100 characters as the error message of
  `semestral/internal/messaging/service.go:353-357` says: 51 accented letters are
  refused (`AccentedNameIsRefused`), and of the names with 1 to 100 characters exactly
  those longer than 100 bytes are (`NameIsRefusedIff`).
- A client can lose its session although it never presented a token twice: its unused
  token is refused after seven days (`RefusedAfterExpiry`) and after a restart of the
  profile server (`RefusedAfterRestart`), and only then (`TokenTheorems.AcceptedIff`).
- The total reported by a finished download is the number of bytes read exactly
  while that number fits an int64 (`TotalIsExactIff`).

## Model

| member | source | states |
|---|---|---|
| MessageStore.SqliteRepository.InsertMessageWithAcks | semestral/internal/messaging/sqlite_repository.go:361-388 | message and all ack rows are inserted, or nothing; it succeeds exactly when no primary key is violated, the chat exists, and nothing else makes the database fail |
| MessageStore.SqliteRepository.AcknowledgeAndCleanupMessage | semestral/internal/messaging/sqlite_repository.go:441-480 | exactly the user's row gets the time, if it has none; the message goes exactly when no row of it is pending; nothing else changes |
| MessageStore.SqliteRepository.GetUndeliveredMessages | semestral/internal/messaging/sqlite_repository.go:108-115 | at most 100 pending messages of the user, each once, oldest first, none younger than one left out, and as many as there are up to 100 |
| MessageStore.SqliteRepository.SetMessagesRead | semestral/internal/messaging/sqlite_repository.go:482-503 | exactly the user's listed rows without a read time get it; every other row, column and message is unchanged |
| MessageStore.AddRowsKeys | semestral/internal/messaging/sqlite_repository.go:97-100 | inserting rows adds exactly their keys with their columns and leaves other rows alone |
| StoreInvariants.InsertKeepsIff | semestral/internal/messaging/service.go:622-661 | the insert keeps "a message is stored iff an ack row of it is pending" exactly when there is at least one row, which is what the handler checks first |
| StoreInvariants.AckKeeps | semestral/internal/messaging/sqlite_repository.go:441-480 | an ack, by anybody, keeps stored-iff-pending and never changes a time already set |
| MessageStore.PendingWaits | semestral/internal/messaging/sqlite_repository.go:102-106 | the pending count is zero exactly when no recipient is pending |
| StoreInvariants.AckIsIdempotent | semestral/internal/messaging/sqlite_repository.go:117-121 | a repeated ack changes nothing |
| StoreInvariants.StrayAckChangesNothing | semestral/internal/messaging/sqlite_repository.go:117-121 | an ack of somebody who is not pending changes nothing |
| StoreInvariants.ReadKeeps | semestral/internal/messaging/sqlite_repository.go:128-132 | read marks change nobody's pending state and no time already set |
| StoreInvariants.RunKeepsTables | semestral/internal/messaging/sqlite_repository.go:361-503 | over every sequence of sends, acks and read marks a message is stored iff pending, and set times never change |
| StoreInvariants.TimesComeFrom | semestral/internal/messaging/sqlite_repository.go:117-132 | over every run a row has a read or delivery time exactly if its own user has marked or acked it since it exists, and then that of the first such call |
| Backlog.BatchIsCompleteIff | semestral/internal/messaging/sqlite_repository.go:108-115 | one query returns everything pending exactly when at most 100 messages are pending |
| Backlog.AckAllRemoves | semestral/internal/messaging/sqlite_repository.go:441-480 | acking a batch removes exactly that user's pending rows of that batch |
| Backlog.RoundLeaves | semestral/internal/messaging/service.go:845-862 | a round of subscribe, store and ack-all takes the oldest min(100, n), leaves n - min(100, n), and touches nobody else's backlog |
| Backlog.BacklogDrains | semestral/internal/messaging/service.go:845-862 | after k rounds max(0, n - 100k) are left, so exactly ceil(n/100) rounds empty the backlog |
| Broker.UserSession.Close | semestral/internal/messaging/broker.go:57-61 | the session is closed, its buffer kept |
| Broker.UserSession.Offer | semestral/internal/messaging/broker.go:159-183 | one non-blocking send: skipped only if closed, appended only with room, and a full open session is closed |
| Broker.SubscribeRegisters | semestral/internal/messaging/broker.go:85-100 | subscribing adds exactly that session to exactly that user |
| Broker.UnsubscribeRemoves | semestral/internal/messaging/broker.go:103-134 | unsubscribing removes exactly that session and leaves no empty list |
| Broker.TargetsExactlyOnce | semestral/internal/messaging/broker.go:141-157 | a publish targets every registered session of every recipient, each exactly once, and no other |
| Broker.Broker.Subscribe | semestral/internal/messaging/broker.go:85-100 | a new empty open session is appended to the user's list |
| Broker.Broker.Unsubscribe | semestral/internal/messaging/broker.go:103-134 | the list is filtered in order, an empty one is deleted |
| Broker.Broker.CollectTargets | semestral/internal/messaging/broker.go:141-157 | the copy made under the lock is the target sequence of the registry |
| Broker.Broker.Publish | semestral/internal/messaging/broker.go:141-184 | undisturbed, it offers the message once to each target and leaves every other session alone |
| Service.RowsCoverRecipients | semestral/internal/messaging/service.go:622-638 | every member but the sender gets one fresh ack row, nobody else does |
| Service.MessagingService.SendMessage | semestral/internal/messaging/service.go:584-690 | exactly when each answer is given (failed membership query, permission, empty recipients, failed insert, success), and the tables each of them leaves |
| Client.InsertIsIdempotent | semestral/internal/client/storage/sqlite_repository.go:28-31 | a message received again changes nothing, and two messages can arrive in either order |
| Client.FirstCopyStays | semestral/internal/client/storage/sqlite_repository.go:28-31 | after any sequence of receipts an old row is unchanged and a new one is the first message received with its id |
| Client.ChatClient.RecvMessage | semestral/internal/client/tui/models/chat_model.go:411-446 | what each outcome of a stream read is reported as; the message is inserted unless present, and nothing changes otherwise |
| Client.ChatClient.AckMessage | semestral/internal/client/tui/models/chat_model.go:460-491 | at most six calls, all but the last failing retriably, and the outcome is that of the last |
| Client.ChatClient.HandleStreamEvent | semestral/internal/client/tui/models/chat_model.go:249-270 | an ack is sent only for a message the local table holds, and only if it was stored |
| DeliverySafety.CollectsRecipients | semestral/internal/messaging/broker.go:141-157 | in every reachable state the collected targets are exactly the registered sessions of the users with an ack row, each once |
| DeliverySafety.CommitKeepsNoGap | semestral/internal/messaging/service.go:661-685 | a commit makes messages pending that its own publish has yet to hand out |
| DeliverySafety.SnapshotKeepsNoGap | semestral/internal/messaging/service.go:780-794 | reading the snapshot after registering misses nothing |
| DeliverySafety.OfferKeepsNoGap | semestral/internal/messaging/broker.go:159-183 | a send puts the message in the queue or closes the session |
| DeliverySafety.WireIsGenuine | semestral/internal/messaging/service.go:794-841 | what reaches a client is a committed message, unchanged, addressed to its user |
| DeliveryTheorems.StepKeeps | semestral/internal/messaging/service.go:584-862 | every step of every goroutine keeps the whole invariant |
| DeliveryTheorems.NoMessageLoss | semestral/internal/messaging/service.go:706-708 | over every run, each ack row is pending and its message still stored unchanged, or one of the recipient's devices holds exactly that message; no sender has a row |
| DeliveryTheorems.RunGrows | semestral/internal/messaging/sqlite_repository.go:117-132 | over every run set times, ack rows and local copies stay, and closed sessions stay closed |
| DeliveryTheorems.NoGapAtSubscription | semestral/internal/messaging/service.go:780-794 | whatever is pending for the user of a live open session with a complete snapshot is in the snapshot, was enqueued, or belongs to a publish that will still reach it |
| DeliveryTheorems.QuietMeansCaughtUp | semestral/internal/messaging/service.go:794-841 | when nothing is under way to such a session, and its client has acked what it stored last, everything pending is stored on its device and its ack issued |
| DeliveryTheorems.AcksArrivedMeansDrained | semestral/internal/messaging/service.go:69-97 | and once those acks arrived nothing is pending for the user |
| DeliveryProgress.StoredButNotAcked | semestral/internal/client/tui/models/chat_model.go:249-270 | a client that quits between storing a message and starting its ack has the message on its device while no ack was ever issued, so that last condition is needed |
| DeliveryTheorems.BrokerNeverDropsSilently | semestral/internal/messaging/broker.go:141-184 | queues hold at most 30, an open session got exactly the sends aimed at it in order, and the client got a prefix of snapshot and sends |
| DeliveryTheorems.ClosedOnlyWhenFull | semestral/internal/messaging/broker.go:159-183 | a session is closed only by a send that found 30 messages buffered |
| DeliveryProgress.BacklogCanAlwaysBeDelivered | semestral/internal/messaging/service.go:706-708 | from every state of every run in which n messages are pending for a user, some continuation with ceil(n/100) new subscriptions leaves nothing pending for the user and every message on one of the user's devices |
| DeliveryProgress.RoundDelivered | semestral/internal/messaging/service.go:780-841 | one more subscription can bring the oldest min(100, n) messages to the client and all their acks to the server |
| DeliveryProgress.SnapshotMissesOne | semestral/internal/messaging/service.go:845-862 | with 101 messages pending a run exists in which an open subscriber has read its snapshot and one pending message is neither in it, nor queued, nor in any publish |
| Text.TrimSpaceTrims | semestral/internal/messaging/service.go:359-372 | trimming leaves no blank at either end and is idempotent |
| Text.TrimSpaceSplits | semestral/internal/messaging/service.go:352-372 | trimming cuts off blanks at both ends and nothing else |
| Text.TrimSpaceOf | semestral/internal/messaging/service.go:352-372 | a core without blanks at its ends comes out of any padding |
| Text.UpperIffSameLetters | hw4/pkg/mocker/request_spec.go:53 | ASCII texts have the same upper case exactly if they differ in case alone |
| Text.UpperHasNoSmall | hw4/pkg/mocker/request_spec.go:53 | upper case has no small letters, and a text without them is its own |
| Text.BytesAddUp | semestral/internal/messaging/service.go:353 | the byte length of a text is the sum of those of its parts |
| Text.BytesOfOne | semestral/internal/messaging/service.go:353 | a character has one to four bytes by its code point |
| Chats.ChatService.CreateDirectChat | semestral/internal/messaging/service.go:267-337 | every refusal and every failed call in the source's order; an existing direct chat is returned, else one with exactly the two users is created |
| Chats.CreateDirectEffect | semestral/internal/messaging/service.go:267-337 | a direct chat is opened only for two different users with a known target that have none; it has exactly these two members, and no other chat changes |
| Chats.ChatService.CleanMembers | semestral/internal/messaging/service.go:359-372 | the loop over raw ids builds the cleaned member list |
| Chats.CleanedIsDistinct | semestral/internal/messaging/service.go:359-372 | the list names the creator first, then every non-blank trimmed id once |
| Chats.ChatService.CreateGroupChat | semestral/internal/messaging/service.go:342-410 | name length in bytes, failed calls, unknown users, and the group created with exactly the cleaned members |
| Chats.CreateGroupEffect | semestral/internal/messaging/service.go:342-410 | a group is opened exactly with a name of 1 to 100 bytes and known members; its members are the creator and the users named, and no other chat changes |
| Chats.NameIsRefusedIff | semestral/internal/messaging/service.go:352-357 | a name of 1 to 100 characters is refused exactly when its encoding is longer than 100 bytes |
| Chats.AccentedNameIsRefused | semestral/internal/messaging/service.go:352-357 | 51 times U+00E9 is such a name |
| Chats.ChatService.AddChatMember | semestral/internal/messaging/service.go:416-498 | every refusal and every failed call in the source's order, and the one row added |
| Chats.AddMemberEffect | semestral/internal/messaging/service.go:416-498 | exactly a member can add, exactly to a group, exactly a known non-member, and exactly that user joins; when each refusal is given |
| Chats.ChatService.LeaveChat | semestral/internal/messaging/service.go:540-577 | only group chats can be left, only the caller's row goes, and failed calls change nothing |
| Chats.LeaveEffect | semestral/internal/messaging/service.go:540-577 | exactly a group can be left, and exactly the caller is no member afterwards |
| ChatHandlers.DirectChatsHaveTwoMembers | semestral/internal/messaging/service.go:267-577 | under every interleaving of the handlers' reads and writes, each write relying only on what its handler read before, each direct chat has exactly two members |
| ChatHandlers.StepKeepsSeen | semestral/internal/messaging/service.go:445-577 | what a handler has read is still right when it is used, whatever other handlers did in between |
| ChatHandlers.DirectChatsNeverChange | semestral/internal/messaging/service.go:445-577 | over every run direct chats keep their two members and groups stay groups |
| ChatHandlers.MemberIff | semestral/internal/messaging/sqlite_repository.go:69-79 | over every run a user is a member of a chat exactly if the chat was opened with that user or the user was added, and the user has not left since |
| ChatHandlers.AddedByMember | semestral/internal/messaging/service.go:433-447 | over every run a user is added only to a group, by a handler that has seen its caller inside and the user not |
| ChatHandlers.UniqueUnlessStale | semestral/internal/messaging/service.go:309-337 | over every run a step makes pairs ambiguous exactly if it inserts a direct chat for a pair that has got one since its handler's lookup |
| ChatHandlers.TwoDirectChats | semestral/internal/messaging/service.go:309-337 | a reachable state with two direct chats for one pair |
| ChatHandlers.DirectInOneGo | semestral/internal/messaging/service.go:267-337 | look up and insert run back to back do what the handler method does |
| ChatHandlers.AddInOneGo | semestral/internal/messaging/service.go:416-498 | the two reads and the insert run back to back do what the handler method does |
| ChatHandlers.LeaveInOneGo | semestral/internal/messaging/service.go:540-577 | the read and the delete run back to back do what the handler method does |
| ChatHandlers.GroupInOneGo | semestral/internal/messaging/service.go:342-410 | the insert does what the handler method does once its checks have passed |
| Chats.InsertKeepsUniqueIff | semestral/internal/messaging/service.go:311-337 | inserting a direct chat keeps pairs unique exactly while the lookup would find nothing |
| Chats.SerialRunKeeps | semestral/internal/messaging/service.go:267-577 | with handlers run one at a time pairs stay unique and direct chats keep their members |
| Chats.SameDirectChat | semestral/internal/messaging/service.go:267-337 | creating the chat again later, from either side, changes nothing and returns the same id exactly when the profile exists and the calls before the insert succeed |
| DownloadEvents.UnbrokenIsWellOrdered | hw3/pkg/downloader/download_task.go:85-127 | the stage automaton accepts exactly the sequences with Start only first and nothing but updates after a terminal event |
| DownloadEvents.OverMeansUpdates | hw3/pkg/downloader/download_task.go:252-276 | after the terminal event only late updates can follow |
| DownloadRecords.DownloadRecord.Start | hw3/pkg/downloader/download_record.go:133-144 | only a requested record starts |
| DownloadRecords.DownloadRecord.SetBytesDownloaded | hw3/pkg/downloader/download_record.go:148-157 | only a record in progress takes a count |
| DownloadRecords.DownloadRecord.Cancel | hw3/pkg/downloader/download_record.go:162-174 | unless final: canceled, task link dropped, done closed |
| DownloadRecords.DownloadRecord.Fail | hw3/pkg/downloader/download_record.go:179-192 | unless final: failed with the cause, task link dropped, done closed |
| DownloadRecords.DownloadRecord.Complete | hw3/pkg/downloader/download_record.go:197-214 | unless final: completed with both sizes, task link dropped, done closed |
| DownloadRecords.FinalIsAbsorbing | hw3/pkg/downloader/download_record.go:133-214 | whatever events come, done is closed at most once, exactly in final states, and a final record never changes |
| RecordHistory.RecordTells | hw3/pkg/downloader/download_record.go:133-214 | after any events in any order the record is told by them: the first terminal event decides status, cause and total, the first Start the expected size, the updates in between the bytes |
| DownloadHistory.RecordIsWhatWasBroadcast | hw3/pkg/downloader/downloader.go:227-268 | at the loop head of every run a record is Completed exactly after a Complete broadcast, with its total as both sizes; Failed exactly after Error, with its cause; Canceled exactly after Cancel; and has the size of its Start |
| DownloadHistory.RunningShowsLastUpdate | hw3/pkg/downloader/download_record.go:148-157 | over every run a running record shows the count of the last Update applied to it |
| DownloadWork.CompletedIsWritten | hw3/pkg/downloader/progress_writer.go:19-30 | over every run a completed record has exactly the sum of the bytes its task has written |
| DownloadWork.UpdateCarriesCount | hw3/pkg/downloader/download_task.go:252-268 | over every run an Update carries the bytes written up to the task's last tick |
| DownloadWork.CanceledIff | hw3/pkg/downloader/downloader.go:143-150 | over every run a context is cancelled exactly by a request, a refused submission, the removal after Error or Complete, or the shutdown |
| DownloadWork.CancelNeedsCanceled | hw3/pkg/downloader/download_task.go:171-180 | a worker sends Cancel only while its context is cancelled |
| DownloadWork.BroadcastReaches | hw3/pkg/downloader/downloader.go:396-406 | over every run a broadcast reaches exactly the subscribers with fewer than ten events waiting, and nothing else changes what a subscriber got |
| DownloadWork.ChannelHoldsTen | hw3/pkg/downloader/downloader.go:90 | a worker can send exactly while fewer than ten events are queued |
| Tasks.RunKeepsDrain | hw3/pkg/downloader/tasks_store.go:53-127 | over every sequence of calls the drained channel is closed exactly when draining and empty, at most once, and the table then stays empty |
| Tasks.TasksStore.DrainOnly | hw3/pkg/downloader/tasks_store.go:53-65 | drain mode is entered and an empty table closes the channel |
| Tasks.TasksStore.CancelAll | hw3/pkg/downloader/tasks_store.go:68-75 | every context in the table is cancelled |
| Tasks.TasksStore.Remove | hw3/pkg/downloader/tasks_store.go:79-96 | the entry is removed and returned, the last one in drain mode closes the channel |
| Tasks.TasksStore.Add | hw3/pkg/downloader/tasks_store.go:112-127 | refused exactly in drain mode or for a known id |
| DownloadTasks.DownloadTask.OpenFile | hw3/pkg/downloader/download_task.go:131-144 | an Error event exactly when the file cannot be created |
| DownloadTasks.DownloadTask.DoRequest | hw3/pkg/downloader/download_task.go:155-184 | which failure is reported as Error and which as Cancel |
| DownloadTasks.DownloadTask.DownloadBody | hw3/pkg/downloader/download_task.go:223-248 | the counter ends at the bytes copied, a failure is reported once |
| DownloadTasks.DownloadTask.Execute | hw3/pkg/downloader/download_task.go:85-127 | sends Cancel exactly if the request or the copy failed under a cancelled context, Error with its own cause after every other failure, Complete with the bytes read otherwise, and Start exactly for a body; the file survives exactly after Complete or when its removal fails |
| DownloadTasks.TraceEndsRight | hw3/pkg/downloader/download_task.go:131-276 | which event ends which outcome under which context |
| DownloadTasks.TraceHasOneTerminal | hw3/pkg/downloader/download_task.go:85-276 | on every path exactly one terminal event, the last one, and Start first if at all |
| DownloadTasks.TraceIsExact | hw3/pkg/downloader/download_task.go:85-276 | the executions leave exactly the ordered, terminated, update-free sequences with int64 totals |
| DownloadTasks.TotalIsExactIff | hw3/pkg/downloader/progress_writer.go:19-30 | the reported total is the number of bytes read exactly below 2^63 |
| DownloadTasks.WrapIsCongruent | hw3/pkg/downloader/progress_writer.go:23-30 | beyond 2^63 the total is off by a multiple of 2^64 and still an int64 |
| DownloadTasks.SumSplits | hw3/pkg/downloader/progress_writer.go:23-30 | bytes add up over any split into reads |
| DownloaderInvariants.ApplyKeepsWorker | hw3/pkg/downloader/downloader.go:227-268 | applying the oldest event keeps record, remaining events and worker in step and never lowers the byte count |
| DownloaderSafety.HeldIsKnown | hw3/pkg/downloader/downloader.go:200-213 | the loop's record-not-found branch is never taken |
| DownloaderSafety.StepKeeps | hw3/pkg/downloader/downloader.go:117-329 | every step of callers, workers, tickers, loop, subscribers and shutdown keeps the whole invariant |
| DownloaderTheorems.DrainSoundness | hw3/pkg/downloader/downloader.go:189-329 | at every loop head a record is non-final exactly when its task is in the table and both ids point at each other |
| DownloaderTheorems.DrainedIsSettledIff | hw3/pkg/downloader/tasks_store.go:53-96 | with the drained channel closed all records are final exactly unless the loop is between task removal and record completion, and then all others are |
| DownloaderTheorems.DrainedLeavesOnlyUpdates | hw3/pkg/downloader/downloader.go:189-287 | drained and at the loop head, all records are final and only late updates are queued |
| DownloaderTheorems.DrainModeIsForGood | hw3/pkg/downloader/tasks_store.go:53-127 | over every run drain mode never ends, the table then never grows, the channel closes at most once and stays with an empty table |
| DownloaderTheorems.EventsAreAppliedInOrder | hw3/pkg/downloader/downloader.go:189-268 | what was sent by a task is what was applied to its record followed by what is still queued, in order |
| DownloaderTheorems.OneTerminalPerTask | hw3/pkg/downloader/download_task.go:85-276 | a worker's events are ordered, and one of them is terminal exactly when it has left Execute |
| DownloaderTheorems.EveryEventFindsItsRecord | hw3/pkg/downloader/downloader.go:200-213 | every handled event finds its record, and every terminal one removes its task |
| DownloaderTheorems.ProgressIsMonotone | hw3/pkg/downloader/download_record.go:148-214 | over every run, late updates included, byte counts never decrease, records stay and final ones never change |
| DownloaderTheorems.CompletedMatchesCounter | hw3/pkg/downloader/download_task.go:272-276 | a completed record's byte count and total are the worker's counter; done is closed once, exactly when final |
| DownloaderTheorems.BroadcastShape | hw3/pkg/downloader/downloader.go:227-268 | per download: an optional Start, then at most one terminal event, present exactly when the record is final |
| DownloaderTheorems.SubscriberGetsSubsequence | hw3/pkg/downloader/downloader.go:385-406 | a subscriber got an order-preserving selection of the broadcasts since it subscribed, at most ten buffered |
| DownloaderTheorems.GracefulShutdownMayBeEarly | hw3/pkg/downloader/downloader.go:143-170 | a reachable state in which Shutdown has ended gracefully and a record is not final |
| DownloaderProgress.EveryTaskCanFinish | hw3/pkg/downloader/downloader.go:117-329 | from every state of every run whose loop still runs, some continuation settles all downloads, empties the channel and, in drain mode, closes the drained channel: the bounded channel never deadlocks workers and loop |
| DownloaderProgress.Emptied | hw3/pkg/downloader/downloader.go:189-223 | the loop alone can empty the channel without touching workers or growing the table |
| WorkerRefinement.WorkerFollowsExecute | hw3/pkg/downloader/download_task.go:85-276 | in every run a finished worker has sent, updates aside, the trace of one execution, whose context was cancelled exactly if the worker sent Cancel |
| DownloaderService.DownloadManager.Subscribe | hw3/pkg/downloader/downloader.go:385-392 | a fresh empty channel is appended |
| DownloaderService.DownloadManager.BroadcastPublic | hw3/pkg/downloader/downloader.go:396-406 | every subscriber with room gets the event once, a full one is skipped |
| DownloaderService.DownloadManager.HandleTaskRemoval | hw3/pkg/downloader/downloader.go:271-287 | the task is removed, and its context alone cancelled if asked |
| DownloaderService.DownloadManager.HandleDownloadEvent | hw3/pkg/downloader/downloader.go:227-268 | the record's transition, the removal, the cancelled context and the broadcast of each kind of event |
| DownloaderService.DownloadManager.SubmitDownload | hw3/pkg/downloader/downloader.go:293-329 | accepted exactly when not shutting down, accepted by the table and with a new id; otherwise the rollback leaves everything as it was |
| DownloaderService.DownloadManager.CancelDownload | hw3/pkg/downloader/downloader.go:351-369 | the task's context, and no other, is cancelled while the task is in the table |
| DownloaderService.StepsOfOneEvent | hw3/pkg/downloader/downloader.go:189-268 | the loop's steps for one event, run back to back, have the effect of the handler method |
| RefreshTokens.ProfileService.Login | semestral/internal/profiles/service.go:153-199 | the answer for each failure, and a token registered only on success |
| RefreshTokens.ProfileService.Refresh | semestral/internal/profiles/service.go:208-274 | a valid active token is consumed whatever follows, a new one registered only on success, a revoked one changes nothing |
| RefreshTokens.TokensAreLinear | semestral/internal/profiles/service.go:208-274 | over every run, restarts included, active tokens are those issued since the last restart minus the accepted ones, none accepted twice, at most one active per login |
| RefreshTokens.AcceptedIff | semestral/internal/profiles/service.go:212-243 | a token is accepted exactly if presented for the user it was issued to, within 604800 seconds of the step that issued it, with no restart in between and no earlier acceptance |
| RefreshTokens.AcceptedOnce | semestral/internal/profiles/service.go:201-207 | over every interleaving of logins, refreshes and restarts a token is accepted by at most one call |
| RefreshTokens.GrantInherits | semestral/internal/profiles/service.go:208-274 | the token a refresh grants descends from the login of the one it consumed and belongs to the same user |
| TokenClient.TokenCredentials.GetRequestMetadata | semestral/internal/auth/client_middleware.go:104-180 | which requests go out bare, with the stored token, with a refreshed one or not at all, and the one Refresh call made |
| TokenSafety.StepKeeps | semestral/internal/auth/client_middleware.go:104-204 | every step of callers, server, restarts, clocks and other clients keeps the invariants |
| TokenTheorems.StoredTokenIsUnused | semestral/internal/auth/client_middleware.go:125-180 | over every run, lost replies, expiries and restarts included: no token is presented twice, with the lock free the stored token was never presented, and it is active exactly if no restart came since it was issued |
| TokenTheorems.AcceptedIff | semestral/internal/profiles/service.go:212-243 | a token of this client that reaches the server is accepted exactly within 604800 seconds of the step that issued it and with no restart in between; it is never refused for having been used |
| TokenTheorems.RefusedAfterExpiry | semestral/internal/profiles/service.go:212-223 | a reachable state in which an unused token was refused after its seven days |
| TokenTheorems.RefusedAfterRestart | semestral/internal/profiles/service.go:205-243 | a reachable state in which an unused, unexpired token was refused after a restart |
| TokenTheorems.ReadOutcome | semestral/internal/auth/client_middleware.go:107-122 | a token not past its expiry is used at once, without one the request goes out bare |
| TokenTheorems.RecheckOutcome | semestral/internal/auth/client_middleware.go:125-155 | the second look uses a token before its expiry, ends a session that cannot be refreshed, and else presents the stored refresh token once |
| TokenTheorems.RecheckKeepsWave | semestral/internal/auth/client_middleware.go:125-145 | of the callers that see expiry the first asks and the others reuse |
| TokenTheorems.OneRefreshForAll | semestral/internal/auth/client_middleware.go:104-180 | any number of callers that find an expired token make at most one call, exactly one once any of them finishes, and all carry its access token |
| TokenTheorems.AtMostOneRefresh | semestral/internal/auth/client_middleware.go:104-204 | also when the reply is lost or the session is cleared: at most one call, and all callers that leave with a token leave with the one it brought |
| RequestSpecs.NormalizeIsIdempotent | hw4/pkg/mocker/request_spec.go:53 | normalising a method twice is normalising it once |
| RequestSpecs.NewRequestSpec | hw4/pkg/mocker/request_spec.go:36-67 | the counting loops build the tables of the raw parameters |
| RequestSpecs.TallyIffSameBag | hw4/pkg/mocker/request_spec.go:45-51 | two tables are equal exactly when the value lists are equal as multisets |
| RequestSpecs.CoversAll | hw4/pkg/mocker/request_spec.go:83-95 | same size and same counts one way round suffice for equality |
| RequestSpecs.Equals | hw4/pkg/mocker/request_spec.go:71-104 | the loops with their early exits decide equality of the two requests, hence an equivalence |
| RequestSpecs.MatchingIsBagEquality | hw4/pkg/mocker/request_spec.go:36-104 | requests match exactly when normalised method, path, body presence, body and every parameter's multiset of values agree |
| RequestSpecs.QueryParams | hw4/pkg/mocker/request_spec.go:108-121 | in any iteration order each value comes out as often as counted |
| RequestSpecs.RebuiltIsEqual | hw4/pkg/mocker/request_spec.go:36-121 | a request rebuilt from its parameters, in whatever order, equals the original |
| Mocker.AfterRefines | hw4/pkg/mocker/http_mocker.go:71-149 | after any sequence of calls the nested table is the last-write-wins table since the last clear, without empty paths and with entries under their own route |
| Mocker.LastSetIff | hw4/pkg/mocker/http_mocker.go:71-89 | what the specification calls last: set at some call, with no later clear or reply for the route |
| Mocker.AnsweredAsExpected | hw4/pkg/mocker/http_mocker.go:94-125 | the answer, error kind included, is what the log of calls specifies |
| Mocker.ErrorMeans | hw4/pkg/mocker/http_mocker.go:94-125 | each error is that of the first failing check: method supported, anything registered, path registered, method registered |
| Mocker.ReplyMeans | hw4/pkg/mocker/http_mocker.go:94-125 | the reply set last for the route is given exactly to an equal request |
| Mocker.SupportedSpellings | hw4/pkg/mocker/http_mocker.go:158-163 | a method is supported exactly if, blanks aside, it spells one of the five in any case |
| Mocker.LoadRestores | hw4/pkg/mocker/http_mocker.go:129-141 | loading a dump in any order into an empty mocker gives the same table |
| Mocker.HttpMocker.SetReply | hw4/pkg/mocker/http_mocker.go:71-89 | refused exactly for an unsupported method, and otherwise the entry replaces the route's |
| Mocker.HttpMocker.Serve | hw4/pkg/mocker/http_mocker.go:94-125 | answers as the log specifies and always appends the request to the history |
| Mocker.HttpMocker.DumpConfiguration | hw4/pkg/mocker/http_mocker.go:129-141 | every entry exactly once, in some order |
| Mocker.HttpMocker.ClearConfiguration | hw4/pkg/mocker/http_mocker.go:144-149 | a clear is logged: nothing set before it counts |
| Mocker.HttpMocker.ListRequests | hw4/pkg/mocker/http_mocker.go:152-156 | one entry per served request, in order |
| FormatBytes.FormatBytes | hw3/internal/shell/commands/formatting.go:31-44 | plain below 1024; otherwise div = 1024^(exp+1), a valid suffix index, div <= b and b/div < 1024, without int64 overflow |
| FormatBytes.UnitIsUnique | hw3/internal/shell/commands/formatting.go:31-44 | no other power of 1024 brings the count into that range |

## Left out

- Identifiers are integers in the store, the delivery protocol, the downloader and the
  token models, and strings in the chats and the mocker; only their equality matters.
  New ids are fresh.
- gRPC, TLS, HTTP, SQL and files: a transaction is one step that happens or not; a call
  whose reply is lost is a server step without the client's.
- Clocks: times are parameters, and the timeouts of Shutdown and of the Refresh call are
  steps that may be taken at any moment. Record timestamps are not modelled.
- Presence, authentication of the stream, logging and the terminal interface.
- Ordering across publishes: they run in separate goroutines, so only the snapshot and
  the sends of one session are ordered.
- RequestSpecs.NormalizeIsIdempotent: upper case is modelled for the ASCII letters and the two other
  characters whose upper case is an ASCII letter, which decides membership in the set of
  supported methods; the upper case of further letters is not.
- DeliveryProgress.BacklogCanAlwaysBeDelivered: says that delivery stays possible, not
  that a client does reconnect; schedulers and fairness are not modelled. The same goes
  for DownloaderProgress.EveryTaskCanFinish.
- MessageStore.SqliteRepository.InsertMessageWithAcks: its loop over the rows stands for
  one multi-row insert; the NOT NULL columns are part of the verdict passed in.
- MessageStore.SqliteRepository.GetUndeliveredMessages: its loop stands for ORDER BY and
  LIMIT; which of two equally old messages comes first is left open.
- Client.ChatClient.AckMessage: the loop stands for the update loop that re-issues the
  command, without its waiting times. The client's own outgoing messages are not modelled.
- InsertMessage and InsertMessageAcks of the messaging repository, which the service
  never calls; they would not keep stored-iff-pending.
- DeliveryTheorems.NoGapAtSubscription: needs a snapshot taken with at most 100 pending
  messages; longer backlogs are covered by Backlog.BacklogDrains.
- DownloaderTheorems.CompletedMatchesCounter: the interleaved copy loop stops below 2^63
  bytes; what happens beyond is DownloadTasks.TotalIsExactIff.
- Downloader: Shutdown is called once, task ids are fresh, and unknown event kinds, which
  no worker sends, are not modelled.
- RefreshTokens: tokens are opaque; signatures and password hashes are verdicts passed
  in, and expiry times are not rounded to seconds.
- TokenTheorems.OneRefreshForAll: assumes that the callers wait for the reply, that
  nobody logs in or out meanwhile, and that the issued access token stays unexpired;
  TokenTheorems.AtMostOneRefresh drops all but the login and the expiry.
- FormatBytes.FormatBytes: the rendering of the quotient with two decimals.
- Mocker: response specifications are opaque values; the two locks are not modelled, so
  a call is one step.
