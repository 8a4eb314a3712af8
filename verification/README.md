# Tzibbur messaging: a verified model

A store-and-forward messaging client (`crates/tzibbur-api`) and the Telegram bridge on top of it
(`crates/bridge`), as three linked protocols over durable tables, plus the loops and the arithmetic they
lean on.

**Tables and store.** `Tables` gives the effect of every SQL statement as a function on values,
`SqliteStores.SqliteStore` is the store whose methods change the tables in place and are proved equal to
those functions. `Reconciler` is the batch reconciler, `ServerLog` says what a stored batch means when its
messages come from a server log in which id and (group, seq) determine each other, `Convergence` is about
any schedule of deliveries.

**Outbox and delivery, one machine.** `System` puts the tables, the dispatcher (one statement at a time),
the socket path, the REST path and a server that is idempotent on `clientMessageId` into one state machine
of 34 actions. A crash, a lost reply, a lost ack, a lagging subscriber, a late or repeated POST, a user
retry, redaction and a restart with `repair` may come between any two steps. `DeliverySafety` and
`OutboxSafety` hold the invariants, `Guarantees` the theorems over all runs. `Scenario` walks one run
through the machine's guards. `OutboxRules` and `OutboxDispatchers` treat due times, wake-ups and the two
halves of `OutboxDispatcher::step`, split at its one await; the machine's `Pick`/`Mark` and
`Reply`/`ConfirmReply` are those halves at a finer grain.

**Forwarding to Telegram.** `Forwarding` has the durable state of a conversation and what is always kept;
`ForwardingBatches` what a batch asks for and what is left over; `ForwardingRuns` the operations with every
await able to fail before or after taking effect and to let new messages arrive, as functions of the
environment with their promises, and the class that performs them step by step; `ForwardingLimits` exactly
when text is lost. `Conversations` interleaves any number of callers of `ensure_conversation` at every await.

**Loops and arithmetic.** `Sockets` and `Backoff` (connection lifecycle and reconnect rate), `RestDrain`,
`Search`, `AuthLimiter`, `Splitter`, `Buckets`.

Where a natural claim is false of the code, the model keeps the code and proves the exact condition:

- A batch is acknowledged without being stored when the group has no local row and the server answers 404
  (`Sync.StoredIffNotGone`, `Sync.GoneGroupIsAckedUnstored`). The run theorems about acks are therefore
  about groups the account belongs to, which are never answered with 404.
- `forward_to` blanks text up to the newest message it sent. It loses nothing exactly for gap-free batches
  (`ForwardingLimits.LosesNothingIffGapFree`; an input that loses text: `ForwardingLimits.SkippingLosesText`).
  A flush loses nothing exactly while the leftovers fit in its window
  (`ForwardingLimits.FlushIsSafeIffLeftoversFit`; an input: `ForwardingLimits.OverflowLosesText`), and
  `ForwardingLimits.FlushDeliversTheWindow` says which rows are lost otherwise.
- The creator of a conversation that has history to import waits for the lock it holds
  (`Conversations.CreatorWithHistoryNeverReturns`, exactly when: `Conversations.CreatorReturnsIffNoHistory`, a
  run: `Conversations.FiveStepsToDeadlock`).
- Two rows can arise for one group if creating a row times out and takes effect after the lock is released
  (`Conversations.AtMostOneMapping`, a run: `Conversations.LateCreationDuplicates`).
- "No reconnect" after a 401/403 handshake or close code 4001 (private-use range, section 7.4.2 of RFC 6455)
  fails: the ended loop keeps its task handle, so `reconnect`, which lag also calls, opens a connection again
  although `start` does not. The loop stays down exactly in the futures without a `reconnect` before a `stop`
  and without a `start` after one (`Sockets.RevokedIffNotRevived`; a run: `Sockets.ReconnectAfter401`).
- A message's text in the server log may differ from the posted text (a sender prefix), so exactly-once
  posting speaks of the text in the requests and of the id and group in the log.

## Model

| member | source | states |
|---|---|---|
| Guarantees.ExactlyOncePosting | crates/tzibbur-api/src/outbox.rs:171-265 | After every run: at most one log entry per `clientMessageId`; every request sent carries the group and text enqueued under its id; every confirmed row names the id and seq of that one entry and is never due again; nothing enqueued that is not a command is lost |
| Guarantees.AckedIsStored | crates/tzibbur-api/src/sync.rs:399-467 | After every run, every log message of a group of ours at or below the server's delivery cursor is in the local table |
| Guarantees.CaughtUpMeansEqual | crates/tzibbur-api/src/sync.rs:647-660 | When the cursor has reached the end of a group's log, the stored ids of the group are exactly the log's |
| Guarantees.NeverReportedNew | crates/tzibbur-api/src/sync.rs:436-465 | After every run, nothing ever reported as a new message was enqueued on this device, however reply and echo race |
| Guarantees.OutboxStateMachine | crates/tzibbur-api/src/store/sqlite.rs:211-228 | In every reachable table a row has a server seq iff it is confirmed, so the first UPDATE of `repair` changes nothing; and shown failed, listed failed, and open yet never due again coincide |
| Guarantees.ConfirmedIsFinal | crates/tzibbur-api/src/store/sqlite.rs:1002-1062 | From every reachable state, every single step leaves a confirmed row confirmed with its id and seq, or deletes it |
| Guarantees.RunKeepsInv | crates/tzibbur-api/src/outbox.rs:4-7 | The joint outbox and delivery invariant holds after every run of the machine |
| Guarantees.StepKeepsInv | crates/tzibbur-api/src/store/sqlite.rs:733-790 | Every one of the 34 actions keeps the joint invariant |
| DeliverySafety.DeliveryStep | crates/tzibbur-api/src/ws.rs:9-13 | Every action keeps: an ack queued, on the wire or processed covers only stored messages, and a frame anywhere between server and table starts where what is stored ends |
| DeliverySafety.NextBatchIsSound | crates/tzibbur-api/tests/e2e_mock_server.rs:244-262 | The batch the server releases next after its cursor is gap-free above what is stored, so acknowledging it is safe |
| DeliverySafety.ApplyingKeeps | crates/tzibbur-api/src/sync.rs:399-467 | Applying a frame stores it before its ack exists, so the new ack is covered and all older frames and acks stay so |
| OutboxSafety.RowsMove | crates/tzibbur-api/src/store/sqlite.rs:1002-1062 | Any change of the outbox in which rows stay as enqueued, and close only once their message is on the server and stored here or was a command, keeps the outbox invariant |
| OutboxSafety.EchoedRow | crates/tzibbur-api/src/store/sqlite.rs:783-785 | A row confirmed by an echo carries the id and seq of its own log entry, and was allowed to close |
| OutboxSafety.NewsIsNotOurs | crates/tzibbur-api/src/reconcile.rs:72-80 | What one batch reports as new was not enqueued here: an own message is either unconfirmed, hence an echo, or stored already, hence a duplicate |
| OutboxSafety.SendKeeps | crates/tzibbur-api/src/outbox.rs:185-190 | The request the dispatcher sends is the message as enqueued, even if its row was confirmed and blanked meanwhile |
| OutboxSafety.RestartKeeps | crates/tzibbur-api/src/store/sqlite.rs:211-228 | A crash and restart with `repair`, at any point, keeps the outbox invariant |
| Guarantees.StoredReplySettles | crates/tzibbur-api/src/outbox.rs:208-220 | From every reachable state, handling a stored reply puts the message into the table, loses no row, and leaves its row confirmed with the reply's id and seq, whatever the echo did before |
| Guarantees.TwoStepsSettle | crates/tzibbur-api/src/outbox.rs:208-220 | The machine's two steps for a stored reply end in the database that the dispatcher's method is proved to produce |
| Scenario.LostReplyIsHealed | crates/tzibbur-api/src/outbox.rs:208-220 | A run of the machine with exactly one request, which the server stores, and no reply at all: the echo confirms the row, the cursor moves, nothing is reported new |
| OutboxRules.WakeUpIsExact | crates/tzibbur-api/src/store/sqlite.rs:972-1000 | For every table with nothing due: the instant found is in the future, nothing is due before it, something is due at it; none is found iff every row is confirmed or failed for good |
| OutboxRules.FailedAgreement | crates/tzibbur-api/src/store/mod.rs:215-223 | Under the row invariant the UI's failed state, the `failed_outbox` filter and never being due again are the same |
| OutboxRules.FailedDisagreesWithoutInvariant | crates/tzibbur-api/src/store/mod.rs:215-223 | A concrete row outside the invariant on which the three disagree |
| OutboxRules.DueAfterTransition | crates/tzibbur-api/src/store/sqlite.rs:1002-1062 | When an open row is due after each guarded statement: in flight, exactly from two minutes after the mark on; rescheduled or retried, exactly from the given instant on; rejected, never by itself but listed as failed. It stays the same message, with the attempts and error code as said. A confirmed or unknown row, and every other row, is untouched |
| OutboxRules.RepairMeans | crates/tzibbur-api/src/store/sqlite.rs:211-228 | For every table and instant: a row with a server seq becomes confirmed with no error and no schedule, and is never due; a pending row without seq or schedule whose code is `json` or `client-message-id-reused` is due exactly from now on; every other row stays as it is; no row loses text, group or id |
| OutboxRules.NothingUnreadIsLeftDead | crates/tzibbur-api/src/store/sqlite.rs:219-223 | After a repair no open row has a server seq, and none waits for the user only because a reply was unreadable |
| OutboxRules.ConfirmationIsFinal | crates/tzibbur-api/src/store/sqlite.rs:387-400 | Whatever the row looked like, confirming it names the message, shows it as sent, keeps text and group, and it is never due again; no other row changes |
| OutboxRules.StatementsKeepRowsOk | crates/tzibbur-api/src/store/sqlite.rs:1002-1062 | The row invariant survives every statement of the store, marking in flight included unless the row waits for the user |
| OutboxRules.HousekeepingLeavesWork | crates/tzibbur-api/src/store/sqlite.rs:1130-1135 | Redacting and purging leave every unconfirmed row as it is, so the same instants have work; redaction takes the text of every confirmed row and nothing else |
| OutboxRules.PurgeTakesOldConfirmed | crates/tzibbur-api/src/store/sqlite.rs:965-970 | A row survives purging iff it is not confirmed or was created at the given instant or later, and then as it was |
| OutboxDispatchers.FailedAttemptMeans | crates/tzibbur-api/src/outbox.rs:224-262 | A row confirmed meanwhile is untouched by a failure; an open one is due again exactly from Retry-After or the drawn delay on, or, if refused, or unreadable with five attempts before it, waits for the user; it names the given code, or `json` after an unreadable reply, has one more attempt and is otherwise the same message; every other row, message and group stays |
| OutboxDispatchers.StoredReplyMeans | crates/tzibbur-api/src/outbox.rs:193-223 | A stored reply, whatever the tables look like: its message is in the table if its id and seq are free, stored messages stay, the row is confirmed with the reply's id and seq, and another row changes only if the message answers it |
| OutboxDispatchers.NeverOversleeps | crates/tzibbur-api/src/outbox.rs:133-156 | On an unchanged table nothing is due while the loop sleeps, even though the clock moved on between looking and sleeping; it wakes at the first instant with work, or after 15 seconds |
| OutboxDispatchers.OutboxDispatcher.Enqueue | crates/tzibbur-api/src/outbox.rs:91-107 | The text queued is the slice of the body with whitespace before and behind it and none at its ends; it is accepted iff that slice has 1 to 1000 characters; then exactly one row is added, due at every instant; otherwise nothing changes |
| Text.TrimIsSlice | crates/tzibbur-api/src/validation.rs:34-46 | Trimming yields a slice of the text: everything before and behind it is whitespace, its first and last characters are not |
| OutboxDispatchers.OutboxDispatcher.Retry | crates/tzibbur-api/src/outbox.rs:115-119 | An open row is due at once and not before, shown as pending, its text and group kept; a confirmed or unknown row, and every other row, is untouched |
| OutboxDispatchers.OutboxDispatcher.BeginStep | crates/tzibbur-api/src/outbox.rs:171-185 | Either a due row, none due created earlier, is marked in flight and returned, or nothing changes and the answer is the exact next instant, or idle iff nothing can ever become due by itself |
| OutboxDispatchers.OutboxDispatcher.FinishStep | crates/tzibbur-api/src/outbox.rs:191-265 | For each of the five ways a POST ends, the new database, whatever happened to the tables meanwhile: an executed command's row is gone and nothing else has changed; a stored reply and a failed attempt are as in `StoredReplyMeans` and `FailedAttemptMeans` |
| Reconciler.Reconcile | crates/tzibbur-api/src/reconcile.rs:51-85 | The one-pass loop with two seen sets computes the plan defined by first occurrences and taken seqs |
| Reconciler.PlanMeaning | crates/tzibbur-api/src/reconcile.rs:51-85 | Kept iff id not stored, first of its id, seq not stored, first kept of its seq; inserts strictly ascending; echoes and new ids split the kept messages; `max_seq` is the maximum of the whole batch, duplicates included |
| Reconciler.PlanKeepsArrivalOrder | crates/tzibbur-api/src/reconcile.rs:66-81 | Echoes and new ids come in arrival order: each list reads the batch off at strictly rising positions, exactly those of the kept echoes and of the other kept messages |
| Reconciler.SeenStep | crates/tzibbur-api/src/reconcile.rs:59-64 | The seen sets hold the fresh ids of all messages so far and the seqs of the kept ones |
| Reconciler.SeenDecidesKept | crates/tzibbur-api/src/reconcile.rs:59-64 | Looking the next message up in the seen sets decides whether it is kept in the sense of the definition |
| Reconciler.EchoesAndNewPartition | crates/tzibbur-api/src/reconcile.rs:72-80 | Every kept message is an echo or new and never both; counts add up |
| Reconciler.MaxSeqIsMaximum | crates/tzibbur-api/src/reconcile.rs:57 | `max_seq` is attained and bounds every message; it is absent iff the batch is empty |
| Reconciler.SortBySeqSorts | crates/tzibbur-api/src/reconcile.rs:83 | Sorting by seq yields an ordered permutation |
| Tables.InsertAllKeeps | crates/tzibbur-api/src/store/sqlite.rs:599-632 | `INSERT OR IGNORE` never overwrites a stored message, blanked or not, and adds only messages of the list |
| Tables.InsertAllMeans | crates/tzibbur-api/src/store/sqlite.rs:604-606 | Whatever is inserted, no two rows of a group share a seq, every message offered has its id or its seq in the table, and new rows are stored under their ids |
| Tables.BatchStateMeans | crates/tzibbur-api/src/store/sqlite.rs:741-773 | The plan is told exactly the batch's ids and seqs for which the group has rows, and the group's unconfirmed rows |
| SqliteStores.SqliteStore.StoreIncomingBatch | crates/tzibbur-api/src/store/sqlite.rs:733-804 | One transaction: the plan of the pre-state, its inserts, then its confirmations; `inserted` counts the rows that its statements wrote |
| SqliteStores.SqliteStore.InsertMessages | crates/tzibbur-api/src/store/sqlite.rs:599-632 | Row-by-row insert-or-ignore on primary key and on (group, seq); returns how many rows the statements wrote |
| SqliteStores.SqliteStore.NextDispatchable | crates/tzibbur-api/src/store/sqlite.rs:972-988 | Nothing iff no row is due; otherwise a due row than which no due row was created earlier |
| SqliteStores.SqliteStore.EarliestNextAttempt | crates/tzibbur-api/src/store/sqlite.rs:990-1000 | The minimum over future retries and staleness instants, none iff there are none |
| SqliteStores.SqliteStore.FailedOutbox | crates/tzibbur-api/src/store/sqlite.rs:1041-1050 | The group's pending rows with an error and no schedule, each once, oldest first |
| SqliteStores.SqliteStore.RepairOutbox | crates/tzibbur-api/src/store/sqlite.rs:211-228 | Both UPDATEs in order, and what that means for each row; the first number reported counts exactly the delivered rows that were not confirmed, none if every row satisfies the row invariant, the second exactly the undelivered rows that waited for the user only because a reply was unreadable |
| SqliteStores.SqliteStore.InsertOutbox | crates/tzibbur-api/src/store/sqlite.rs:880-901 | Adds the row unless its id is taken, in which case nothing changes |
| SqliteStores.SqliteStore.ConfirmEchoes | crates/tzibbur-api/src/store/sqlite.rs:783-785 | The echoed rows are confirmed one after the other, nothing else changes |
| ServerLog.SurvivorsAreTheUnstored | crates/tzibbur-api/src/store/sqlite.rs:739-771 | For a batch from the log, the plan's inserts are exactly the batch messages not stored yet |
| ServerLog.StoreBatchMessages | crates/tzibbur-api/src/store/sqlite.rs:733-790 | After a batch from the log, the stored ids are the old ones plus the batch's, old rows are untouched, new rows are the log's own |
| ServerLog.StoreBatchOutbox | crates/tzibbur-api/src/store/sqlite.rs:783-785 | A batch confirms exactly the rows its news answers, each with its own log entry, and leaves every other row alone |
| ServerLog.ReportedIsNews | crates/tzibbur-api/src/store/sqlite.rs:773-790 | What is reported new was not stored before and answers no unconfirmed row of the group |
| ServerLog.EveryPlannedRowIsWritten | crates/tzibbur-api/src/store/sqlite.rs:776-782 | Of a batch from the log no planned insert is ignored, so the reported count is the length of the plan |
| Convergence.Converges | crates/tzibbur-api/src/store/sqlite.rs:733-804 | Any sequence of batches, in any order, repeated or overlapping, ends in exactly the (id, seq) pairs of their union, and the counts of rows written along the way add up to the number of distinct ids delivered |
| Convergence.OrderDoesNotMatter | crates/tzibbur-api/src/reconcile.rs:51-85 | Two schedules that deliver the same messages end in the same (group, id, seq) rows with the same total count |
| Convergence.RedactionLasts | crates/tzibbur-api/src/store/sqlite.rs:1115-1128 | Redaction blanks exactly the group's messages up to the seq, changes nothing else about them, and they stay so under every later history of the table |
| Convergence.BlankStaysBlank | crates/tzibbur-api/src/store/sqlite.rs:773-784 | A blanked message keeps its row, blank, under any redelivery, page or further redaction, honest or not |
| Sync.SyncEngine.ApplyBatch | crates/tzibbur-api/src/sync.rs:399-467 | Know the group, store, then ack the batch maximum: tables, ack and reported ids for each answer about an unknown group, as the specification says and, for a batch from the log, as in `ApplyMeans` |
| Sync.ApplyMeans | crates/tzibbur-api/src/sync.rs:399-467 | For a batch from the log: acknowledged is its largest seq iff one is positive; a 404 about an unknown group changes nothing; else a group found at the server has a local row not flagged deleted, the batch is stored, the rows it answers are confirmed and no others, and the ids reported are exactly those of messages not stored before that answer no unconfirmed row of the group, each once, in order of first arrival |
| ServerLog.ReportedExactlyTheNews | crates/tzibbur-api/src/reconcile.rs:51-85 | The new ids of a plan, exactly: a batch message has it, it was not stored, it answers no unconfirmed row of the group; each once, read off at rising positions, where it first occurs |
| Sync.StoredIffNotGone | crates/tzibbur-api/src/sync.rs:406-421 | After applying, the batch is stored iff the group was known, or the server did not answer 404, or it was all stored before |
| Sync.GoneGroupIsAckedUnstored | crates/tzibbur-api/src/sync.rs:409-416 | A concrete batch that is acknowledged and never stored |
| RestDrain.RestCatchUp | crates/tzibbur-api/src/sync.rs:602-643 | At most 50 rounds; what the server releases is stored, whichever fetch, store or ack fails; without failed stores and acks each round takes one page off every queue, and stopping because nothing more was reported means everything undelivered is stored; it fails only if a fetch, store or ack does, and drains everything if nothing fails, no page claims more than it has and no queue is longer than 50 pages |
| RestDrain.DrainPage | crates/tzibbur-api/src/sync.rs:606-639 | One round: every bucket stored before its ack, a failed store ends it; reports more iff some group had more than a page or the page itself says so |
| RestDrain.ApplyBucket | crates/tzibbur-api/src/sync.rs:615-625 | Unless the store fails, a bucket ends up stored, whether or not the lookup of its group was answered, and its ack releases exactly that bucket, or nothing if the ack is lost |
| RestDrain.AckReleasesBucket | crates/tzibbur-api/src/sync.rs:615-625 | The ack that a page of a queue yields releases exactly that page; only an empty queue yields none |
| RestDrain.AckReleasesBatch | crates/tzibbur-api/src/sync.rs:647-660 | Acknowledging the last seq of a prefix releases exactly that prefix |
| RestDrain.RoundShrinks | crates/tzibbur-api/src/sync.rs:602-643 | A round that loses no ack strictly shrinks every non-empty queue |
| Sockets.UpdateRequiredIsFinal | crates/tzibbur-api/src/ws.rs:435-475 | After any run that reached UpdateRequired, under every further server behaviour and call, the state stays and no connection is attempted |
| Sockets.RevokedIffNotRevived | crates/tzibbur-api/src/ws.rs:435-506 | After 401/403 or close code 4001 at any point of any run, for every future: the loop stays down throughout iff nobody calls `reconnect` before a `stop`, or `start` after one |
| Sockets.RevokedStaysDown | crates/tzibbur-api/src/ws.rs:594-609 | As long as nothing revives it, a revoked socket has attempted no connection, and its handle is gone iff somebody called `stop` |
| Sockets.RevivedComesBack | crates/tzibbur-api/src/ws.rs:501-506 | A future that revives it brings the loop back to dialing, and the next attempt is one more connection |
| Sockets.ReconnectAfter401 | crates/tzibbur-api/src/ws.rs:501-506 | A concrete run: 401 at the first handshake, `reconnect`, and a second attempt |
| Sockets.WhatRevives | crates/tzibbur-api/src/ws.rs:435-506 | Exactly which call restarts an ended loop: `reconnect`, or `stop` then `start`, never `start` alone; none after UpdateRequired |
| Sockets.ReconnectRate | crates/tzibbur-api/src/ws.rs:931-948 | In every run, the (n+1)-th attempt of a stretch without `hello` or payload comes no sooner than the sum over i < n of min(300 s, 2 s * 2^i) / 2 after it began |
| Sockets.WaitBounds | crates/tzibbur-api/src/ws.rs:931-948 | Each wait is at least half its base and at least the minimum asked for, and at most the larger of five minutes and that minimum |
| Sockets.ServerAskedToWait | crates/tzibbur-api/src/ws.rs:610-632 | Close code 4029 waits at least a minute; a 429 handshake waits at least its delay-seconds Retry-After (section 10.2.3 of RFC 9110) |
| Sockets.TzibburSocket.RunLoop | crates/tzibbur-api/src/ws.rs:555-770 | The loop as written, token, handshake, frames with time between them, wait, and `stop` at any of these points: under every behaviour of the network it does only what the event machine allows, so all run theorems hold of it; it dials once a turn while it is up; it is down iff something took it down, in UpdateRequired iff the server demanded it; between turns the half delays of the stretch have passed; its handle is gone iff `stop` was called |
| Sockets.TzibburSocket.ServeConnection | crates/tzibbur-api/src/ws.rs:657-722 | The frames acted on are those the server sent, in order, up to and including the first that ends the connection, unless `stop` came |
| Sockets.WhereFramesLead | crates/tzibbur-api/src/ws.rs:834-927 | For every open connection: `hello` of version 1 or lower leads to Connected, greeted, counter 0; a higher version or an update code ends the loop in UpdateRequired; `push_failed` backs off; any other error frame or other frame changes nothing; a payload greets if no `hello` came |
| Sockets.WhereAnswersLead | crates/tzibbur-api/src/ws.rs:590-650 | Accepted opens the connection; 401 and 403 end the loop; a 429 with Retry-After waits at least that long; any other refusal or failure waits the drawn delay |
| Sockets.WhereDropsLead | crates/tzibbur-api/src/ws.rs:724-766 | Close code 4001 ends the loop, 4029 waits at least a minute, any other end waits the drawn delay |
| Sockets.WhereCallsLead | crates/tzibbur-api/src/ws.rs:435-506 | What `start`, `stop`, `reconnect`, a missing token, dialing and the end of a wait lead to, from every state |
| Sockets.UpdateRequiredIffDemanded | crates/tzibbur-api/src/ws.rs:846-852 | A run enters UpdateRequired iff at some event of it, on an open connection, the server says hello with a version above 1 or sends an update code |
| Sockets.DownIffTakenDown | crates/tzibbur-api/src/ws.rs:555-770 | A running loop left to itself is down after a run iff the run holds a `stop`, a missing token, a revocation or a demanded update: no number of refusals, failed connects or dropped connections ends it |
| Backoff.BackoffIsCappedDoubling | crates/tzibbur-api/src/backoff.rs:9-13 | For every attempt count the delay is min(300 s, 2 s * 2^attempt): the exponent clamp and the 64-bit saturation never show |
| Backoff.DelaysByAttempt | crates/tzibbur-api/src/backoff.rs:9-13 | Two seconds first, then doubling, and five minutes from the ninth attempt on |
| Backoff.JitterBounds | crates/tzibbur-api/src/backoff.rs:16-21 | The delays that may be drawn are exactly those between half the base and the base, which is at most five minutes |
| ForwardingRuns.FlushesKeepThePromises | crates/bridge/src/bridge/mod.rs:453-481 | Over any number of flushes, with arrivals and a failure or crash possible at every await: nothing recorded is sent again, recorded implies sent, bookmark and record only grow; and if at each flush the rows it read held no more undelivered ones than its window, recorded sends are strictly ascending by seq and every blanked text above the creation bookmark is mapped |
| ForwardingRuns.FlushKeeps | crates/bridge/src/bridge/mod.rs:453-481 | The same for one flush, the window condition being on the state in which it reads the rows |
| ForwardingRuns.ForwardToKeeps | crates/bridge/src/bridge/mod.rs:650-724 | Whatever fails or arrives, forwarding any cached batch keeps the basic promises, and a gap-free batch loses nothing |
| ForwardingRuns.ForwardSortedKeeps | crates/bridge/src/bridge/mod.rs:669-711 | The loop over a sorted batch keeps the promises, ends with the bookmark or the seq of one of its messages, and over a gap-free batch leaves every message mapped or history |
| ForwardingRuns.ForwardMessageKeeps | crates/bridge/src/bridge/mod.rs:671-710 | A message at or below the bookmark, mapped or blank needs nothing; any other is delivered; success means it is done |
| ForwardingRuns.DeliverKeeps | crates/bridge/src/bridge/mod.rs:699-709 | Send, record, read back, each failing before or after it takes effect: recorded only if sent, in order if everything older is delivered, mapped on success |
| ForwardingRuns.FinishKeeps | crates/bridge/src/bridge/mod.rs:712-722 | The bookmark moves forward only over delivered messages, and text is blanked only once that is durable |
| ForwardingRuns.CalmForward | crates/bridge/src/bridge/mod.rs:650-724 | Undisturbed, a forward is: deliver what is due in seq order, move the bookmark to the newest seq sent, blank up to it |
| ForwardingLimits.ForwardSendsOnce | crates/bridge/src/bridge/mod.rs:669-711 | An undisturbed forward of any batch sends exactly the messages above the bookmark with text and without a mapping: each once, in seq order, each recorded as it is sent |
| ForwardingRuns.Forwarder.Forward | crates/bridge/src/bridge/mod.rs:650-724 | The steps in place do what the specification says for every environment, and keep its promises |
| ForwardingRuns.Forwarder.ForwardOne | crates/bridge/src/bridge/mod.rs:671-710 | One message in place, with early returns at each failed await, as specified; tells whether its seq counts for the bookmark |
| ForwardingRuns.Forwarder.FlushUnforwarded | crates/bridge/src/bridge/mod.rs:453-481 | One flush in place, as specified, losing nothing if the rows it read fit the window |
| ForwardingRuns.Forwarder.KeepFlushing | crates/bridge/src/bridge/mod.rs:256-262 | The main loop's flushes in place end where the specified run ends, and lose nothing if at every flush of that run the rows read fit the window |
| ForwardingBatches.FlushBatchGapFree | crates/bridge/src/bridge/mod.rs:467-472 | A flush whose window holds every leftover builds a gap-free batch |
| ForwardingBatches.LeftoversAreNewest | crates/bridge/src/bridge/mod.rs:467-472 | Rows never delivered are exactly the newest ones, as many as are counted |
| ForwardingBatches.NextIsReady | crates/bridge/src/bridge/mod.rs:655-671 | In a sorted gap-free batch nothing undelivered lies below the next message |
| ForwardingLimits.LosesNothingIffGapFree | crates/bridge/src/bridge/mod.rs:714-722 | From a state without losses, an undisturbed forward of any cached batch stays without losses iff the batch is gap-free |
| ForwardingLimits.SkippedIsLost | crates/bridge/src/bridge/mod.rs:719 | A row passed over by a batch ends up blank, below the bookmark and without a mapping |
| ForwardingLimits.FlushIsSafeIffLeftoversFit | crates/bridge/src/bridge/mod.rs:467-472 | For any window size, an undisturbed flush keeps every promise iff the undelivered rows are no more than the window |
| ForwardingLimits.RunningFlushIsSafeIffFits | crates/bridge/src/bridge/mod.rs:453-481 | The flush that runs, undisturbed and from a state without losses, stays without losses iff the rows it reads hold no more undelivered ones than its window |
| ForwardingLimits.FlushDeliversTheWindow | crates/bridge/src/bridge/mod.rs:467-480 | An undelivered row gets its mapping iff it is among the newest rows the window shows |
| ForwardingLimits.FlushDeliversAll | crates/bridge/src/bridge/mod.rs:453-481 | When the leftovers fit, nothing is left, all text is blank and the bookmark is at the last row |
| ForwardingLimits.SkippingLosesText | crates/bridge/src/bridge/mod.rs:719 | Two concrete rows and a batch with only the newer one: the older text is gone, undelivered |
| ForwardingLimits.OverflowLosesText | crates/bridge/src/bridge/mod.rs:467-472 | 501 concrete rows: the flush that runs, undisturbed, blanks the first without delivering it |
| ForwardingLimits.CreatedIsSoundIffTextIsNewest | crates/bridge/src/bridge/mod.rs:557-579 | A new conversation starts with nothing lost above its bookmark iff, among the newest rows it looks at, no blank one lies above one with text |
| ForwardingLimits.BlankAboveTextIsUnsound | crates/bridge/src/bridge/mod.rs:557-579 | A concrete cache, an own newer message blanked before an older one arrived, from which a new conversation starts with a loss |
| Forwarding.RecordedNoLoss | crates/bridge/src/store.rs:657-675 | Recording the lowest message still due keeps recorded sends strictly ascending and everything older delivered |
| Forwarding.AdvancedKeeps | crates/bridge/src/store.rs:618-631 | Advancing over delivered messages keeps every promise; the bookmark only grows |
| Forwarding.BlankedNoLoss | crates/tzibbur-api/src/store/sqlite.rs:1115-1128 | Blanking up to the bookmark touches no undelivered text |
| Conversations.AtMostOneMapping | crates/bridge/src/bridge/mod.rs:536-589 | Over all interleavings with store errors, lost replies, creations taking effect late, crashes and other lock holders: at most one row per group, and all callers that return for it return that row, unless somebody's second look came while a creation that had been given up on was still on its way |
| Conversations.OvertakingDuplicates | crates/bridge/src/bridge/mod.rs:547-579 | The exception is real: once a second look has overtaken such a creation and both succeed, the group has two rows |
| Conversations.LateCreationDuplicates | crates/bridge/src/bridge/mod.rs:547-579 | A concrete run from nothing to two rows for one group |
| Conversations.StepKeepsExclusive | crates/bridge/src/bridge/mod.rs:545-579 | Every step that does not overtake keeps: a group being created has no row and none on its way |
| Conversations.StepKeepsCallers | crates/bridge/src/bridge/mod.rs:545-588 | Every step keeps: only the holder of a group's lock looks again, creates and imports, and who has a row has one of its own group |
| Conversations.WhereLooksLead | crates/bridge/src/bridge/mod.rs:537-555 | Who finds the row, at the first look or the second, returns it; who meets an error fails; who finds nothing goes on; the second look frees the lock unless it finds nothing |
| Conversations.WhereCreationsLead | crates/bridge/src/bridge/mod.rs:567-588 | For every way creating the row ends: whether it is stored or on its way, who returns, fails or goes on importing, and that the lock is freed unless history is imported |
| Conversations.OnlyWorkersHoldLocks | crates/bridge/src/bridge/mod.rs:545-588 | Over all runs, who has returned, failed, or is still on the way to the lock holds none |
| Conversations.RowsStay | crates/bridge/src/store.rs:562-583 | A conversation row is never dropped or moved to another group |
| Conversations.CreatorReturnsIffNoHistory | crates/bridge/src/bridge/mod.rs:559-588 | Having created the row, the caller returns and frees the lock at once iff none of the newest cached messages it looks at has its text; otherwise it goes on holding the lock |
| Conversations.CreatorWithHistoryNeverReturns | crates/bridge/src/bridge/mod.rs:584-587 | With history, short of a crash, the creator never returns and the group's lock stays taken, in every continuation |
| Conversations.FiveStepsToDeadlock | crates/bridge/src/bridge/mod.rs:584-587 | One caller, one cached message with text: five concrete steps after which, in every crash-free continuation, it never returns |
| Search.Find | crates/bridge/src/bridge/mod.rs:893-931 | Terminates and returns exactly the matching messages among the newest min(limit, log length), ascending, each once, for every choice of page sizes, orders within a page and continuation marks |
| Search.LeastOfPage | crates/bridge/src/bridge/mod.rs:915-926 | When the server names no mark, the least seq of the page, in whatever order it came, has exactly the older messages below it |
| AuthLimiter.Limiter.AllowAuth | crates/bridge/src/app.rs:45-58 | With a clock that does not run back, the verdict of the forgetful table is the one the whole history asks for, and exactly the allowed attempts enter the history of allowed ones; other keys are untouched |
| AuthLimiter.RefusedIffAtLimit | crates/bridge/src/app.rs:45-58 | With a monotone clock, over every run, an attempt is refused iff its key has five (start) or fifteen (verify) allowed attempts less than an hour old in the whole history, though the table forgets |
| AuthLimiter.AtMostLimitPerHour | crates/bridge/src/app.rs:32-37 | Allowed attempts of one key that span less than an hour number at most five to start, fifteen to verify |
| AuthLimiter.KeysAreIndependent | crates/bridge/src/app.rs:48-51 | What a key is granted is the same with everybody else's attempts removed |
| AuthLimiter.TableIsRecentHistory | crates/bridge/src/app.rs:52-57 | The recent part of a table entry is the recent part of the key's whole history |
| Splitter.SplitForTzibbur | crates/bridge/src/telegram/handlers.rs:1484-1513 | Parts of at most `max` characters that lie end to end along the text with only whitespace between, no cut inside a token that fits, and every part but the last full: the next word would not have fitted, and a cut inside a token leaves exactly `max` characters; a short text is its own only part |
| Splitter.SplitKeepsCharacters | crates/bridge/src/telegram/handlers.rs:1484-1513 | The parts joined hold exactly the text's non-whitespace characters in order |
| Splitter.FittingTokenStaysWhole | crates/bridge/src/telegram/handlers.rs:1490-1495 | Every whitespace-free token of at most `max` characters lies whole inside one part |
| Splitter.HardSplit | crates/bridge/src/telegram/handlers.rs:1496-1505 | A token longer than `max` is cut into full pieces and a rest, nothing dropped |
| Buckets.BucketByGroup | crates/tzibbur-api/src/models.rs:1226-1245 | Distinct groups in order of first occurrence, each with exactly the input's subsequence of that group, every message's group present |
| Buckets.BucketHoldsItsGroup | crates/tzibbur-api/src/models.rs:1226-1245 | A bucket holds exactly the messages that name its group; those that name none share the bucket of the empty name |
| Buckets.NothingLostOrDuplicated | crates/tzibbur-api/src/models.rs:1226-1245 | The buckets together hold every message as often as the input does |

## Left out

- HTTP, TLS, WebSocket framing, SQLite and Directus internals: calls are steps that succeed, fail, or take effect and fail.
- JSON decoding, including the lenient frame decoder that drops messages it cannot decode (crates/tzibbur-api/src/ws.rs:799-822): frames are modelled as decoded, and the ack guarantee does not hold through that branch.
- The engine's own mirror of the socket state: a queued `Connected` event can briefly overwrite its `UpdateRequired` (crates/tzibbur-api/src/sync.rs:335-338, 359-360). Finality is proved of the socket.
- Wiping and deleting: `clear_all`, `delete_messages_for_group` and `purge_deleted_groups` remove messages, after which a redelivered own message would count as new. The last two have no caller.
- Group metadata, members, previews, unread counts and change notifications: only whether a group has a local row, and its deleted flag, matter to the modelled paths.
- Command replies, and the tables and events that only inform the user interface.
- Which HTTP errors are retryable: the outcome of a POST is an input.
- Liveness: nothing is said about a scheduler eventually taking a step.
- Guarantees.AckedIsStored: for groups the account belongs to; for others the server's 404 makes the client acknowledge unseen messages, exactly as `Sync.StoredIffNotGone` says.
- RestDrain.RestCatchUp: no messages arrive meanwhile, the server lists only groups it does not answer with 404, and a page holds a bucket for every group; a page-level cursor only makes the loop go on. The group list and events of a page are not modelled.
- RestDrain.DrainPage: as for `RestDrain.RestCatchUp`.
- RestDrain.ApplyBucket: as for `RestDrain.RestCatchUp`.
- OutboxDispatchers.OutboxDispatcher.BeginStep: two rows created in the same millisecond are returned in either order, as the query leaves it open.
- ForwardingRuns.FlushesKeepThePromises: messages render to a single part; a message of several parts is skipped on retry once its first part is recorded. Batches from live events and the handler of own confirmed messages (crates/bridge/src/bridge/mod.rs:1122-1124), which also redacts, are outside these runs. Rows arrive with text and above everything cached; the conversation row is always found; the redaction after the bookmark, a local call, is treated like an await.
- ForwardingLimits.CreatedIsSoundIffTextIsNewest: seqs are positive, as the server's are. `ForwardingLimits.BlankAboveTextIsUnsound` is a cache on which the condition fails.
- Conversations.AtMostOneMapping: the store's lookups are truthful, and topic re-creation by notes is not modelled.
- Sockets.ReconnectRate: `start`, `stop` and `reconnect` are serial, and handshakes and frames take any non-negative time.
- Search.Find: the log does not change while it is searched, and matching a lower-cased text is a parameter.
- Text and telephone parsing, localisation, rendering, keyboards, dialogues, configuration, cryptography and key handling.
