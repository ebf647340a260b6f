# Callbacks and message delivery: model and proofs

A Dafny model of the durable parts of the ElevateBox voice agent: the callback
queue that workers drain, the WhatsApp messages a call owes its lead, the
in-memory store used when there is no database, the migration that introduced
the present tables, and the text and phone values that travel out with a
callback call and come back.

Verify with `dafny verify dfyconfig.toml`.

## How it is put together

- `Schema.dfy`, `EventLog.dfy`, `CallIds.dfy`: rows, audit log, minted call ids.
- `Transactions.dfy`, `Delivery.dfy`: what each committed transaction does to
  the tables, as functions of the tables.
- `Repositories.dfy`, `Services.dfy`: the repositories and services as classes
  that change a `Database` in place, each method proved to compute its
  transaction function.
- `Protocol.dfy`: the same transactions interleaved. Any number of workers,
  tool requests and deliveries run concurrently; an action is the code between
  two commits, except that a claim is split into taking the row lock and
  committing, and a completion into reading the call row and writing it. A crash
  drops an actor with its lock and uncommitted writes.
- `CallbackInvariant.dfy`, `CallbackProtocol.dfy`, `MessageProtocol.dfy`: the
  invariants and their preservation. `Runs.dfy`, `AuditTrail.dfy`: what follows
  for every run. `Provenance.dfy`: which request, answer or clock every column
  and every event comes from. `Recovery.dfy`: what can still be sent or settled from a state
  reached. `Scenarios.dfy`: runs in which the code keeps less than its comments
  promise.
- `FollowupReplay.dfy`, `FollowupRuns.dfy`: a follow-up nothing interferes with,
  and one that other deliveries interleave with.
- `Drain.dfy`, `DrainOfRuns.dfy`: ticks over a queue nobody schedules into, and
  that one worker's rounds in a run are such ticks.
- `Idempotency.dfy`: `run_once` as a class of three locked sections, and every
  interleaving of its callers and shared tasks.
- `Migration.dfy`, `MigrationOfRuns.dfy`: revision 0004 and its downgrade.
- `Text.dfy`, `Coercion.dfy`, `Phone.dfy`, `Outbound.dfy`: list fields, phone
  keys and the variables of a callback call.

What the provider, the customer and the clock do is a parameter of an action:
the result of a dial or a send, the instant a tick reads, the nonce of a minted
call id. No clock is assumed to move forward unless a lemma says so, and no
two nonces are assumed to differ.

Four claims of the code's own comments need a condition; the lemmas state the
exact one, and `Scenarios.dfy` has runs that reach the failures. `deliver`
promises each message exactly once. At most one send returns a result
(`Runs.DeliveredAtMostOnce`), and a message can still come to be SENT exactly as
long as no actor that crashed holds its reservation
(`Recovery.SendableExactly`, `Scenarios.CrashedRun`).
`complete_call` closes a callback exactly when the call is already linked to
it, so a completion that overtakes the worker's second commit is lost until it
is replayed (`Runs.CompletionClosesLinked`, `Runs.EarlyCompletionIsLost`,
`Scenarios.LostCompletionHappens`). It also promises not to relabel a callback
as an initial call, but does so when it read the call before the worker recorded
it and writes it after (`AuditTrail.LabelKeptExactly`,
`Scenarios.LostLabelHappens`). A follow-up reports success
exactly when each row was RESERVED by someone else as it reached it or SENT as it
left it (`FollowupRuns.FollowupReportsExactly`). A success that reached no
RESERVED row is true for good (`FollowupRuns.SuccessIsFinal`); one that did may
cover messages nobody sends (`Scenarios.HollowSuccessHappens`) or whose send
fails afterwards, even when no row was RESERVED as the follow-up began
(`Scenarios.FalseSuccessHappens`).

## Model

| member | source | states |
|---|---|---|
| Runs.AttemptsAreNumbered | app/services/callback_service.py:66-131 | In every reachable state the attempt rows of a callback are numbered without gaps up to the last recorded dial, every one that a later claim followed was refused and retryable, and only the last of an unclaimed callback can be PLACED. |
| Runs.LastAttemptDecidesStatus | app/repositories/callbacks.py:82-103 | For an unclaimed callback the last attempt row determines PENDING, FAILED, or dialled, and the error column, both ways. |
| Runs.UnattemptedIsPending | app/models/callback.py:13-20 | CANCELLED is never reached and a callback without attempts is PENDING and unclaimed. |
| Runs.ClaimHasOneOwner | app/repositories/callbacks.py:54-80 | A callback is claimed iff some worker, live or crashed, owns it; the owner is unique, holds the committed row, and no call links to the callback. |
| Runs.WorkerWritesLoseNothing | app/services/callback_service.py:78-122 | Whenever a worker is about to commit, its session's row is the committed row, so the unconditional writes overwrite no one; the attempts key is always free. |
| Runs.SettledCallbackIsFinal | app/repositories/callbacks.py:105-127 | COMPLETED and FAILED are absorbing over every run: no column of the row ever changes again. |
| Runs.CrashedClaimIsFrozen | app/services/callback_service.py:78-80 | A crash between the two commits keeps the callback claimed and unchanged forever: it is never dialled twice, and never recovered. |
| Recovery.SettleableExactly | app/services/callback_service.py:66-131 | From a reached state some continuation completes a callback or writes it off, or it is settled already, iff no crashed worker owns its claim. |
| Runs.RequestNeverChanges | app/repositories/callbacks.py:26-41 | No later transaction changes what was scheduled, and the attempt count never decreases. |
| Provenance.CallbackIsAsRequested | app/services/callback_service.py:34-53 | In every run a callback carries the lead, expression, timezone and reason of the first schedule request for its source call and instant, however often that is asked for again. |
| Provenance.DialFollowsResponse | app/services/callback_service.py:92-130 | Over every run, a recorded dial leaves its callback dialled iff the provider took the call, PENDING again five minutes after its tick began iff the response is worth a retry, and FAILED otherwise, with the attempt row, the call row and the error that go with that response. |
| Provenance.CompletedBy | app/repositories/callbacks.py:105-127 | A COMPLETED callback was completed by a completion of the very call that links to it, and its completed_at is that step's clock. |
| Runs.LinkIsOneToOne | app/services/callback_service.py:92-107 | Two calls never link to one callback; a linked callback is unclaimed, IN_PROGRESS or COMPLETED, and its last attempt is PLACED with that call. |
| Runs.LinkIsPermanent | app/repositories/calls.py:24-37 | Across every run no upsert from any tool erases or changes a call's callback link. |
| Runs.LinkAppearsWithPlacedAttempt | app/services/callback_service.py:93-107 | A link first appears in the owner's recording transaction, together with the PLACED attempt row naming that call. |
| CallIds.MintedIdNamesOneCallback | app/services/outbound_caller.py:110-113 | A minted call id determines its callback whatever the random parts are. |
| CallIds.DecimalReads | app/services/outbound_caller.py:196 | The callback_id variable is written in the digits that read as the id, with no needless zero. |
| Runs.RetriesAreSpaced | app/services/callback_service.py:110-115 | Claim n+1 is no earlier than scheduled_at + n * RETRY_DELAY on the workers' own clocks, any two claims of a callback are at least RETRY_DELAY apart, hence a bound on attempt_count by elapsed time. |
| Runs.ClaimsKeepDistance | app/repositories/callbacks.py:60-79 | Two committed claims of one callback, by any workers and with any requests between, are made at instants at least RETRY_DELAY apart. |
| Runs.PlacedDialIsLast | app/services/callback_service.py:78-107 | Once a dial of a callback has returned a placed result, no worker ever locks, claims or dials it again, whether or not the result is recorded. |
| Runs.CallbackLogConserves | app/services/callback_service.py:72-129 | ATTEMPTED events equal attempt_count, TRIGGERED plus FAILED equal the attempt rows, TRIGGERED is one iff a call is linked, COMPLETED is one iff the callback is COMPLETED. |
| Runs.ScheduleReplayIsIdempotent | app/repositories/callbacks.py:26-52 | Replaying a schedule at any point of a callback's life changes no callback row and logs the same id. |
| Runs.ScheduleIsUnique | app/models/callback.py:53-56 | No two reachable callbacks share source call and instant. |
| Runs.CompletionClosesLinked | app/services/call_service.py:69-84 | After complete_call writes, a callback is COMPLETED iff it already was or the completed call is linked to it. |
| Runs.CompletedSinceLinked | app/repositories/callbacks.py:105-127 | From the moment its call is linked, a callback is COMPLETED iff it was then or a completion of that call has been written since. |
| Runs.EarlyCompletionIsLost | app/services/call_service.py:34-59 | However many completions were written before the dial is recorded, the callback is IN_PROGRESS after the record, and later COMPLETED iff the completion was written again. |
| Scenarios.LostCompletionHappens | app/services/call_service.py:39-59 | A run in which the placed call has been completed and nobody is running any more, but the callback is left IN_PROGRESS. |
| Runs.LogDeterminesMessage | app/services/message_service.py:47-82 | Replaying the audit log yields exactly the message row's status, attempts, provider id and error; event counts match; sent_at and provider id are set iff SENT, last_error iff FAILED. |
| Runs.DeliveredAtMostOnce | app/services/message_service.py:20-27 | Once a send for a (call, kind) has returned a result, the provider is never called for it again and the row is SENT or RESERVED. |
| Runs.SentMessageIsFinal | app/repositories/messages.py:23-52 | Over every run, with concurrent deliveries and crashes, no column of a SENT message ever changes: the set of SENT kinds never shrinks. |
| Provenance.RowTellsLastAnswer | app/services/message_service.py:56-90 | In every run a message row nobody is sending tells the provider's last answer for it: the id of the result, or "asset_url_failed", "whapi_send_failed" or "invalid_phone" by the failure. |
| Provenance.ReservedFor | app/repositories/messages.py:30-50 | A message belongs to the lead of the delivery that first reserved it, whoever re-claims it. |
| Provenance.SentAtClock | app/repositories/messages.py:54-61 | sent_at is the clock of the delivery that recorded the result. |
| Runs.SendsNeverOverlap | app/repositories/messages.py:23-52 | Between two provider calls for one (call, kind) the first has been answered, with an error. |
| Recovery.SendableExactly | app/services/message_service.py:20-27 | From a reached state some continuation ends with the message SENT iff no crashed actor holds its reservation. |
| Runs.CrashedSendIsStuck | app/services/message_service.py:56-64 | A sender that dies after reserving leaves the row as it is forever and the provider is not called for it again; that this is the only way a message is lost is Recovery.SendableExactly. |
| AuditTrail.HistoryIsPermanent | app/repositories/audit_events.py:12-28 | Over every run the log only grows at its end and no attempt row changes. |
| AuditTrail.CallbackEventsAreFiled | app/services/callback_service.py:72-77 | Every event naming a callback is filed under its source call, or its linked call for completion, the worker's events also under the callback's lead, and attempt events are numbered in log order. |
| AuditTrail.DirectionKeptExactly | app/services/call_service.py:36-43 | A CALLBACK call loses its direction exactly when schedule or the high-intent tool is called for it, or a completion is written that did not see CALLBACK when it read the call. |
| AuditTrail.LabelKeptExactly | app/services/call_service.py:36-43 | Over every run, after its dial is recorded a call that schedule and the high-intent tool spare is CALLBACK iff the last completion written since had seen CALLBACK when it read the call, or there was none. |
| Provenance.CompletionReadCall | app/services/call_service.py:39-43 | The direction a completion writes back is the one the call row had at the earlier step at which this completion read it. |
| Scenarios.LostLabelHappens | app/services/call_service.py:36-43 | A run in which neither schedule nor the high-intent tool is called for a callback's call, yet the completion that read it before it was recorded relabels it INITIAL. |
| AuditTrail.LastWriterWins | app/repositories/calls.py:24-37 | Over every run, each column of a call holds what the last tool that writes this column put there, and is blank when none has: no upsert disturbs a column it is not given. |
| AuditTrail.CallStoresRequest | app/services/call_service.py:40-51 | Right after complete_call, schedule or the high-intent tool the call row carries that request's lead and summary, with status "completed" and the closing columns, or "active" and direction INITIAL. |
| AuditTrail.StatusSaysLastTool | app/services/callback_service.py:38-44 | Over every run a call is "completed" iff the last tool that wrote it was a completion, and "active" otherwise. |
| Provenance.LogTellsStep | app/repositories/audit_events.py:12-28 | Every step of a run adds to the log exactly the events it stands for, with the lead, call, type and payload of its request, its callback or the answer it records. |
| Schema.EventsAreNamedByKind | app/models/message.py:21-39 | The three events of a kind are the ones its audit prefix and the step spell. |
| AuditTrail.ClosingComesFromCompletion | app/services/call_service.py:40-51 | Over every run the closing columns are empty until a completion of this very call is written, and hold what the last one said. |
| MessageProtocol.StepKeepsMessageInv | app/repositories/messages.py:30-66 | Every action keeps: one live or crashed owner per RESERVED row, provider history agreeing with row status, log replaying to rows. |
| CallbackProtocol.StepKeepsCallbackInv | app/repositories/callbacks.py:54-127 | Every action keeps the row, link, log, ownership, lock and spacing invariants. |
| CallbackProtocol.StepAdvances | app/models/callback.py:13-14 | An action leaves each callback alone or moves it along one edge of the lifecycle, counting an attempt exactly on a claim. |
| CallbackInvariant.MintedIdIsUnlinked | app/services/callback_service.py:92-99 | The call row a worker is about to link carries no link yet. |
| Repositories.CallRepository.UpsertBySarvamCallId | app/repositories/calls.py:16-39 | The upsert computes the column-wise update; without callback_id in the given columns the link is what it was. |
| Repositories.CallbackRepository.Schedule | app/repositories/callbacks.py:16-52 | Inserts a PENDING row with the request's own columns, or returns the existing row with no row changed; unique keys are kept. |
| Repositories.CallbackRepository.ClaimDue | app/repositories/callbacks.py:54-80 | Claims an unlocked due row of earliest execution time, or returns nothing only when none is claimable. |
| Repositories.CallbackRepository.MarkCompleted | app/repositories/callbacks.py:105-127 | Completes the row iff it is IN_PROGRESS and otherwise changes nothing. |
| Repositories.CallbackAttemptRepository.Record | app/repositories/callback_attempts.py:12-34 | Adds the row unless its unique key is taken. |
| Repositories.MessageRepository.Reserve | app/repositories/messages.py:15-52 | Grants the row iff absent or FAILED, and refuses without a change otherwise. |
| Repositories.DueMeansNextDue | app/repositories/callbacks.py:61-71 | If any row is claimable, one is first in execution order. |
| Services.CallbackService.Schedule | app/services/callback_service.py:34-64 | Computes the schedule transaction; answers with the id of a row for that source call and instant, which if new carries the request's own columns, or refuses a missing time. |
| Services.CallbackService.Claim | app/services/callback_service.py:68-80 | Computes the claim transaction of an earliest unlocked due row. |
| Services.CallbackService.RecordDial | app/services/callback_service.py:92-130 | Computes the recording transaction, or rolls back when the attempt key is taken. |
| Services.CallbackService.ProcessDue | app/services/callback_service.py:66-131 | Works iff something is due, and then does both transactions on an earliest due row, or only the claim when the attempt key is taken. |
| Services.MessageService.Deliver | app/services/message_service.py:39-82 | Reserve, send and record compute the delivery function; from how send() ended, the outcome returned, the row (id or reason, sent_at, lead, attempt count) and the two events are stated outright. |
| Services.FollowupService.SendForCall | app/services/followup_service.py:39-65 | Three deliveries in order; each of the three flags is true iff the row of its kind is SENT afterwards or was RESERVED before, success iff all three are, and the result is None iff a send that was made raised. |
| Services.CallService.CompleteCall | app/services/call_service.py:34-67 | Persists and closes in one transaction, the call row carrying status "completed" and the request's lead, summary and closing columns, then runs the follow-up for the same call with the answer SendForCall states. |
| Services.PersistentHighIntentService.Send | app/services/configured_services.py:92-128 | Captures the call with the request's lead and summary in its own transaction, delivers, and replies already_sent iff the message was taken, the provider's message id iff it returned a result, and otherwise the reason of the failure. |
| FollowupReplay.DeliverMeansSent | app/services/message_service.py:47-82 | The provider is called iff the row is absent or FAILED, and sent is reported iff the row ends SENT or was RESERVED. |
| FollowupReplay.AbandonedExactly | app/services/followup_service.py:39-59 | A follow-up nothing interferes with is abandoned iff a send that it makes raises. |
| FollowupReplay.EachKindStoresItsAnswer | app/services/followup_service.py:42-59 | Each message such a follow-up sends carries the answer of the send of its own kind, for the call's lead. |
| FollowupReplay.FlagsMeanSent | app/services/followup_service.py:39-65 | A follow-up nothing interferes with attempts exactly the absent or FAILED kinds in order, each flag says SENT or already reserved, and every row that was SENT is as it was. |
| FollowupReplay.SuccessMeansAllSent | app/services/followup_service.py:60-65 | For a follow-up nothing interferes with: success iff every row ends SENT or was RESERVED; with none RESERVED, iff all three end SENT. |
| FollowupReplay.TakenRowsReportSuccess | app/services/message_service.py:50-52 | When every row is taken, even only RESERVED, a replay nothing interferes with calls nobody, changes nothing and reports success. |
| FollowupRuns.DeliveryCallsExactly | app/services/message_service.py:47-56 | In every run a delivery calls the provider iff it finds the row absent or FAILED. |
| FollowupRuns.DeliveryReportsExactly | app/services/message_service.py:47-82 | In every run, whatever interleaves, a delivery reports sent iff the row was RESERVED by someone else when it began or is SENT when it returns. |
| FollowupRuns.DeliveryStoresAnswer | app/services/message_service.py:56-90 | In every run a granted delivery stores, logs under its own lead and reports what the provider answered it. |
| FollowupRuns.ReportIsFinal | app/services/message_service.py:47-82 | A report of sent whose row was not RESERVED when the delivery began stays true in every later state. |
| FollowupRuns.FollowupReportsExactly | app/services/followup_service.py:39-65 | In every run, with duplicates of the same follow-up interleaved, success is true iff each row was RESERVED as the follow-up reached it or SENT as it left it. |
| FollowupRuns.SuccessIsFinal | app/services/followup_service.py:39-65 | A success that reached no RESERVED row means all three messages are SENT in every later state. |
| FollowupRuns.ReplaysConverge | app/services/followup_service.py:18-23 | After such a success every later follow-up, whatever interleaves, is refused each kind, changes nothing, calls nobody and reports success. |
| Scenarios.FalseSuccessHappens | app/services/message_service.py:50-52 | A run in which a follow-up starts with no row RESERVED and reports success, and the duplicate's send it had counted on fails, so that one message ends FAILED with nobody running. |
| Scenarios.HollowSuccessHappens | app/services/followup_service.py:60-65 | A run after which a completed call's follow-up calls nobody and reports that all three messages were sent, although the provider has never answered and none is SENT. |
| FollowupReplay.FollowupConverges | app/services/followup_service.py:18-23 | After one undisturbed follow-up whose sends all return a result, all rows are SENT and every replay is a no-op reporting success. |
| Drain.ClaimedAtMostOnce | app/services/callback_service.py:110-115 | Ticks within a window shorter than RETRY_DELAY never claim a callback twice. |
| Drain.ClaimsAreOrdered | app/repositories/callbacks.py:60-71 | Such ticks claim in non-decreasing execution time. |
| Drain.DueCallbackWaitsBounded | app/repositories/callbacks.py:60-79 | A due callback is claimed within as many ticks as there are waiting callbacks executing no later than it. |
| Drain.TickIsTick | app/services/callback_service.py:66-131 | The two transactions process_due is proved to compute, back to back, are such a tick. |
| DrainOfRuns.RoundIsTick | app/services/callback_service.py:66-131 | In a run, everything from a worker locking a row to recording its dial is one such tick, whatever requests, completions and deliveries other actors commit meanwhile, and releases the lock. |
| DrainOfRuns.WorkerClaimsInOrder | app/repositories/callbacks.py:60-71 | In a run with one worker at a time and no new schedules, rounds within a window shorter than RETRY_DELAY claim in non-decreasing execution time. |
| DrainOfRuns.WorkerServesDue | app/repositories/callbacks.py:60-79 | With one worker at a time and no new schedules a callback that is due at the first round is claimed within as many rounds as there were waiting callbacks executing no later. |
| Drain.CompletionKeepsQueue | app/services/call_service.py:69-84 | Completing calls, whatever they read before, leaves the queue unchanged. |
| Idempotency.OperationsNeverOverlap | app/services/idempotency.py:19-26 | An operation for a key exists only after every earlier one for it has raised: none overlap, at most one succeeds, none follows a success. |
| Idempotency.OnlyTheCreatorSends | app/services/idempotency.py:22-40 | A returned caller was told already_sent=False iff it created the operation that succeeded, and at most one caller per key was. |
| Idempotency.AwaiterGetsItsTask | app/services/idempotency.py:28-40 | Every awaiter of a task, in whatever order they resume, is answered by that very task: its result, with already_sent iff it did not create it, or its exception. |
| Idempotency.CallAnswersOrAwaits | app/services/idempotency.py:19-26 | A call returns no result and already_sent at once iff its key is completed; otherwise it awaits the task in flight, or creates one iff there is none. |
| Idempotency.RefinesSendOnce | app/services/idempotency.py:16-40 | run_once refines an atomic set of sent keys: a success adds a key not yet sent, no other step changes it, and answers are only given for sent keys. |
| Idempotency.NothingLeaks | app/services/idempotency.py:22-39 | A task in flight is awaited by its creator; with no call pending nothing is in flight and completed is exactly the keys sent. |
| Idempotency.OnlyOwnAwaiterEvicts | app/services/idempotency.py:30-39 | An entry leaves the in-flight map only by an awaiter of that very task after it ended. |
| Idempotency.InMemoryIdempotencyStore.EnterSection | app/services/idempotency.py:19-26 | The first locked section: done, join, or create. |
| Idempotency.InMemoryIdempotencyStore.FailedSection | app/services/idempotency.py:30-34 | Removes only the caller's own task. |
| Idempotency.InMemoryIdempotencyStore.SucceededSection | app/services/idempotency.py:36-39 | Marks the key completed and removes only the caller's own task. |
| Migration.UpgradeKeepsRightToSend | alembic/versions/20260830_0004_architecture_data_layer.py:272-283 | After the upgrade reserve refuses exactly the keys that had a delivery reservation, SENT iff it was completed. |
| Migration.DowngradeKeepsRightToSend | alembic/versions/20260830_0004_architecture_data_layer.py:313-321 | After the downgrade a reservation exists exactly for the keys reserve refused. |
| Migration.UpgradeRewrites | alembic/versions/20260830_0004_architecture_data_layer.py:138-176 | The upgrade turns RESERVED events into REQUESTED and TRIGGERED callbacks into IN_PROGRESS and leaves every other event and status as it is. |
| Migration.DowngradeRewrites | alembic/versions/20260830_0004_architecture_data_layer.py:325-349 | The downgrade turns the four event types revision 0003 lacks into RESERVED and IN_PROGRESS into TRIGGERED and leaves the rest. |
| Migration.UpgradeMakesMessage | alembic/versions/20260830_0004_architecture_data_layer.py:272-282 | Each reservation becomes the message of its call and kind, for that call's lead, on its first attempt, SENT at the instant it was completed or else RESERVED. |
| Migration.UpgradeThenDowngrade | alembic/versions/20260830_0004_architecture_data_layer.py:286-333 | Restores reservations and callback statuses exactly, and each event except the RESERVED ones. |
| Migration.LogRestoredExactlyWithoutReserved | alembic/versions/20260830_0004_architecture_data_layer.py:141-145 | The whole round trip is the identity iff the log held no HIGH_INTENT_WHATSAPP_RESERVED event. |
| Migration.DowngradeThenUpgrade | alembic/versions/20260830_0004_architecture_data_layer.py:272-321 | Drops exactly the FAILED messages and keeps key, sent_at and created_at of the others; status is kept iff sent_at is set exactly on SENT. |
| Migration.DowngradeUndoneExactly | alembic/versions/20260830_0004_architecture_data_layer.py:286-373 | Downgrade then upgrade restores the whole database iff it held no link, no attempt, no event type revision 0003 lacks, and no message that says more than its reservation. |
| Migration.Deployment.Upgrade | alembic/versions/20260830_0004_architecture_data_layer.py:107-115 | From any rows the old constraints allow, the upgrade computes the rewrite and no new constraint rejects a row. |
| Migration.Deployment.Downgrade | alembic/versions/20260830_0004_architecture_data_layer.py:286-373 | The same for the downgrade and the old constraints. |
| MigrationOfRuns.RunSurvivesDowngrade | alembic/versions/20260830_0004_architecture_data_layer.py:313-321 | On message rows of any reachable state, downgrade then upgrade keeps status and sent_at of every non-FAILED row and allows exactly the same sends. |
| MigrationOfRuns.SendsAfterUpgradeExactly | alembic/versions/20260830_0004_architecture_data_layer.py:272-283 | Some run of the new code on the upgraded rows calls the provider for a message of an existing call iff the old code had no reservation for it. |
| MigrationOfRuns.ReservedKeepsRow | app/repositories/messages.py:23-52 | Over every such run a message that had a reservation stays SENT iff the reservation was completed, and RESERVED otherwise. |
| Coercion.StringSurvivesEcho | app/schemas/coercion.py:17-25 | split_list of a string, flattened into a variable and split again, is the same list, for every string. |
| Coercion.ListSurvivesEcho | app/services/outbound_caller.py:63-73 | A list survives flattening and splitting iff no item contains a comma. |
| Coercion.CoercionIsIdempotent | app/schemas/coercion.py:13-43 | split_list and wrap_list leave alone whatever either of them produced. |
| Coercion.WrapKeepsStatement | app/schemas/coercion.py:28-43 | wrap_list keeps a statement whole iff it holds more than separators; split_list entries are stripped, non-empty and comma-free. |
| Coercion.VariableText | app/services/outbound_caller.py:63-73 | A flag is given as true or false and any other single value as its text without the spaces around it, or not at all when nothing is left. |
| Coercion.ListText | app/services/outbound_caller.py:69-71 | A list is given as its items that are not None, in order, a comma and a space between each two, or not at all when that is empty. |
| Phone.NormalizesExactly | app/utils/phone.py:8-27 | A phone normalises to a key iff the key is 91 and a ten-digit mobile number and the phone without separators and plus is the key or that number. |
| Phone.SeparatorsDoNotMatter | app/utils/phone.py:13-15 | Inserting separators anywhere changes neither the key nor the error. |
| Phone.NothingElseIsAccepted | app/utils/phone.py:13-18 | An accepted phone holds digits, spaces, parentheses, dashes and a plus sign only. |
| Phone.EchoedPhoneIsSameKey | app/services/outbound_caller.py:218-220 | Normalising is idempotent and undoes the plus sign, so an echoed phone resolves to the same lead key. |
| Phone.E164Adds | app/services/outbound_caller.py:218-220 | A dialled number is the phone without the spaces around it, behind a plus sign, added iff it was not there. |
| Phone.SameKeySameSubscriber | app/repositories/leads.py:16-26 | Two accepted phones share a lead iff the phones without their separators end in the same ten digits. |
| Phone.LeadService.Upsert | app/services/lead_service.py:42-46 | The lead found or created is the one stored under the normalised phone; a rejected phone writes nothing. |
| Outbound.AgentVariables | app/services/outbound_caller.py:188-199 | The variables are exactly the context values that flatten, except that the three identity variables always win. |
| Outbound.PlaceCall | app/services/outbound_caller.py:108-186 | The id the agent is given is minted for this callback and is the id a placed dial is recorded under; the result succeeds iff the status is under 400 with an attempt id, is retryable iff there was no response or the status is 402, 429 or at least 500, and names the error of each case. |
| Outbound.FeaturesSurviveDial | app/services/outbound_caller.py:188-199 | A list split from a string comes back from the dialled agent's variables as the same list. |

## Left out

- FastAPI routes, authentication, settings, application start-up and the scheduler: a tick or a request is an action of the environment.
- HTTP bodies and response parsing of Whapi, Sarvam and Supabase Storage: their results are parameters (result, retryable or permanent failure, exception).
- SQLAlchemy session details: statements are modelled by what they do to committed rows. In particular a transaction other than the claim is one step, except that `complete_call` reads the call row in a step of its own. The row its upsert returns is the row as written, not an older copy in the session's identity map.
- The claim's row lock is the only lock modelled; other transactions that wait for a row are serialised by being single actions.
- Lead columns, message copy, `_previous_context`, `_version_config` and `_app_overrides`: only the lead's key matters here, and in the protocol a lead is its id.
- Sarvam's own attempt id parsing (`_extract_call_id`): a dial response carries the extracted id or none.
- Runs start from empty tables, but for the runs that resume from upgraded rows (`MigrationOfRuns.dfy`). Callbacks that revision 0004 carried over from TRIGGERED have no attempt rows, so the numbering results are not claimed of them.
- Cancellation of a `run_once` caller, which the code does not catch.
- Index and constraint renames and row level security in the migration: the model keeps the data rewrite and the CHECK, key and reference constraints it must satisfy.
- Services.CallbackService.ProcessDue: one uninterrupted tick; what happens between its two transactions is the subject of Protocol, Runs and DrainOfRuns.
- Drain.TickIsTick: the same uninterrupted tick; DrainOfRuns.RoundIsTick is the tick that other commits interleave with.
- FollowupReplay.FlagsMeanSent: a follow-up nothing interferes with; FollowupRuns states what holds when other deliveries interleave.
- FollowupReplay.SuccessMeansAllSent: likewise; the interleaved form is FollowupRuns.FollowupReportsExactly.
- FollowupReplay.TakenRowsReportSuccess: likewise; the interleaved form is FollowupRuns.DeliveryReportsExactly.
- FollowupReplay.FollowupConverges: likewise; the interleaved form is FollowupRuns.ReplaysConverge.
- `str.isdigit` beyond ASCII: a parameter that holds of the ASCII digits and of no separator or plus sign.
