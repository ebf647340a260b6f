/** What each committed transaction does to the tables, as a function of the
    tables it starts from. The services are proved to compute these functions,
    and the protocol of Protocol.dfy interleaves them. */
module Transactions {
  import opened Schema

  // ---------------------------------------------------------------- calls

  /** A column an upsert either is not given, or is given a value for. */
  datatype Write<+T> = Keep | Put(value: T)

  function Written<T>(write: Write<T>, before: T): T {
    if write.Put? then write.value else before
  }

  datatype CallWrites = CallWrites(
    leadId: nat,
    direction: CallDirection,
    status: string,
    callbackId: Write<Option<nat>>,
    summary: Write<Option<string>>,
    closing: Write<Option<Closing>>)

  /** INSERT .. ON CONFLICT (sarvam_call_id) DO UPDATE of the given columns only.
      The identity column draws a value whether or not the row is inserted. */
  function UpsertCall(t: Tables, sarvamCallId: string, w: CallWrites): Tables {
    var before :=
      if sarvamCallId in t.calls then t.calls[sarvamCallId]
      else Call(t.nextCallId, w.leadId, None, w.direction, w.status, None, None);
    var row := before.(
      leadId := w.leadId,
      direction := w.direction,
      status := w.status,
      callbackId := Written(w.callbackId, before.callbackId),
      summary := Written(w.summary, before.summary),
      closing := Written(w.closing, before.closing));
    t.(calls := t.calls[sarvamCallId := row], nextCallId := t.nextCallId + 1)
  }

  function Append(t: Tables, event: Event): Tables {
    t.(events := t.events + [event])
  }

  // ------------------------------------------------------------- callbacks

  datatype ScheduleRequest = ScheduleRequest(
    sarvamCallId: string,
    leadId: nat,
    requestedExpression: string,
    callbackTime: Option<Instant>,
    timezone: string,
    reason: Option<string>,
    summary: Option<string>)

  predicate ScheduledBy(row: Callback, sourceCallId: nat, scheduledAt: Instant) {
    row.sourceCallId == sourceCallId && row.scheduledAt == scheduledAt
  }

  predicate IsScheduled(callbacks: map<nat, Callback>, sourceCallId: nat, scheduledAt: Instant) {
    exists k :: k in callbacks && ScheduledBy(callbacks[k], sourceCallId, scheduledAt)
  }

  /** INSERT .. ON CONFLICT (source_call_id, scheduled_at) DO NOTHING. */
  function InsertCallback(t: Tables, leadId: nat, sourceCallId: nat,
                          scheduledAt: Instant, request: ScheduleRequest): Tables {
    var row := Callback(t.nextCallbackId, leadId, sourceCallId, request.requestedExpression,
                        scheduledAt, request.timezone, request.reason,
                        PENDING, 0, None, None, None, None);
    t.(callbacks := if IsScheduled(t.callbacks, sourceCallId, scheduledAt) then t.callbacks
                    else t.callbacks[row.id := row],
       nextCallbackId := t.nextCallbackId + 1)
  }

  /** The columns of a callback that its request decides. */
  predicate AsksFor(request: ScheduleRequest, row: Callback) {
    && request.callbackTime == Some(row.scheduledAt)
    && request.leadId == row.leadId && request.requestedExpression == row.requestedExpression
    && request.timezone == row.timezone && request.reason == row.reason
  }

  /** A callback nobody has claimed yet. */
  predicate Unattempted(row: Callback) {
    && row.status == PENDING && row.attemptCount == 0 && row.lastError.None?
    && row.nextAttemptAt.None? && row.claimedAt.None? && row.completedAt.None?
  }

  /** The row that the insert returned, or the SELECT after a conflict found. */
  ghost function ScheduledId(callbacks: map<nat, Callback>, sourceCallId: nat, scheduledAt: Instant): (k: nat)
    requires IsScheduled(callbacks, sourceCallId, scheduledAt)
    ensures k in callbacks && ScheduledBy(callbacks[k], sourceCallId, scheduledAt)
  {
    var k :| k in callbacks && ScheduledBy(callbacks[k], sourceCallId, scheduledAt);
    k
  }

  function ScheduleWrites(request: ScheduleRequest): CallWrites {
    CallWrites(request.leadId, INITIAL, "active", Keep, Put(request.summary), Keep)
  }

  /** The tables once schedule has its callback row, before the event is logged. */
  function ScheduleRows(t: Tables, request: ScheduleRequest, callbackTime: Instant): Tables {
    var called := UpsertCall(t, request.sarvamCallId, ScheduleWrites(request));
    InsertCallback(called, request.leadId, called.calls[request.sarvamCallId].id, callbackTime, request)
  }

  ghost function ScheduleTx(t: Tables, request: ScheduleRequest): Tables {
    if request.callbackTime.None? then t
    else
      var at := request.callbackTime.value;
      var rows := ScheduleRows(t, request, at);
      var source := rows.calls[request.sarvamCallId].id;
      assert IsScheduled(rows.callbacks, source, at) by {
        var called := UpsertCall(t, request.sarvamCallId, ScheduleWrites(request));
        if !IsScheduled(called.callbacks, source, at) {
          assert ScheduledBy(rows.callbacks[called.nextCallbackId], source, at);
        }
      }
      Append(rows, Event(request.leadId, source, CALLBACK_SCHEDULED,
                         OfCallback(ScheduledId(rows.callbacks, source, at))))
  }

  /** coalesce(next_attempt_at, scheduled_at) */
  function ExecutionAt(row: Callback): Instant {
    if row.nextAttemptAt.Some? then row.nextAttemptAt.value else row.scheduledAt
  }

  predicate Due(row: Callback, now: Instant) {
    row.status == PENDING && row.claimedAt.None? && ExecutionAt(row) <= now
  }

  predicate Claimable(callbacks: map<nat, Callback>, locked: set<nat>, now: Instant, k: nat) {
    k in callbacks && k !in locked && Due(callbacks[k], now)
  }

  /** A row that ORDER BY execution time LIMIT 1 FOR UPDATE SKIP LOCKED may return. */
  predicate NextDue(callbacks: map<nat, Callback>, locked: set<nat>, now: Instant, k: nat) {
    && Claimable(callbacks, locked, now, k)
    && forall j :: j in callbacks && Claimable(callbacks, locked, now, j)
         ==> ExecutionAt(callbacks[k]) <= ExecutionAt(callbacks[j])
  }

  /** The row in the claimer's session once claim_due has updated it. */
  function ClaimedRow(read: Callback, now: Instant): Callback {
    read.(status := IN_PROGRESS, claimedAt := Some(now), attemptCount := read.attemptCount + 1)
  }

  /** The claim transaction. The UPDATE sets the claimed columns to the values
      computed from the row as it was read, whatever the committed row says. */
  function ClaimTx(t: Tables, read: Callback, now: Instant): Tables
    requires read.id in t.callbacks
  {
    var mine := ClaimedRow(read, now);
    var row := t.callbacks[read.id].(
      status := mine.status, claimedAt := mine.claimedAt, attemptCount := mine.attemptCount);
    Append(t.(callbacks := t.callbacks[read.id := row]),
           Event(read.leadId, read.sourceCallId, CALLBACK_ATTEMPTED, OfAttempt(read.id, mine.attemptCount)))
  }

  datatype DialResult = DialResult(
    success: bool,
    callId: Option<string>,
    providerAttemptId: Option<string>,
    error: Option<string>,
    retryable: bool)

  /** What the provider did with the request; Unconfigured is the caller without credentials. */
  datatype DialResponse =
    | Unconfigured
    | Unreachable
    | Http(status: nat, attemptId: Option<string>)

  function Refused(error: string, retryable: bool): DialResult {
    DialResult(false, None, None, Some(error), retryable)
  }

  function PlaceCall(sarvamCallId: string, response: DialResponse): DialResult {
    match response
    case Unconfigured => Refused("sarvam_outbound_not_configured", false)
    case Unreachable => Refused("sarvam_outbound_unreachable", true)
    case Http(status, attemptId) =>
      if status >= 500 || status == 429 then Refused("sarvam_outbound_unavailable", true)
      else if status == 402 then Refused("sarvam_outbound_insufficient_balance", true)
      else if status >= 400 then Refused("sarvam_outbound_rejected", false)
      else if attemptId.None? || attemptId.value == "" then Refused("sarvam_outbound_no_call_id", false)
      else DialResult(true, Some(sarvamCallId), attemptId, None, false)
  }

  /** The provider took the call and gave it an attempt id. */
  predicate Taken(response: DialResponse) {
    response.Http? && response.status < 400 && response.attemptId.Some? && response.attemptId.value != ""
  }

  /** Worth another try: no answer, no credit, or an overloaded or broken provider. */
  predicate TryAgain(response: DialResponse) {
    || response.Unreachable?
    || (response.Http? && (response.status == 402 || response.status == 429 || response.status >= 500))
  }

  predicate FailsWith(response: DialResponse, error: string) {
    match response
    case Unconfigured => error == "sarvam_outbound_not_configured"
    case Unreachable => error == "sarvam_outbound_unreachable"
    case Http(status, _) =>
      && (status == 402 ==> error == "sarvam_outbound_insufficient_balance")
      && (status == 429 || status >= 500 ==> error == "sarvam_outbound_unavailable")
      && (400 <= status < 500 && status != 402 && status != 429 ==> error == "sarvam_outbound_rejected")
      && (status < 400 ==> error == "sarvam_outbound_no_call_id")
  }

  /** What a dial under this call id comes to, by the provider's response. */
  predicate Answers(response: DialResponse, sarvamCallId: string, result: DialResult) {
    && (result.success <==> Taken(response))
    && (result.retryable <==> TryAgain(response))
    && (result.success ==>
          && result.callId == Some(sarvamCallId) && result.error.None?
          && result.providerAttemptId == response.attemptId)
    && (!result.success ==>
          && result.callId.None? && result.providerAttemptId.None?
          && result.error.Some? && FailsWith(response, result.error.value))
  }

  lemma PlaceCallAnswers(sarvamCallId: string, response: DialResponse)
    ensures Answers(response, sarvamCallId, PlaceCall(sarvamCallId, response))
  {
  }

  predicate Placed(result: DialResult) {
    result.success && result.callId.Some? && result.callId.value != ""
  }

  function DialError(result: DialResult): string {
    if result.error.Some? && result.error.value != "" then result.error.value else "outbound_call_failed"
  }

  function RetryAt(result: DialResult, now: Instant): Option<Instant> {
    if result.retryable then Some(now + RETRY_DELAY) else None
  }

  function FailedRow(row: Callback, error: string, nextAttemptAt: Option<Instant>): Callback {
    row.(status := if nextAttemptAt.Some? then PENDING else CallbackStatus.FAILED,
         lastError := Some(error), nextAttemptAt := nextAttemptAt, claimedAt := None)
  }

  function DialledRow(row: Callback): Callback {
    row.(status := IN_PROGRESS, lastError := None, nextAttemptAt := None, claimedAt := None)
  }

  function DialWrites(mine: Callback): CallWrites {
    CallWrites(mine.leadId, CALLBACK, "active", Put(Some(mine.id)), Keep, Keep)
  }

  /** The second transaction of process_due, after a dial that was placed. */
  function PlacedTx(t: Tables, mine: Callback, result: DialResult): Tables
    requires mine.id in t.callbacks && Placed(result)
  {
    var called := UpsertCall(t, result.callId.value, DialWrites(mine));
    var attempt := Attempt(PLACED, Some(called.calls[result.callId.value].id), result.providerAttemptId, None, false);
    Append(called.(callbacks := t.callbacks[mine.id := DialledRow(t.callbacks[mine.id])],
                   attempts := t.attempts[AttemptKey(mine.id, mine.attemptCount) := attempt]),
           Event(mine.leadId, mine.sourceCallId, CALLBACK_TRIGGERED, OfDial(mine.id, result.error)))
  }

  /** The second transaction of process_due, after a dial that was not placed. */
  function RefusedTx(t: Tables, mine: Callback, now: Instant, result: DialResult): Tables
    requires mine.id in t.callbacks
  {
    var error := DialError(result);
    var row := FailedRow(t.callbacks[mine.id], error, RetryAt(result, now));
    var attempt := Attempt(AttemptStatus.FAILED, None, None, Some(error), result.retryable);
    Append(t.(callbacks := t.callbacks[mine.id := row],
              attempts := t.attempts[AttemptKey(mine.id, mine.attemptCount) := attempt]),
           Event(mine.leadId, mine.sourceCallId, CALLBACK_FAILED, OfDial(mine.id, result.error)))
  }

  /** mine is the row in the worker's session; now is the instant its tick began. */
  function RecordTx(t: Tables, mine: Callback, now: Instant, result: DialResult): Tables
    requires mine.id in t.callbacks
  {
    if Placed(result) then PlacedTx(t, mine, result) else RefusedTx(t, mine, now, result)
  }

  /** Both transactions of one tick on callback k, back to back. */
  function TickTx(t: Tables, k: nat, now: Instant, result: DialResult): Tables
    requires k in t.callbacks && t.callbacks[k].id == k
  {
    RecordTx(ClaimTx(t, t.callbacks[k], now), ClaimedRow(t.callbacks[k], now), now, result)
  }

  function CompletedRow(row: Callback, now: Instant): Callback {
    row.(status := COMPLETED, completedAt := Some(now), lastError := None,
         nextAttemptAt := None, claimedAt := None)
  }

  datatype CompletionRequest = CompletionRequest(
    sarvamCallId: string, leadId: nat, summary: Option<string>, closing: Closing)

  predicate Completable(callbacks: map<nat, Callback>, k: nat) {
    k in callbacks && callbacks[k].status == IN_PROGRESS
  }

  /** What the foreign keys to calls.id ask for. */
  predicate HasCall(calls: map<string, Call>, callId: nat) {
    exists id :: id in calls && calls[id].id == callId
  }

  /** The direction get_by_sarvam_call_id reads, None when the call has no row yet. */
  function DirectionOf(calls: map<string, Call>, id: string): Option<CallDirection> {
    if id in calls then Some(calls[id].direction) else None
  }

  /** seen is the direction as complete_call read it, which may be out of date by now. */
  function CompletionWrites(request: CompletionRequest, seen: Option<CallDirection>): CallWrites {
    CallWrites(request.leadId, if seen.Some? then seen.value else INITIAL,
               "completed", Keep, Put(request.summary), Put(Some(request.closing)))
  }

  /** The tables once the call row is completed and logged, before its callback is closed. */
  function CompletedCall(t: Tables, request: CompletionRequest, seen: Option<CallDirection>): Tables {
    var called := UpsertCall(t, request.sarvamCallId, CompletionWrites(request, seen));
    Append(called, Event(request.leadId, called.calls[request.sarvamCallId].id, CALL_COMPLETED,
                         OfSarvamCall(request.sarvamCallId)))
  }

  /** _close_callback: UPDATE .. WHERE id = callback_id AND status = IN_PROGRESS, and its event. */
  function CloseCallback(t: Tables, leadId: nat, call: Call, now: Instant): Tables {
    if call.callbackId.Some? && Completable(t.callbacks, call.callbackId.value) then
      var k := call.callbackId.value;
      Append(t.(callbacks := t.callbacks[k := CompletedRow(t.callbacks[k], now)]),
             Event(leadId, call.id, CALLBACK_COMPLETED, OfCallback(k)))
    else t
  }

  function CompleteCallTx(t: Tables, request: CompletionRequest, seen: Option<CallDirection>, now: Instant): Tables {
    var closed := CompletedCall(t, request, seen);
    CloseCallback(closed, request.leadId, closed.calls[request.sarvamCallId], now)
  }

  function CaptureWrites(leadId: nat, summary: Option<string>): CallWrites {
    CallWrites(leadId, INITIAL, "active", Keep, Put(summary), Keep)
  }

  function CaptureTx(t: Tables, sarvamCallId: string, leadId: nat, summary: Option<string>): Tables {
    UpsertCall(t, sarvamCallId, CaptureWrites(leadId, summary))
  }

  // -------------------------------------------------------------- messages

  predicate Refuses(messages: map<MessageKey, Message>, key: MessageKey) {
    key in messages && messages[key].status != MessageStatus.FAILED
  }

  predicate IsReserved(messages: map<MessageKey, Message>, key: MessageKey) {
    key in messages && messages[key].status == RESERVED
  }

  predicate IsSent(messages: map<MessageKey, Message>, key: MessageKey) {
    key in messages && messages[key].status == SENT
  }

  /** The row INSERT .. ON CONFLICT DO UPDATE .. WHERE status = FAILED returns. */
  function ReservedRow(messages: map<MessageKey, Message>, leadId: nat, key: MessageKey): Message
    requires !Refuses(messages, key)
  {
    if key in messages then
      messages[key].(status := RESERVED, attemptCount := messages[key].attemptCount + 1, lastError := None)
    else Message(leadId, key, RESERVED, 1, None, None, None)
  }

  /** The reserving transaction of deliver, when the reservation is granted. */
  function ReserveTx(t: Tables, leadId: nat, key: MessageKey): Tables
    requires !Refuses(t.messages, key)
  {
    Append(t.(messages := t.messages[key := ReservedRow(t.messages, leadId, key)]),
           Event(leadId, key.callId, RequestedEvent(key.kind), NoPayload))
  }

  /** How send() ended: a provider result, or one of the three caught exception types. */
  datatype SendOutcome =
    | Delivered(messageId: string)
    | ProviderError
    | StorageError
    | PhoneError

  function Reason(outcome: SendOutcome): string {
    match outcome
    case StorageError => "asset_url_failed"
    case ProviderError => "whapi_send_failed"
    case _ => "invalid_phone"
  }

  /** The reason that goes with each kind of failure. */
  predicate Explains(reason: string, answer: SendOutcome) {
    match answer
    case Delivered(_) => false
    case StorageError => reason == "asset_url_failed"
    case ProviderError => reason == "whapi_send_failed"
    case PhoneError => reason == "invalid_phone"
  }

  /** The row says how its last send was answered. */
  predicate RowTells(row: Message, answer: SendOutcome) {
    match answer
    case Delivered(id) => row.status == SENT && row.providerMessageId == Some(id) && row.lastError.None?
    case _ => row.status == MessageStatus.FAILED && row.lastError.Some? && Explains(row.lastError.value, answer)
  }

  function SettledRow(row: Message, outcome: SendOutcome, now: Instant): Message {
    match outcome
    case Delivered(id) =>
      row.(status := SENT, providerMessageId := Some(id), lastError := None, sentAt := Some(now))
    case _ => row.(status := MessageStatus.FAILED, lastError := Some(Reason(outcome)))
  }

  function SettledEvent(leadId: nat, key: MessageKey, outcome: SendOutcome): Event {
    match outcome
    case Delivered(id) => Event(leadId, key.callId, SentEvent(key.kind), OfSend(id))
    case _ => Event(leadId, key.callId, FailedEvent(key.kind), OfSendError(Reason(outcome)))
  }

  /** The recording transaction of deliver. */
  function SettleTx(t: Tables, leadId: nat, key: MessageKey, outcome: SendOutcome, now: Instant): Tables
    requires key in t.messages
  {
    Append(t.(messages := t.messages[key := SettledRow(t.messages[key], outcome, now)]),
           SettledEvent(leadId, key, outcome))
  }
}
