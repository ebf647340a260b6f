/** The rows of the sales_agent schema that the callback and message protocols
    read and write, and the six tables as one value. */
module Schema {

  datatype Option<+T> = None | Some(value: T)

  /** Instants in microseconds; Python's aware datetimes compare by instant. */
  type Instant = int

  const RETRY_DELAY: int := 5 * 60 * 1_000_000

  datatype CallDirection = INITIAL | CALLBACK

  /** The columns that only a completion payload writes, always together. */
  datatype Closing = Closing(
    language: Option<string>,
    importantStatements: seq<string>,
    transcript: Option<string>,
    startedAt: Option<Instant>,
    endedAt: Option<Instant>)

  datatype Call = Call(
    id: nat,
    leadId: nat,
    callbackId: Option<nat>,
    direction: CallDirection,
    status: string,
    summary: Option<string>,
    closing: Option<Closing>)

  datatype CallbackStatus = PENDING | IN_PROGRESS | COMPLETED | FAILED | CANCELLED

  datatype Callback = Callback(
    id: nat,
    leadId: nat,
    sourceCallId: nat,
    requestedExpression: string,
    scheduledAt: Instant,
    timezone: string,
    reason: Option<string>,
    status: CallbackStatus,
    attemptCount: nat,
    lastError: Option<string>,
    nextAttemptAt: Option<Instant>,
    claimedAt: Option<Instant>,
    completedAt: Option<Instant>)

  datatype AttemptStatus = PLACED | FAILED

  /** The unique key of callback_attempts. */
  datatype AttemptKey = AttemptKey(callbackId: nat, number: nat)

  datatype Attempt = Attempt(
    status: AttemptStatus,
    callId: Option<nat>,
    providerAttemptId: Option<string>,
    error: Option<string>,
    retryable: bool)

  datatype MessageKind = HIGH_INTENT | FOLLOWUP_TEXT | FOLLOWUP_RESUME | FOLLOWUP_ARCHITECTURE

  datatype MessageStatus = RESERVED | SENT | FAILED

  /** The unique key of messages: the idempotency boundary. */
  datatype MessageKey = MessageKey(callId: nat, kind: MessageKind)

  datatype Message = Message(
    leadId: nat,
    key: MessageKey,
    status: MessageStatus,
    attemptCount: nat,
    providerMessageId: Option<string>,
    lastError: Option<string>,
    sentAt: Option<Instant>)

  datatype EventType =
    | HIGH_INTENT_WHATSAPP_REQUESTED
    | HIGH_INTENT_WHATSAPP_SENT
    | HIGH_INTENT_WHATSAPP_FAILED
    | FOLLOWUP_TEXT_REQUESTED
    | FOLLOWUP_TEXT_SENT
    | FOLLOWUP_TEXT_FAILED
    | FOLLOWUP_RESUME_REQUESTED
    | FOLLOWUP_RESUME_SENT
    | FOLLOWUP_RESUME_FAILED
    | FOLLOWUP_ARCHITECTURE_REQUESTED
    | FOLLOWUP_ARCHITECTURE_SENT
    | FOLLOWUP_ARCHITECTURE_FAILED
    | CALL_COMPLETED
    | CALLBACK_SCHEDULED
    | CALLBACK_ATTEMPTED
    | CALLBACK_TRIGGERED
    | CALLBACK_COMPLETED
    | CALLBACK_FAILED

  datatype Payload =
    | NoPayload
    | OfCallback(callbackId: nat)
    | OfAttempt(callbackId: nat, attempt: nat)
    | OfDial(callbackId: nat, error: Option<string>)
    | OfSarvamCall(sarvamCallId: string)
    | OfSend(providerMessageId: string)
    | OfSendError(reason: string)

  datatype Event = Event(leadId: nat, callId: nat, eventType: EventType, payload: Payload)

  /** The tables, with the next value of the two identity columns that other rows refer to.
      calls is indexed by its unique sarvam_call_id. */
  datatype Tables = Tables(
    calls: map<string, Call>,
    callbacks: map<nat, Callback>,
    attempts: map<AttemptKey, Attempt>,
    messages: map<MessageKey, Message>,
    events: seq<Event>,
    nextCallId: nat,
    nextCallbackId: nat)

  const EMPTY_TABLES := Tables(map[], map[], map[], map[], [], 1, 1)

  /** The two parts the name of a delivery event is spelled from, prefix_STEP. */
  function NameParts(eventType: EventType): Option<(string, string)> {
    match eventType
    case HIGH_INTENT_WHATSAPP_REQUESTED => Some(("HIGH_INTENT_WHATSAPP", "REQUESTED"))
    case HIGH_INTENT_WHATSAPP_SENT => Some(("HIGH_INTENT_WHATSAPP", "SENT"))
    case HIGH_INTENT_WHATSAPP_FAILED => Some(("HIGH_INTENT_WHATSAPP", "FAILED"))
    case FOLLOWUP_TEXT_REQUESTED => Some(("FOLLOWUP_TEXT", "REQUESTED"))
    case FOLLOWUP_TEXT_SENT => Some(("FOLLOWUP_TEXT", "SENT"))
    case FOLLOWUP_TEXT_FAILED => Some(("FOLLOWUP_TEXT", "FAILED"))
    case FOLLOWUP_RESUME_REQUESTED => Some(("FOLLOWUP_RESUME", "REQUESTED"))
    case FOLLOWUP_RESUME_SENT => Some(("FOLLOWUP_RESUME", "SENT"))
    case FOLLOWUP_RESUME_FAILED => Some(("FOLLOWUP_RESUME", "FAILED"))
    case FOLLOWUP_ARCHITECTURE_REQUESTED => Some(("FOLLOWUP_ARCHITECTURE", "REQUESTED"))
    case FOLLOWUP_ARCHITECTURE_SENT => Some(("FOLLOWUP_ARCHITECTURE", "SENT"))
    case FOLLOWUP_ARCHITECTURE_FAILED => Some(("FOLLOWUP_ARCHITECTURE", "FAILED"))
    case _ => None
  }

  /** _AUDIT_PREFIX */
  function AuditPrefix(kind: MessageKind): string {
    match kind
    case HIGH_INTENT => "HIGH_INTENT_WHATSAPP"
    case FOLLOWUP_TEXT => "FOLLOWUP_TEXT"
    case FOLLOWUP_RESUME => "FOLLOWUP_RESUME"
    case FOLLOWUP_ARCHITECTURE => "FOLLOWUP_ARCHITECTURE"
  }

  /** The three events of a kind are the ones its prefix and the step spell. */
  lemma EventsAreNamedByKind(kind: MessageKind)
    ensures NameParts(RequestedEvent(kind)) == Some((AuditPrefix(kind), "REQUESTED"))
    ensures NameParts(SentEvent(kind)) == Some((AuditPrefix(kind), "SENT"))
    ensures NameParts(FailedEvent(kind)) == Some((AuditPrefix(kind), "FAILED"))
  {
  }

  function RequestedEvent(kind: MessageKind): EventType {
    match kind
    case HIGH_INTENT => HIGH_INTENT_WHATSAPP_REQUESTED
    case FOLLOWUP_TEXT => FOLLOWUP_TEXT_REQUESTED
    case FOLLOWUP_RESUME => FOLLOWUP_RESUME_REQUESTED
    case FOLLOWUP_ARCHITECTURE => FOLLOWUP_ARCHITECTURE_REQUESTED
  }

  function SentEvent(kind: MessageKind): EventType {
    match kind
    case HIGH_INTENT => HIGH_INTENT_WHATSAPP_SENT
    case FOLLOWUP_TEXT => FOLLOWUP_TEXT_SENT
    case FOLLOWUP_RESUME => FOLLOWUP_RESUME_SENT
    case FOLLOWUP_ARCHITECTURE => FOLLOWUP_ARCHITECTURE_SENT
  }

  function FailedEvent(kind: MessageKind): EventType {
    match kind
    case HIGH_INTENT => HIGH_INTENT_WHATSAPP_FAILED
    case FOLLOWUP_TEXT => FOLLOWUP_TEXT_FAILED
    case FOLLOWUP_RESUME => FOLLOWUP_RESUME_FAILED
    case FOLLOWUP_ARCHITECTURE => FOLLOWUP_ARCHITECTURE_FAILED
  }
}
