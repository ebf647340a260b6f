/** Reading the append-only audit log back: counting events, and replaying the
    delivery state of one message from what was logged about it. */
module EventLog {
  import opened Schema

  datatype Selector =
    | ForCallback(eventType: EventType, callbackId: nat)
    | ForCall(eventType: EventType, callId: nat)

  predicate Names(event: Event, callbackId: nat) {
    match event.payload
    case OfCallback(k) => k == callbackId
    case OfAttempt(k, _) => k == callbackId
    case OfDial(k, _) => k == callbackId
    case _ => false
  }

  predicate Selects(selector: Selector, event: Event) {
    && event.eventType == selector.eventType
    && match selector
       case ForCallback(_, id) => Names(event, id)
       case ForCall(_, id) => event.callId == id
  }

  function Count(events: seq<Event>, selector: Selector): nat {
    if |events| == 0 then 0
    else Count(events[..|events| - 1], selector)
         + (if Selects(selector, events[|events| - 1]) then 1 else 0)
  }

  lemma CountAppend(events: seq<Event>, event: Event, selector: Selector)
    ensures Count(events + [event], selector)
         == Count(events, selector) + (if Selects(selector, event) then 1 else 0)
  {
    assert (events + [event])[..|events|] == events;
  }

  /** How often the log names one callback, by the five event types that do. */
  datatype Tally = Tally(scheduled: nat, attempted: nat, triggered: nat, failed: nat, completed: nat)

  function TallyOf(events: seq<Event>, callbackId: nat): Tally {
    Tally(Count(events, ForCallback(CALLBACK_SCHEDULED, callbackId)),
          Count(events, ForCallback(CALLBACK_ATTEMPTED, callbackId)),
          Count(events, ForCallback(CALLBACK_TRIGGERED, callbackId)),
          Count(events, ForCallback(CALLBACK_FAILED, callbackId)),
          Count(events, ForCallback(CALLBACK_COMPLETED, callbackId)))
  }

  function Counted(tally: Tally, eventType: EventType): Tally {
    match eventType
    case CALLBACK_SCHEDULED => tally.(scheduled := tally.scheduled + 1)
    case CALLBACK_ATTEMPTED => tally.(attempted := tally.attempted + 1)
    case CALLBACK_TRIGGERED => tally.(triggered := tally.triggered + 1)
    case CALLBACK_FAILED => tally.(failed := tally.failed + 1)
    case CALLBACK_COMPLETED => tally.(completed := tally.completed + 1)
    case _ => tally
  }

  lemma TallyAppend(events: seq<Event>, event: Event, k: nat)
    ensures TallyOf(events + [event], k)
         == if Names(event, k) then Counted(TallyOf(events, k), event.eventType) else TallyOf(events, k)
  {
    CountAppend(events, event, ForCallback(CALLBACK_SCHEDULED, k));
    CountAppend(events, event, ForCallback(CALLBACK_ATTEMPTED, k));
    CountAppend(events, event, ForCallback(CALLBACK_TRIGGERED, k));
    CountAppend(events, event, ForCallback(CALLBACK_FAILED, k));
    CountAppend(events, event, ForCallback(CALLBACK_COMPLETED, k));
  }

  /** What the log says about one message. */
  datatype Delivery = Delivery(
    status: MessageStatus,
    attempts: nat,
    providerMessageId: Option<string>,
    lastError: Option<string>)

  function Next(before: Option<Delivery>, event: Event, key: MessageKey): Option<Delivery> {
    var attempts := if before.Some? then before.value.attempts else 0;
    if event.callId != key.callId then before
    else if event.eventType == RequestedEvent(key.kind) then
      Some(Delivery(RESERVED, attempts + 1, None, None))
    else if event.eventType == SentEvent(key.kind) && event.payload.OfSend? then
      Some(Delivery(SENT, attempts, Some(event.payload.providerMessageId), None))
    else if event.eventType == FailedEvent(key.kind) && event.payload.OfSendError? then
      Some(Delivery(MessageStatus.FAILED, attempts, None, Some(event.payload.reason)))
    else before
  }

  /** Fold the log from its first event; None when it never mentions the message. */
  function Replay(events: seq<Event>, key: MessageKey): Option<Delivery> {
    if |events| == 0 then None
    else Next(Replay(events[..|events| - 1], key), events[|events| - 1], key)
  }

  lemma ReplayAppend(events: seq<Event>, event: Event, key: MessageKey)
    ensures Replay(events + [event], key) == Next(Replay(events, key), event, key)
  {
    assert (events + [event])[..|events|] == events;
  }

  /** How often the log records each step of one message's delivery. */
  datatype Deliveries = Deliveries(requested: nat, sent: nat, failed: nat)

  function DeliveriesOf(events: seq<Event>, key: MessageKey): Deliveries {
    Deliveries(Count(events, ForCall(RequestedEvent(key.kind), key.callId)),
               Count(events, ForCall(SentEvent(key.kind), key.callId)),
               Count(events, ForCall(FailedEvent(key.kind), key.callId)))
  }

  /** The event is one of the three that deliver appends for this message. */
  predicate Concerns(event: Event, key: MessageKey) {
    && event.callId == key.callId
    && event.eventType in {RequestedEvent(key.kind), SentEvent(key.kind), FailedEvent(key.kind)}
  }

  function DeliveryCounted(d: Deliveries, eventType: EventType, kind: MessageKind): Deliveries {
    if eventType == RequestedEvent(kind) then d.(requested := d.requested + 1)
    else if eventType == SentEvent(kind) then d.(sent := d.sent + 1)
    else if eventType == FailedEvent(kind) then d.(failed := d.failed + 1)
    else d
  }

  lemma DeliveriesAppend(events: seq<Event>, event: Event, key: MessageKey)
    ensures DeliveriesOf(events + [event], key)
         == if Concerns(event, key) then DeliveryCounted(DeliveriesOf(events, key), event.eventType, key.kind)
            else DeliveriesOf(events, key)
  {
    CountAppend(events, event, ForCall(RequestedEvent(key.kind), key.callId));
    CountAppend(events, event, ForCall(SentEvent(key.kind), key.callId));
    CountAppend(events, event, ForCall(FailedEvent(key.kind), key.callId));
  }
}
