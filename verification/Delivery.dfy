/** One deliver call and the three deliveries of a follow-up, run without interference,
    as functions of the tables. */
module Delivery {
  import opened Schema
  import opened Transactions

  /** How one send() ends: caught outcomes, or an exception deliver does not catch. */
  datatype Send = Ended(outcome: SendOutcome, at: Instant) | Raised

  datatype DeliveryOutcome = DeliveryOutcome(
    sent: bool,
    alreadySent: bool,
    providerMessageId: Option<string>,
    error: Option<string>)

  /** The tables afterwards, the keys the provider was called for, and the outcome,
      which is None when the exception escapes. */
  datatype Delivering = Delivering(t: Tables, called: seq<MessageKey>, outcome: Option<DeliveryOutcome>)

  function OutcomeOf(outcome: SendOutcome): DeliveryOutcome {
    match outcome
    case Delivered(id) => DeliveryOutcome(true, false, Some(id), None)
    case _ => DeliveryOutcome(false, false, None, Some(Reason(outcome)))
  }

  function Deliver(t: Tables, leadId: nat, key: MessageKey, send: Send): Delivering {
    if Refuses(t.messages, key) then
      Delivering(t, [], Some(DeliveryOutcome(true, true, None, None)))
    else
      var reserved := ReserveTx(t, leadId, key);
      match send
      case Raised => Delivering(reserved, [key], None)
      case Ended(outcome, at) =>
        Delivering(SettleTx(reserved, leadId, key, outcome, at), [key], Some(OutcomeOf(outcome)))
  }

  /** The outcome deliver returns, told from how send() ended; None when an exception escapes. */
  predicate Reports(refused: bool, ending: Send, outcome: Option<DeliveryOutcome>) {
    if refused then outcome == Some(DeliveryOutcome(true, true, None, None))
    else
      match ending
      case Raised => outcome.None?
      case Ended(Delivered(id), _) => outcome == Some(DeliveryOutcome(true, false, Some(id), None))
      case Ended(failure, _) =>
        && outcome.Some? && outcome.value.error.Some? && Explains(outcome.value.error.value, failure)
        && outcome.value == DeliveryOutcome(false, false, None, outcome.value.error)
  }

  /** The row a granted delivery leaves. */
  predicate Stores(ending: Send, row: Message) {
    match ending
    case Raised => row.status == RESERVED && row.lastError.None?
    case Ended(answer, at) => RowTells(row, answer) && (answer.Delivered? ==> row.sentAt == Some(at))
  }

  /** .. and whose it is: a row re-claimed keeps its lead. */
  predicate Reclaims(before: map<MessageKey, Message>, leadId: nat, key: MessageKey, row: Message) {
    if key in before then
      row.key == before[key].key && row.leadId == before[key].leadId && row.attemptCount == before[key].attemptCount + 1
    else row.key == key && row.leadId == leadId && row.attemptCount == 1
  }

  /** The events a granted delivery logs. */
  predicate Notes(ending: Send, leadId: nat, key: MessageKey, events: seq<Event>) {
    && |events| == (if ending.Raised? then 1 else 2)
    && events[0] == Event(leadId, key.callId, RequestedEvent(key.kind), NoPayload)
    && match ending
       case Raised => true
       case Ended(Delivered(id), _) => events[1] == Event(leadId, key.callId, SentEvent(key.kind), OfSend(id))
       case Ended(failure, _) =>
         && events[1].payload.OfSendError? && Explains(events[1].payload.reason, failure)
         && events[1] == Event(leadId, key.callId, FailedEvent(key.kind), events[1].payload)
  }

  lemma DeliverTells(t: Tables, leadId: nat, key: MessageKey, send: Send)
    ensures var run := Deliver(t, leadId, key, send);
            && Reports(Refuses(t.messages, key), send, run.outcome)
            && (Refuses(t.messages, key) ==> run.t == t)
            && (!Refuses(t.messages, key) ==>
                  && key in run.t.messages && run.t == t.(messages := run.t.messages, events := run.t.events)
                  && run.t.messages == t.messages[key := run.t.messages[key]]
                  && Stores(send, run.t.messages[key]) && Reclaims(t.messages, leadId, key, run.t.messages[key])
                  && t.events <= run.t.events && Notes(send, leadId, key, run.t.events[|t.events|..]))
  {
    var run := Deliver(t, leadId, key, send);
    if !Refuses(t.messages, key) {
      var events := run.t.events[|t.events|..];
      assert events[0] == run.t.events[|t.events|];
      assert |events| == 2 ==> events[1] == run.t.events[|t.events| + 1];
    }
  }

  datatype Followup = Followup(t: Tables, called: seq<MessageKey>, sent: Option<seq<bool>>)

  /** One more delivery of a follow-up, unless an escaping exception has abandoned it. */
  function Then(before: Followup, leadId: nat, key: MessageKey, send: Send): Followup {
    if before.sent.None? then before
    else
      var next := Deliver(before.t, leadId, key, send);
      Followup(next.t, before.called + next.called,
               if next.outcome.None? then None else Some(before.sent.value + [next.outcome.value.sent]))
  }

  type Sends = s: map<MessageKind, Send> | FOLLOWUP_TEXT in s && FOLLOWUP_RESUME in s && FOLLOWUP_ARCHITECTURE in s
    witness map[FOLLOWUP_TEXT := Raised, FOLLOWUP_RESUME := Raised, FOLLOWUP_ARCHITECTURE := Raised]

  function SendForCall(t: Tables, leadId: nat, callId: nat, sends: Sends): Followup {
    var text := Then(Followup(t, [], Some([])), leadId, MessageKey(callId, FOLLOWUP_TEXT), sends[FOLLOWUP_TEXT]);
    var resume := Then(text, leadId, MessageKey(callId, FOLLOWUP_RESUME), sends[FOLLOWUP_RESUME]);
    Then(resume, leadId, MessageKey(callId, FOLLOWUP_ARCHITECTURE), sends[FOLLOWUP_ARCHITECTURE])
  }
}
