/** Migration 0004: messages absorb delivery_reservations, TRIGGERED becomes
    IN_PROGRESS, and the audit events are renamed; and its downgrade. */
module Migration {
  import opened Schema
  import opened Transactions

  /** callbacks.status as text: the enum of the running code, and the value it replaced. */
  datatype StatusText = TRIGGERED | Now(status: CallbackStatus)

  datatype EventText = HIGH_INTENT_WHATSAPP_RESERVED | Current(eventType: EventType)

  /** The primary key of delivery_reservations. */
  datatype ReservationKey = ReservationKey(callId: nat, target: EventType)

  datatype Reservation = Reservation(completedAt: Option<Instant>, createdAt: Instant)

  datatype MessageRow = MessageRow(message: Message, createdAt: Instant)

  // ------------------------------------------------ the CHECK constraints

  /** ck_callbacks_status before and after. */
  predicate LegacyStatus(s: StatusText) { s != Now(IN_PROGRESS) }
  predicate CurrentStatus(s: StatusText) { s.Now? }

  predicate OnlyCurrent(e: EventType) {
    e in {FOLLOWUP_TEXT_REQUESTED, FOLLOWUP_RESUME_REQUESTED, FOLLOWUP_ARCHITECTURE_REQUESTED, CALLBACK_COMPLETED}
  }

  /** ck_events_event_type before and after. */
  predicate LegacyEvent(e: EventText) { e.Current? ==> !OnlyCurrent(e.eventType) }
  predicate CurrentEvent(e: EventText) { e.Current? }

  /** RESERVATION_KIND, as the CASE expression evaluates it: NULL when nothing matches. */
  function KindOf(target: EventType): Option<MessageKind> {
    match target
    case HIGH_INTENT_WHATSAPP_SENT => Some(HIGH_INTENT)
    case FOLLOWUP_TEXT_SENT => Some(FOLLOWUP_TEXT)
    case FOLLOWUP_RESUME_SENT => Some(FOLLOWUP_RESUME)
    case FOLLOWUP_ARCHITECTURE_SENT => Some(FOLLOWUP_ARCHITECTURE)
    case _ => None
  }

  function MessageKeyOf(key: ReservationKey): MessageKey
    requires KindOf(key.target).Some?
  {
    MessageKey(key.callId, KindOf(key.target).value)
  }

  /** The reverse mapping. */
  function ReservationKeyOf(key: MessageKey): ReservationKey {
    ReservationKey(key.callId, SentEvent(key.kind))
  }

  lemma KeysCorrespond(r: ReservationKey, m: MessageKey)
    ensures KindOf(ReservationKeyOf(m).target).Some? && MessageKeyOf(ReservationKeyOf(m)) == m
    ensures KindOf(r.target).Some? ==> ReservationKeyOf(MessageKeyOf(r)) == r
  {
  }

  // ------------------------------------------------------- row by row

  function UpgradedStatus(s: StatusText): StatusText {
    if s == TRIGGERED then Now(IN_PROGRESS) else s
  }

  function DowngradedStatus(s: StatusText): StatusText {
    if s == Now(IN_PROGRESS) then TRIGGERED else s
  }

  function UpgradedEvent(e: EventText): EventText {
    if e == HIGH_INTENT_WHATSAPP_RESERVED then Current(HIGH_INTENT_WHATSAPP_REQUESTED) else e
  }

  function DowngradedEvent(e: EventText): EventText {
    if e.Current? && OnlyCurrent(e.eventType) then HIGH_INTENT_WHATSAPP_RESERVED else e
  }

  /** The SELECT that fills messages. */
  function MessageFrom(key: ReservationKey, r: Reservation, leadId: nat): MessageRow
    requires KindOf(key.target).Some?
  {
    var status := if r.completedAt.None? then RESERVED else SENT;
    MessageRow(Message(leadId, MessageKeyOf(key), status, 1, None, None, r.completedAt), r.createdAt)
  }

  function ReservationFrom(row: MessageRow): Reservation {
    Reservation(row.message.sentAt, row.createdAt)
  }

  // ------------------------------------------------------- the tables

  /** Only the tables and columns the data rewrite touches: None is a table or column that
      does not exist. leadOfCall is calls.lead_id by call id. */
  datatype Deployed = Deployed(
    leadOfCall: map<nat, nat>,
    linkOfCall: Option<map<nat, Option<nat>>>,
    statuses: map<nat, StatusText>,
    events: seq<EventText>,
    reservations: Option<map<ReservationKey, Reservation>>,
    messages: Option<map<MessageKey, MessageRow>>,
    attempts: Option<map<AttemptKey, Attempt>>)

  /** The schema at revision 0003, with what its constraints enforce. */
  predicate Legacy(d: Deployed) {
    && d.linkOfCall.None? && d.messages.None? && d.attempts.None? && d.reservations.Some?
    && (forall k :: k in d.statuses ==> LegacyStatus(d.statuses[k]))
    && (forall i :: 0 <= i < |d.events| ==> LegacyEvent(d.events[i]))
    && (forall key :: key in d.reservations.value ==> KindOf(key.target).Some? && key.callId in d.leadOfCall)
  }

  /** The schema at revision 0004, with what its constraints enforce. */
  predicate Migrated(d: Deployed) {
    && d.linkOfCall.Some? && d.messages.Some? && d.attempts.Some? && d.reservations.None?
    && (forall k :: k in d.statuses ==> CurrentStatus(d.statuses[k]))
    && (forall i :: 0 <= i < |d.events| ==> CurrentEvent(d.events[i]))
    && (forall key :: key in d.messages.value ==>
          d.messages.value[key].message.key == key && key.callId in d.leadOfCall)
  }

  function MessagesFrom(reservations: map<ReservationKey, Reservation>, leadOfCall: map<nat, nat>):
    (rows: map<MessageKey, MessageRow>)
    requires forall key :: key in reservations ==> KindOf(key.target).Some?
    ensures forall m :: m in rows <==> ReservationKeyOf(m) in reservations && m.callId in leadOfCall
    ensures forall m :: m in rows ==>
              rows[m] == MessageFrom(ReservationKeyOf(m), reservations[ReservationKeyOf(m)], leadOfCall[m.callId])
  {
    var rows := map key | key in reservations && key.callId in leadOfCall
                  :: MessageKeyOf(key) := MessageFrom(key, reservations[key], leadOfCall[key.callId]);
    assert forall m :: ReservationKeyOf(m) in reservations ==> MessageKeyOf(ReservationKeyOf(m)) == m;
    rows
  }

  function ReservationsFrom(messages: map<MessageKey, MessageRow>): (rows: map<ReservationKey, Reservation>)
    ensures forall r :: r in rows <==>
              KindOf(r.target).Some? && MessageKeyOf(r) in messages
              && messages[MessageKeyOf(r)].message.status != MessageStatus.FAILED
    ensures forall r :: r in rows ==> rows[r] == ReservationFrom(messages[MessageKeyOf(r)])
  {
    var kept := set key | key in messages && messages[key].message.status != MessageStatus.FAILED
                    :: ReservationKeyOf(key);
    assert forall r: ReservationKey :: r in kept <==>
             KindOf(r.target).Some? && MessageKeyOf(r) in messages
             && messages[MessageKeyOf(r)].message.status != MessageStatus.FAILED by {
      forall r: ReservationKey ensures KindOf(r.target).Some? ==> ReservationKeyOf(MessageKeyOf(r)) == r {}
      forall m: MessageKey ensures KindOf(ReservationKeyOf(m).target).Some? && MessageKeyOf(ReservationKeyOf(m)) == m {}
    }
    map r | r in kept :: ReservationFrom(messages[MessageKeyOf(r)])
  }

  function Unlinked(leadOfCall: map<nat, nat>): map<nat, Option<nat>> {
    map c | c in leadOfCall :: None
  }

  function UpgradedStatuses(statuses: map<nat, StatusText>): map<nat, StatusText> {
    map k | k in statuses :: UpgradedStatus(statuses[k])
  }

  function DowngradedStatuses(statuses: map<nat, StatusText>): map<nat, StatusText> {
    map k | k in statuses :: DowngradedStatus(statuses[k])
  }

  function UpgradedEvents(events: seq<EventText>): seq<EventText> {
    seq(|events|, i requires 0 <= i < |events| => UpgradedEvent(events[i]))
  }

  function DowngradedEvents(events: seq<EventText>): seq<EventText> {
    seq(|events|, i requires 0 <= i < |events| => DowngradedEvent(events[i]))
  }

  function Upgraded(d: Deployed): Deployed
    requires Legacy(d)
  {
    Deployed(
      d.leadOfCall,
      Some(Unlinked(d.leadOfCall)),
      UpgradedStatuses(d.statuses),
      UpgradedEvents(d.events),
      None,
      Some(MessagesFrom(d.reservations.value, d.leadOfCall)),
      Some(map[]))
  }

  function Downgraded(d: Deployed): Deployed
    requires Migrated(d)
  {
    Deployed(
      d.leadOfCall,
      None,
      DowngradedStatuses(d.statuses),
      DowngradedEvents(d.events),
      Some(ReservationsFrom(d.messages.value)),
      None,
      None)
  }

  /** The migration, statement by statement over the deployed tables. */
  class Deployment {
    var leadOfCall: map<nat, nat>
    var linkOfCall: Option<map<nat, Option<nat>>>
    var statuses: map<nat, StatusText>
    var events: seq<EventText>
    var reservations: Option<map<ReservationKey, Reservation>>
    var messages: Option<map<MessageKey, MessageRow>>
    var attempts: Option<map<AttemptKey, Attempt>>

    function Value(): Deployed
      reads this
    {
      Deployed(leadOfCall, linkOfCall, statuses, events, reservations, messages, attempts)
    }

    method RenameEventsToAuditEvents()
      modifies `events
      ensures events == UpgradedEvents(old(events))
      ensures forall i :: 0 <= i < |events| ==> CurrentEvent(events[i])
    {
      var before := events;
      events := seq(|before|, i requires 0 <= i < |before| =>
        if before[i] == HIGH_INTENT_WHATSAPP_RESERVED then Current(HIGH_INTENT_WHATSAPP_REQUESTED) else before[i]);
    }

    method AddCallbackLinkToCalls()
      modifies `linkOfCall
      ensures linkOfCall == Some(Unlinked(leadOfCall))
    {
      var links: map<nat, Option<nat>> := map c | c in leadOfCall :: None;
      assert links == Unlinked(leadOfCall);
      linkOfCall := Some(links);
    }

    method ReplaceTriggeredWithInProgress()
      modifies `statuses
      ensures statuses == UpgradedStatuses(old(statuses))
      ensures forall k :: k in statuses ==> CurrentStatus(statuses[k])
    {
      var before := statuses;
      statuses := map k | k in before :: if before[k] == TRIGGERED then Now(IN_PROGRESS) else before[k];
    }

    method CreateMessagesFromDeliveryReservations()
      requires reservations.Some? && forall key :: key in reservations.value ==> KindOf(key.target).Some?
      modifies `messages, `reservations
      ensures messages == Some(MessagesFrom(old(reservations).value, leadOfCall)) && reservations.None?
    {
      messages := Some(MessagesFrom(reservations.value, leadOfCall));
      reservations := None;
    }

    /** No CHECK, NOT NULL or UNIQUE constraint the upgrade adds can reject a legacy row. */
    method Upgrade()
      requires Legacy(Value())
      modifies this
      ensures Value() == Upgraded(old(Value())) && Migrated(Value())
    {
      RenameEventsToAuditEvents();
      AddCallbackLinkToCalls();
      ReplaceTriggeredWithInProgress();
      attempts := Some(map[]);
      CreateMessagesFromDeliveryReservations();
    }

    method ReplaceInProgressWithTriggered()
      modifies `statuses
      ensures statuses == DowngradedStatuses(old(statuses))
      ensures forall k :: k in statuses ==> LegacyStatus(statuses[k])
    {
      var before := statuses;
      statuses := map k | k in before :: if before[k] == Now(IN_PROGRESS) then TRIGGERED else before[k];
    }

    method RenameAuditEventsToEvents()
      modifies `events
      ensures events == DowngradedEvents(old(events))
      ensures forall i :: 0 <= i < |events| ==> LegacyEvent(events[i])
    {
      var before := events;
      events := seq(|before|, i requires 0 <= i < |before| =>
        if before[i].Current? && OnlyCurrent(before[i].eventType) then HIGH_INTENT_WHATSAPP_RESERVED else before[i]);
    }

    method Downgrade()
      requires Migrated(Value())
      modifies this
      ensures Value() == Downgraded(old(Value())) && Legacy(Value())
    {
      reservations := Some(ReservationsFrom(messages.value));
      messages := None;
      attempts := None;
      ReplaceInProgressWithTriggered();
      linkOfCall := None;
      RenameAuditEventsToEvents();
    }
  }

  // ------------------------------------------------------------ theorems

  /** The message rows as the running code's reserve sees them. */
  function RowsOf(messages: map<MessageKey, MessageRow>): map<MessageKey, Message> {
    map key | key in messages :: messages[key].message
  }

  /** The upgrade rewrites RESERVED events to REQUESTED and TRIGGERED callbacks to IN_PROGRESS,
      and leaves every other event and status as it is. */
  lemma UpgradeRewrites(events: seq<EventText>, statuses: map<nat, StatusText>)
    ensures |UpgradedEvents(events)| == |events| && UpgradedStatuses(statuses).Keys == statuses.Keys
    ensures forall i :: 0 <= i < |events| ==>
              UpgradedEvents(events)[i]
                == if events[i] == HIGH_INTENT_WHATSAPP_RESERVED then Current(HIGH_INTENT_WHATSAPP_REQUESTED)
                   else events[i]
    ensures forall k :: k in statuses ==>
              UpgradedStatuses(statuses)[k] == if statuses[k] == TRIGGERED then Now(IN_PROGRESS) else statuses[k]
  {
  }

  /** .. and the downgrade rewrites the four event types revision 0003 lacks to RESERVED, and
      IN_PROGRESS callbacks to TRIGGERED. */
  lemma DowngradeRewrites(events: seq<EventText>, statuses: map<nat, StatusText>)
    ensures |DowngradedEvents(events)| == |events| && DowngradedStatuses(statuses).Keys == statuses.Keys
    ensures forall i :: 0 <= i < |events| ==>
              DowngradedEvents(events)[i]
                == if events[i] in {Current(FOLLOWUP_TEXT_REQUESTED), Current(FOLLOWUP_RESUME_REQUESTED),
                                    Current(FOLLOWUP_ARCHITECTURE_REQUESTED), Current(CALLBACK_COMPLETED)}
                   then HIGH_INTENT_WHATSAPP_RESERVED else events[i]
    ensures forall k :: k in statuses ==>
              DowngradedStatuses(statuses)[k] == if statuses[k] == Now(IN_PROGRESS) then TRIGGERED else statuses[k]
  {
  }

  /** Each message the upgrade makes is of the reservation's kind and call, for that call's lead,
      on its first attempt, SENT at the instant the reservation was completed or else RESERVED. */
  lemma UpgradeMakesMessage(d: Deployed, key: ReservationKey)
    requires Legacy(d) && key in d.reservations.value
    ensures var m := MessageKey(key.callId, KindOf(key.target).value);
            var completed := d.reservations.value[key].completedAt;
            && NameParts(key.target) == Some((AuditPrefix(m.kind), "SENT"))
            && m in Upgraded(d).messages.value
            && Upgraded(d).messages.value[m]
                 == MessageRow(Message(d.leadOfCall[key.callId], m, if completed.None? then RESERVED else SENT,
                                       1, None, None, completed),
                               d.reservations.value[key].createdAt)
  {
    KeysCorrespond(key, MessageKeyOf(key));
  }

  /** The right to send survives the upgrade: reserve refuses exactly the deliveries that
      had a reservation, and every other one is still allowed. */
  lemma UpgradeKeepsRightToSend(d: Deployed, key: MessageKey)
    requires Legacy(d)
    ensures Refuses(RowsOf(Upgraded(d).messages.value), key) <==> ReservationKeyOf(key) in d.reservations.value
    ensures key in Upgraded(d).messages.value ==>
              (Upgraded(d).messages.value[key].message.status == SENT
               <==> d.reservations.value[ReservationKeyOf(key)].completedAt.Some?)
  {
    KeysCorrespond(ReservationKeyOf(key), key);
  }

  /** .. and the downgrade: a reservation remains exactly where reserve refused. */
  lemma DowngradeKeepsRightToSend(d: Deployed, key: MessageKey)
    requires Migrated(d)
    ensures ReservationKeyOf(key) in Downgraded(d).reservations.value <==> Refuses(RowsOf(d.messages.value), key)
  {
    KeysCorrespond(ReservationKeyOf(key), key);
  }

  /** Upgrade then downgrade restores reservations, statuses and everything else but the
      audit events the old value HIGH_INTENT_WHATSAPP_RESERVED was renamed from. */
  lemma UpgradeThenDowngrade(d: Deployed)
    requires Legacy(d)
    ensures Migrated(Upgraded(d))
    ensures Downgraded(Upgraded(d)) == d.(events := Downgraded(Upgraded(d)).events)
    ensures |Downgraded(Upgraded(d)).events| == |d.events|
    ensures forall i :: 0 <= i < |d.events| ==>
              (Downgraded(Upgraded(d)).events[i] == d.events[i] <==> d.events[i] != HIGH_INTENT_WHATSAPP_RESERVED)
  {
    ReservationsSurvive(d.reservations.value, d.leadOfCall);
    LegacyStatusesSurvive(d.statuses);
    LegacyEventsComeBack(d.events);
  }

  /** One event through the upgrade and back. */
  lemma LegacyEventComesBack(events: seq<EventText>, i: nat)
    requires i < |events| && LegacyEvent(events[i])
    ensures i < |DowngradedEvents(UpgradedEvents(events))|
    ensures DowngradedEvents(UpgradedEvents(events))[i] == events[i] <==> events[i] != HIGH_INTENT_WHATSAPP_RESERVED
  {
    assert UpgradedEvents(events)[i] == UpgradedEvent(events[i]);
  }

  lemma LegacyEventsComeBack(events: seq<EventText>)
    requires forall i :: 0 <= i < |events| ==> LegacyEvent(events[i])
    ensures var after := DowngradedEvents(UpgradedEvents(events));
            && |after| == |events|
            && forall i :: 0 <= i < |events| ==> (after[i] == events[i] <==> events[i] != HIGH_INTENT_WHATSAPP_RESERVED)
  {
    var after := DowngradedEvents(UpgradedEvents(events));
    forall i | 0 <= i < |events| ensures after[i] == events[i] <==> events[i] != HIGH_INTENT_WHATSAPP_RESERVED {
      LegacyEventComesBack(events, i);
    }
  }

  /** .. and one through the downgrade and back. */
  lemma CurrentEventComesBack(events: seq<EventText>, i: nat)
    requires i < |events| && CurrentEvent(events[i])
    ensures i < |UpgradedEvents(DowngradedEvents(events))|
    ensures UpgradedEvents(DowngradedEvents(events))[i] == events[i] <==> !OnlyCurrent(events[i].eventType)
  {
    assert DowngradedEvents(events)[i] == DowngradedEvent(events[i]);
  }

  lemma LegacyStatusesSurvive(statuses: map<nat, StatusText>)
    requires forall k :: k in statuses ==> LegacyStatus(statuses[k])
    ensures DowngradedStatuses(UpgradedStatuses(statuses)) == statuses
  {
  }

  lemma ReservationsSurvive(reservations: map<ReservationKey, Reservation>, leadOfCall: map<nat, nat>)
    requires forall key :: key in reservations ==> KindOf(key.target).Some? && key.callId in leadOfCall
    ensures ReservationsFrom(MessagesFrom(reservations, leadOfCall)) == reservations
  {
    var messages := MessagesFrom(reservations, leadOfCall);
    var restored := ReservationsFrom(messages);
    forall r: ReservationKey
      ensures r in restored <==> r in reservations
      ensures r in reservations ==> restored[r] == reservations[r]
    {
      if KindOf(r.target).Some? {
        KeysCorrespond(r, MessageKeyOf(r));
      }
    }
  }

  /** The rewritten log is the original exactly when it held no RESERVED event. */
  lemma LogRestoredExactlyWithoutReserved(d: Deployed)
    requires Legacy(d)
    ensures Migrated(Upgraded(d))
    ensures Downgraded(Upgraded(d)) == d <==> HIGH_INTENT_WHATSAPP_RESERVED !in d.events
  {
    UpgradeThenDowngrade(d);
    if HIGH_INTENT_WHATSAPP_RESERVED !in d.events {
      assert Downgraded(Upgraded(d)).events == d.events;
    }
  }

  /** A row on which sent_at says SENT, as the running code writes it. */
  predicate SaysWhenSent(row: MessageRow) {
    row.message.sentAt.Some? <==> row.message.status == SENT
  }

  /** What downgrade and upgrade make of a message: FAILED rows are dropped, and the others
      keep key, sent_at and created_at. They keep their status exactly when sent_at is set
      on SENT rows only. */
  lemma DowngradeThenUpgrade(d: Deployed, key: MessageKey)
    requires Migrated(d)
    ensures Legacy(Downgraded(d))
    ensures var after := Upgraded(Downgraded(d)).messages.value;
            && (key in after
                <==> key in d.messages.value && d.messages.value[key].message.status != MessageStatus.FAILED)
            && (key in after ==>
                  && after[key].message.key == key
                  && after[key].message.sentAt == d.messages.value[key].message.sentAt
                  && after[key].createdAt == d.messages.value[key].createdAt
                  && (after[key].message.status == d.messages.value[key].message.status
                      <==> SaysWhenSent(d.messages.value[key])))
  {
    MessagesSurvive(d.messages.value, d.leadOfCall, key);
  }

  lemma MessagesSurvive(messages: map<MessageKey, MessageRow>, leadOfCall: map<nat, nat>, key: MessageKey)
    requires forall m :: m in messages ==> m.callId in leadOfCall
    ensures var after := MessagesFrom(ReservationsFrom(messages), leadOfCall);
            && (key in after <==> key in messages && messages[key].message.status != MessageStatus.FAILED)
            && (key in after ==>
                  && after[key].message.key == key
                  && after[key].message.sentAt == messages[key].message.sentAt
                  && after[key].createdAt == messages[key].createdAt
                  && (after[key].message.status == messages[key].message.status <==> SaysWhenSent(messages[key])))
  {
    KeysCorrespond(ReservationKeyOf(key), key);
  }

  /** Callback statuses survive both ways round. */
  lemma StatusesSurvive(d: Deployed)
    requires Migrated(d)
    ensures Legacy(Downgraded(d)) && Upgraded(Downgraded(d)).statuses == d.statuses
  {
  }

  /** The other way round an audit event survives exactly when revision 0003 knew it. */
  lemma EventSurvivesDowngrade(d: Deployed, i: nat)
    requires Migrated(d) && i < |d.events|
    ensures Legacy(Downgraded(d)) && i < |Upgraded(Downgraded(d)).events|
    ensures Upgraded(Downgraded(d)).events[i] == d.events[i] <==> !OnlyCurrent(d.events[i].eventType)
  {
    CurrentEventComesBack(d.events, i);
  }

  /** A message row that carries nothing the reservations cannot say. */
  predicate Reducible(row: MessageRow, leadId: nat) {
    row.message == Message(leadId, row.message.key, if row.message.sentAt.None? then RESERVED else SENT,
                           1, None, None, row.message.sentAt)
  }

  lemma MessageRestoredExactly(messages: map<MessageKey, MessageRow>, leadOfCall: map<nat, nat>, key: MessageKey)
    requires forall m :: m in messages ==> messages[m].message.key == m && m.callId in leadOfCall
    requires key in messages
    ensures var after := MessagesFrom(ReservationsFrom(messages), leadOfCall);
            key in after && after[key] == messages[key] <==> Reducible(messages[key], leadOfCall[key.callId])
  {
    KeysCorrespond(ReservationKeyOf(key), key);
  }

  lemma MessagesRestoredExactly(messages: map<MessageKey, MessageRow>, leadOfCall: map<nat, nat>)
    requires forall m :: m in messages ==> messages[m].message.key == m && m.callId in leadOfCall
    ensures MessagesFrom(ReservationsFrom(messages), leadOfCall) == messages
       <==> forall key :: key in messages ==> Reducible(messages[key], leadOfCall[key.callId])
  {
    var after := MessagesFrom(ReservationsFrom(messages), leadOfCall);
    forall key | key in messages
      ensures key in after && after[key] == messages[key] <==> Reducible(messages[key], leadOfCall[key.callId])
    {
      MessageRestoredExactly(messages, leadOfCall, key);
    }
    forall key ensures key in after ==> key in messages {
      MessagesSurvive(messages, leadOfCall, key);
    }
  }

  lemma EventsRestoredExactly(d: Deployed)
    requires Migrated(d)
    ensures Legacy(Downgraded(d))
    ensures Upgraded(Downgraded(d)).events == d.events
       <==> forall i :: 0 <= i < |d.events| ==> !OnlyCurrent(d.events[i].eventType)
  {
    var after := Upgraded(Downgraded(d)).events;
    forall i | 0 <= i < |d.events| ensures after[i] == d.events[i] <==> !OnlyCurrent(d.events[i].eventType) {
      EventSurvivesDowngrade(d, i);
    }
  }

  /** A downgraded database comes back from the upgrade as it was exactly when it held nothing
      that revision 0003 has no place for: no link of a call to a callback, no attempt, no
      event type it lacks, and no message that says more than its reservation. */
  lemma DowngradeUndoneExactly(d: Deployed)
    requires Migrated(d)
    ensures Legacy(Downgraded(d))
    ensures Upgraded(Downgraded(d)) == d
       <==> && d.linkOfCall.value == Unlinked(d.leadOfCall) && d.attempts.value == map[]
            && (forall i :: 0 <= i < |d.events| ==> !OnlyCurrent(d.events[i].eventType))
            && (forall key :: key in d.messages.value ==>
                  Reducible(d.messages.value[key], d.leadOfCall[key.callId]))
  {
    StatusesSurvive(d);
    EventsRestoredExactly(d);
    MessagesRestoredExactly(d.messages.value, d.leadOfCall);
  }
}
