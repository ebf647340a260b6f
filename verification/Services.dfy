/** The services: each transaction is a sequence of repository calls, proved to be the
    transaction function the protocol interleaves. */
module Services {
  import opened Schema
  import opened Transactions
  import opened Repositories
  import opened Delivery
  import opened FollowupReplay

  datatype ScheduleReply = CallbackTimeRequired | Scheduled(callbackId: nat, scheduledFor: Instant)

  class CallbackService {
    const db: Database
    const calls: CallRepository
    const callbacks: CallbackRepository
    const attempts: CallbackAttemptRepository
    const events: AuditEventRepository

    constructor (db: Database)
      ensures this.db == db && Wired()
    {
      this.db := db;
      calls := new CallRepository(db);
      callbacks := new CallbackRepository(db);
      attempts := new CallbackAttemptRepository(db);
      events := new AuditEventRepository(db);
    }

    ghost predicate Wired() {
      calls.db == db && callbacks.db == db && attempts.db == db && events.db == db
    }

    method Schedule(request: ScheduleRequest) returns (reply: ScheduleReply)
      requires Wired() && db.Valid()
      modifies db
      ensures db.Valid() && db.Snapshot() == ScheduleTx(old(db.Snapshot()), request)
      ensures reply.CallbackTimeRequired? <==> request.callbackTime.None?
      ensures reply.Scheduled? ==>
                && request.sarvamCallId in db.calls && reply.callbackId in db.callbacks
                && Some(reply.scheduledFor) == request.callbackTime
                && ScheduledBy(db.callbacks[reply.callbackId], db.calls[request.sarvamCallId].id, reply.scheduledFor)
                && (reply.callbackId !in old(db.callbacks) ==>
                      && AsksFor(request, db.callbacks[reply.callbackId])
                      && Unattempted(db.callbacks[reply.callbackId]))
                && (reply.callbackId in old(db.callbacks) ==> db.callbacks == old(db.callbacks))
    {
      if request.callbackTime.None? {
        return CallbackTimeRequired;
      }
      var at := request.callbackTime.value;
      var call := calls.UpsertBySarvamCallId(
        request.sarvamCallId,
        CallWrites(request.leadId, INITIAL, "active", Keep, Put(request.summary), Keep));
      var callback := callbacks.Schedule(request.leadId, call.id, at, request);
      assert ScheduledId(db.callbacks, call.id, at) == callback.id;
      events.Append(Event(request.leadId, call.id, CALLBACK_SCHEDULED, OfCallback(callback.id)));
      return Scheduled(callback.id, at);
    }

    /** The first transaction of process_due; locked holds the rows of other open transactions. */
    method Claim(now: Instant, locked: set<nat>) returns (claimed: Option<Callback>)
      requires Wired() && db.Valid()
      modifies db
      ensures db.Valid()
      ensures claimed.None? ==>
                db.Snapshot() == old(db.Snapshot()) && forall k :: !Claimable(db.callbacks, locked, now, k)
      ensures claimed.Some? ==>
                var k := claimed.value.id;
                && NextDue(old(db.callbacks), locked, now, k)
                && claimed.value == ClaimedRow(old(db.callbacks)[k], now)
                && db.Snapshot() == ClaimTx(old(db.Snapshot()), old(db.callbacks)[k], now)
    {
      claimed := callbacks.ClaimDue(now, locked);
      if claimed.Some? {
        var callback := claimed.value;
        events.Append(Event(callback.leadId, callback.sourceCallId, CALLBACK_ATTEMPTED,
                            OfAttempt(callback.id, callback.attemptCount)));
      }
    }

    /** The second transaction of process_due. recorded is false when the unique key of the
        attempts rejects the row, and the transaction is rolled back. */
    method RecordDial(callback: Callback, now: Instant, result: DialResult) returns (recorded: bool)
      requires Wired() && db.Valid() && callback.id in db.callbacks
      modifies db
      ensures recorded <==> AttemptKey(callback.id, callback.attemptCount) !in old(db.attempts)
      ensures db.Valid()
      ensures recorded ==> db.Snapshot() == RecordTx(old(db.Snapshot()), callback, now, result)
      ensures !recorded ==> db.Snapshot() == old(db.Snapshot()).(nextCallId := db.nextCallId)
    {
      var begun := db.Snapshot();
      var key := AttemptKey(callback.id, callback.attemptCount);
      var eventType;
      if result.success && result.callId.Some? && result.callId.value != "" {
        var call := calls.UpsertBySarvamCallId(
          result.callId.value,
          CallWrites(callback.leadId, CALLBACK, "active", Put(Some(callback.id)), Keep, Keep));
        callbacks.MarkDialled(callback.id);
        recorded := attempts.Record(key, Attempt(PLACED, Some(call.id), result.providerAttemptId, None, false));
        eventType := CALLBACK_TRIGGERED;
      } else {
        var error :=
          if result.error.Some? && result.error.value != "" then result.error.value else "outbound_call_failed";
        callbacks.MarkFailed(callback.id, error, if result.retryable then Some(now + RETRY_DELAY) else None);
        recorded := attempts.Record(key, Attempt(AttemptStatus.FAILED, None, None, Some(error), result.retryable));
        eventType := CALLBACK_FAILED;
      }
      if recorded {
        events.Append(Event(callback.leadId, callback.sourceCallId, eventType, OfDial(callback.id, result.error)));
      } else {
        db.Rollback(begun);
      }
    }

    /** One tick that nothing interleaves with. minted is the id place_call mints for this row.
        The attempt key is free in every reachable state, by Runs.WorkerWritesLoseNothing. */
    method ProcessDue(now: Instant, minted: string, response: DialResponse) returns (worked: bool)
      requires Wired() && db.Valid()
      modifies db
      ensures db.Valid()
      ensures worked <==> exists k :: Claimable(old(db.callbacks), {}, now, k)
      ensures !worked ==> db.Snapshot() == old(db.Snapshot())
      ensures worked ==> exists k :: Ticked(old(db.Snapshot()), db.Snapshot(), k, now, PlaceCall(minted, response))
    {
      var claimed := Claim(now, {});
      if claimed.None? {
        return false;
      }
      ghost var k := claimed.value.id;
      assert Claimable(old(db.callbacks), {}, now, k);
      var result := PlaceCall(minted, response);
      var recorded := RecordDial(claimed.value, now, result);
      assert Ticked(old(db.Snapshot()), db.Snapshot(), k, now, result);
      return true;
    }
  }

  /** A tick that dialled callback k and recorded the result; when its attempt key was taken
      the second transaction was rolled back, so only the claim is left. */
  predicate Ticked(before: Tables, after: Tables, k: nat, now: Instant, result: DialResult) {
    && NextDue(before.callbacks, {}, now, k) && before.callbacks[k].id == k
    && after == if AttemptKey(k, before.callbacks[k].attemptCount + 1) !in before.attempts
                then TickTx(before, k, now, result)
                else ClaimTx(before, before.callbacks[k], now).(nextCallId := after.nextCallId)
  }

  /** The provider, with the keys it was called for. */
  class Outbox {
    var called: seq<MessageKey>

    constructor ()
      ensures called == []
    {
      called := [];
    }

    method Call(key: MessageKey, ending: Send) returns (send: Send)
      modifies this
      ensures called == old(called) + [key] && send == ending
    {
      called := called + [key];
      send := ending;
    }
  }

  class MessageService {
    const db: Database
    const messages: MessageRepository
    const events: AuditEventRepository

    constructor (db: Database)
      ensures this.db == db && Wired()
    {
      this.db := db;
      messages := new MessageRepository(db);
      events := new AuditEventRepository(db);
    }

    ghost predicate Wired() {
      messages.db == db && events.db == db
    }

    /** ending is what the provider will do if it is called. */
    method Deliver(leadId: nat, key: MessageKey, outbox: Outbox, ending: Send)
      returns (outcome: Option<DeliveryOutcome>)
      requires Wired()
      modifies db`messages, db`events, outbox
      ensures var run := Delivery.Deliver(old(db.Snapshot()), leadId, key, ending);
              db.Snapshot() == run.t && outcome == run.outcome && outbox.called == old(outbox.called) + run.called
      ensures Reports(Refuses(old(db.messages), key), ending, outcome)
      ensures !Refuses(old(db.messages), key) ==>
                && key in db.messages && db.messages == old(db.messages)[key := db.messages[key]]
                && Stores(ending, db.messages[key]) && Reclaims(old(db.messages), leadId, key, db.messages[key])
                && old(db.events) <= db.events && Notes(ending, leadId, key, db.events[|old(db.events)|..])
    {
      DeliverTells(db.Snapshot(), leadId, key, ending);
      var message := messages.Reserve(leadId, key);
      if message.None? {
        return Some(DeliveryOutcome(true, true, None, None));
      }
      events.Append(Event(leadId, key.callId, RequestedEvent(key.kind), NoPayload));
      var send := outbox.Call(key, ending);
      match send {
        case Raised => outcome := None;
        case Ended(Delivered(id), at) =>
          messages.MarkSent(key, id, at);
          events.Append(Event(leadId, key.callId, SentEvent(key.kind), OfSend(id)));
          outcome := Some(DeliveryOutcome(true, false, Some(id), None));
        case Ended(failure, at) =>
          var reason := Reason(failure);
          messages.MarkFailed(key, reason);
          events.Append(Event(leadId, key.callId, FailedEvent(key.kind), OfSendError(reason)));
          outcome := Some(DeliveryOutcome(false, false, None, Some(reason)));
      }
    }
  }

  datatype FollowupResult = FollowupResult(success: bool, textSent: bool, resumeSent: bool, architectureSent: bool)

  function ResultOf(sent: Option<seq<bool>>): Option<FollowupResult>
    requires sent.Some? ==> |sent.value| == 3
  {
    if sent.None? then None
    else Some(FollowupResult(sent.value[0] && sent.value[1] && sent.value[2],
                             sent.value[0], sent.value[1], sent.value[2]))
  }

  /** A send the follow-up makes raises. */
  predicate Abandoned(before: map<MessageKey, Message>, callId: nat, sends: Sends) {
    exists kind :: kind in {FOLLOWUP_TEXT, FOLLOWUP_RESUME, FOLLOWUP_ARCHITECTURE}
                   && !Refuses(before, MessageKey(callId, kind)) && sends[kind].Raised?
  }

  /** The message is SENT, or was somebody else's to send. */
  predicate Covered(before: map<MessageKey, Message>, after: map<MessageKey, Message>, key: MessageKey) {
    IsSent(after, key) || IsReserved(before, key)
  }

  /** Each flag is about the row of its own kind, and success about all three. */
  predicate FollowupTells(before: map<MessageKey, Message>, after: map<MessageKey, Message>, callId: nat,
                          result: FollowupResult) {
    && (result.textSent <==> Covered(before, after, MessageKey(callId, FOLLOWUP_TEXT)))
    && (result.resumeSent <==> Covered(before, after, MessageKey(callId, FOLLOWUP_RESUME)))
    && (result.architectureSent <==> Covered(before, after, MessageKey(callId, FOLLOWUP_ARCHITECTURE)))
    && (result.success <==> result.textSent && result.resumeSent && result.architectureSent)
  }

  lemma FollowupAnswers(t: Tables, leadId: nat, callId: nat, sends: Sends)
    ensures var run := Delivery.SendForCall(t, leadId, callId, sends);
            && (run.sent.None? <==> Abandoned(t.messages, callId, sends))
            && (run.sent.Some? ==>
                  |run.sent.value| == 3
                  && FollowupTells(t.messages, run.t.messages, callId, ResultOf(run.sent).value))
  {
    AbandonedExactly(t, leadId, callId, sends);
    var run := Delivery.SendForCall(t, leadId, callId, sends);
    if run.sent.Some? {
      FlagsMeanSent(t, leadId, callId, sends);
    }
  }

  class FollowupService {
    const messages: MessageService

    constructor (messages: MessageService)
      ensures this.messages == messages
    {
      this.messages := messages;
    }

    /** One of the three deliveries. soFar is what the follow-up has done up to here, and
        calledBefore what the provider was called for before it. */
    method DeliverOne(leadId: nat, key: MessageKey, outbox: Outbox, ending: Send,
                      ghost soFar: Followup, ghost calledBefore: seq<MessageKey>)
      returns (sent: Option<bool>, ghost next: Followup)
      requires messages.Wired() && messages.db.Snapshot() == soFar.t && soFar.sent.Some?
      requires outbox.called == calledBefore + soFar.called
      modifies messages.db`messages, messages.db`events, outbox
      ensures next == Then(soFar, leadId, key, ending)
      ensures messages.db.Snapshot() == next.t && outbox.called == calledBefore + next.called
      ensures sent.None? <==> next.sent.None?
      ensures sent.Some? ==> next.sent.value == soFar.sent.value + [sent.value]
    {
      var outcome := messages.Deliver(leadId, key, outbox, ending);
      next := Then(soFar, leadId, key, ending);
      sent := if outcome.None? then None else Some(outcome.value.sent);
    }

    method SendForCall(leadId: nat, callId: nat, outbox: Outbox, sends: Sends) returns (result: Option<FollowupResult>)
      requires messages.Wired()
      modifies messages.db`messages, messages.db`events, outbox
      ensures var run := Delivery.SendForCall(old(messages.db.Snapshot()), leadId, callId, sends);
              && messages.db.Snapshot() == run.t
              && outbox.called == old(outbox.called) + run.called
              && (run.sent.Some? ==> |run.sent.value| == 3)
              && result == ResultOf(run.sent)
      ensures result.None? <==> Abandoned(old(messages.db.messages), callId, sends)
      ensures result.Some? ==> FollowupTells(old(messages.db.messages), messages.db.messages, callId, result.value)
    {
      FollowupAnswers(messages.db.Snapshot(), leadId, callId, sends);
      ghost var run := Followup(messages.db.Snapshot(), [], Some([]));
      ghost var before := outbox.called;
      var text, resume, architecture;
      text, run := DeliverOne(leadId, MessageKey(callId, FOLLOWUP_TEXT), outbox, sends[FOLLOWUP_TEXT], run, before);
      if text.None? {
        return None;
      }
      resume, run := DeliverOne(leadId, MessageKey(callId, FOLLOWUP_RESUME), outbox,
                                sends[FOLLOWUP_RESUME], run, before);
      if resume.None? {
        return None;
      }
      architecture, run := DeliverOne(leadId, MessageKey(callId, FOLLOWUP_ARCHITECTURE), outbox,
                                      sends[FOLLOWUP_ARCHITECTURE], run, before);
      if architecture.None? {
        return None;
      }
      return Some(FollowupResult(
        text.value && resume.value && architecture.value, text.value, resume.value, architecture.value));
    }
  }

  /** The row of a completed call: what the request says, and the direction and link it had. */
  predicate CallTells(before: map<string, Call>, request: CompletionRequest, call: Call) {
    && call.status == "completed" && call.leadId == request.leadId
    && call.summary == request.summary && call.closing == Some(request.closing)
    && (if request.sarvamCallId in before then
          && call.id == before[request.sarvamCallId].id
          && call.direction == before[request.sarvamCallId].direction
          && call.callbackId == before[request.sarvamCallId].callbackId
        else call.direction == INITIAL && call.callbackId.None?)
  }

  class CallService {
    const db: Database
    const calls: CallRepository
    const callbacks: CallbackRepository
    const events: AuditEventRepository
    const followup: FollowupService

    constructor (db: Database, followup: FollowupService)
      ensures this.db == db && this.followup == followup
      ensures calls.db == db && callbacks.db == db && events.db == db
    {
      this.db := db;
      this.followup := followup;
      calls := new CallRepository(db);
      callbacks := new CallbackRepository(db);
      events := new AuditEventRepository(db);
    }

    ghost predicate Wired() {
      && calls.db == db && callbacks.db == db && events.db == db
      && followup.messages.db == db && followup.messages.Wired()
    }

    method CloseCallback(leadId: nat, call: Call, now: Instant)
      requires Wired() && db.Valid()
      modifies db
      ensures db.Valid() && db.Snapshot() == Transactions.CloseCallback(old(db.Snapshot()), leadId, call, now)
    {
      if call.callbackId.None? {
        return;
      }
      var completed := callbacks.MarkCompleted(call.callbackId.value, now);
      if completed.None? {
        return;
      }
      events.Append(Event(leadId, call.id, CALLBACK_COMPLETED, OfCallback(call.callbackId.value)));
    }

    /** The transaction that persists the call and closes its callback. */
    method PersistCompletion(request: CompletionRequest, now: Instant) returns (call: Call)
      requires Wired() && db.Valid()
      modifies db
      ensures db.Valid()
      ensures db.Snapshot()
           == CompleteCallTx(old(db.Snapshot()), request, DirectionOf(old(db.calls), request.sarvamCallId), now)
      ensures request.sarvamCallId in db.calls && call == db.calls[request.sarvamCallId]
      ensures db.messages == old(db.messages) && CallTells(old(db.calls), request, call)
    {
      var existing := calls.GetBySarvamCallId(request.sarvamCallId);
      var direction := if existing.Some? then existing.value.direction else INITIAL;
      call := calls.UpsertBySarvamCallId(
        request.sarvamCallId,
        CallWrites(request.leadId, direction, "completed", Keep, Put(request.summary), Put(Some(request.closing))));
      events.Append(Event(request.leadId, call.id, CALL_COMPLETED, OfSarvamCall(request.sarvamCallId)));
      CloseCallback(request.leadId, call, now);
    }

    method CompleteCall(request: CompletionRequest, now: Instant, outbox: Outbox, sends: Sends)
      returns (result: Option<FollowupResult>)
      requires Wired() && db.Valid()
      modifies db, outbox
      ensures var closed :=
                CompleteCallTx(old(db.Snapshot()), request, DirectionOf(old(db.calls), request.sarvamCallId), now);
              request.sarvamCallId in closed.calls
              && var run := Delivery.SendForCall(closed, request.leadId, closed.calls[request.sarvamCallId].id, sends);
              && db.Snapshot() == run.t
              && outbox.called == old(outbox.called) + run.called
              && (run.sent.Some? ==> |run.sent.value| == 3)
              && result == ResultOf(run.sent)
      ensures request.sarvamCallId in db.calls && CallTells(old(db.calls), request, db.calls[request.sarvamCallId])
      ensures var callId := db.calls[request.sarvamCallId].id;
              && (result.None? <==> Abandoned(old(db.messages), callId, sends))
              && (result.Some? ==> FollowupTells(old(db.messages), db.messages, callId, result.value))
    {
      var call := PersistCompletion(request, now);
      result := followup.SendForCall(request.leadId, call.id, outbox, sends);
    }
  }

  class PersistentHighIntentService {
    const db: Database
    const calls: CallRepository
    const messages: MessageService

    constructor (db: Database, messages: MessageService)
      ensures this.db == db && this.messages == messages && calls.db == db
    {
      this.db := db;
      this.messages := messages;
      calls := new CallRepository(db);
    }

    /** None when an exception escapes deliver. */
    method Send(sarvamCallId: string, leadId: nat, summary: Option<string>, outbox: Outbox, ending: Send)
      returns (reply: Option<HighIntentReply>)
      requires calls.db == db && messages.db == db && messages.Wired()
      modifies db, outbox
      ensures var captured := CaptureTx(old(db.Snapshot()), sarvamCallId, leadId, summary);
              sarvamCallId in captured.calls
              && var run :=
                   Delivery.Deliver(captured, leadId, MessageKey(captured.calls[sarvamCallId].id, HIGH_INTENT), ending);
              && db.Snapshot() == run.t
              && outbox.called == old(outbox.called) + run.called
      ensures sarvamCallId in db.calls
      ensures var call, key := db.calls[sarvamCallId], MessageKey(db.calls[sarvamCallId].id, HIGH_INTENT);
              && call.leadId == leadId && call.direction == INITIAL && call.status == "active"
              && call.summary == summary
              && Replies(Refuses(old(db.messages), key), ending, reply)
              && (!Refuses(old(db.messages), key) ==>
                    && key in db.messages && Stores(ending, db.messages[key])
                    && Reclaims(old(db.messages), leadId, key, db.messages[key]))
    {
      var call := calls.UpsertBySarvamCallId(
        sarvamCallId, CallWrites(leadId, INITIAL, "active", Keep, Put(summary), Keep));
      var outcome := messages.Deliver(leadId, MessageKey(call.id, HIGH_INTENT), outbox, ending);
      if outcome.None? {
        return None;
      }
      if !outcome.value.sent {
        return Some(NotSent(outcome.value.error));
      }
      if outcome.value.alreadySent {
        return Some(AlreadySent);
      }
      return Some(Sent(outcome.value.providerMessageId));
    }
  }

  /** The tool's three answers: an error, already_sent, or the id of the message. */
  datatype HighIntentReply = NotSent(error: Option<string>) | AlreadySent | Sent(messageId: Option<string>)

  /** Which of them the tool gives, told from how its send ended. */
  predicate Replies(refused: bool, ending: Send, reply: Option<HighIntentReply>) {
    if refused then reply == Some(AlreadySent)
    else
      match ending
      case Raised => reply.None?
      case Ended(Delivered(id), _) => reply == Some(Sent(Some(id)))
      case Ended(failure, _) =>
        reply.Some? && reply.value.NotSent? && reply.value.error.Some? && Explains(reply.value.error.value, failure)
  }
}
