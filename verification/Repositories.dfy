/** The repositories, as classes that change the tables of one database in place. */
module Repositories {
  import opened Schema
  import opened Transactions

  /** The committed tables. Valid is what the primary and unique keys of callbacks enforce. */
  class Database {
    var calls: map<string, Call>
    var callbacks: map<nat, Callback>
    var attempts: map<AttemptKey, Attempt>
    var messages: map<MessageKey, Message>
    var events: seq<Event>
    var nextCallId: nat
    var nextCallbackId: nat

    constructor ()
      ensures Valid() && Snapshot() == EMPTY_TABLES
    {
      calls, callbacks, attempts, messages, events := map[], map[], map[], map[], [];
      nextCallId, nextCallbackId := 1, 1;
    }

    function Snapshot(): Tables
      reads this
    {
      Tables(calls, callbacks, attempts, messages, events, nextCallId, nextCallbackId)
    }

    /** Undo everything since begun, except that identity columns never go back. */
    method Rollback(begun: Tables)
      modifies this
      ensures Snapshot() == begun.(nextCallId := old(nextCallId), nextCallbackId := old(nextCallbackId))
    {
      calls, callbacks, attempts, messages, events :=
        begun.calls, begun.callbacks, begun.attempts, begun.messages, begun.events;
    }

    ghost predicate Valid()
      reads this
    {
      && (forall k :: k in callbacks ==> callbacks[k].id == k < nextCallbackId)
      && (forall j, k :: j in callbacks && k in callbacks && j != k ==>
            !ScheduledBy(callbacks[j], callbacks[k].sourceCallId, callbacks[k].scheduledAt))
    }
  }

  class CallRepository {
    const db: Database

    constructor (db: Database)
      ensures this.db == db
    {
      this.db := db;
    }

    /** Only the columns that are given are overwritten on a conflict. */
    method UpsertBySarvamCallId(sarvamCallId: string, w: CallWrites) returns (call: Call)
      modifies db`calls, db`nextCallId
      ensures db.Snapshot() == UpsertCall(old(db.Snapshot()), sarvamCallId, w)
      ensures sarvamCallId in db.calls && call == db.calls[sarvamCallId]
      ensures w.callbackId.Keep? ==>
                call.callbackId ==
                  if sarvamCallId in old(db.calls) then old(db.calls)[sarvamCallId].callbackId else None
    {
      if sarvamCallId in db.calls {
        call := db.calls[sarvamCallId];
      } else {
        call := Call(db.nextCallId, w.leadId, None, w.direction, w.status, None, None);
      }
      call := call.(leadId := w.leadId, direction := w.direction, status := w.status);
      if w.callbackId.Put? { call := call.(callbackId := w.callbackId.value); }
      if w.summary.Put? { call := call.(summary := w.summary.value); }
      if w.closing.Put? { call := call.(closing := w.closing.value); }
      db.calls := db.calls[sarvamCallId := call];
      db.nextCallId := db.nextCallId + 1;
    }

    method GetBySarvamCallId(sarvamCallId: string) returns (call: Option<Call>)
      ensures call == if sarvamCallId in db.calls then Some(db.calls[sarvamCallId]) else None
    {
      call := if sarvamCallId in db.calls then Some(db.calls[sarvamCallId]) else None;
    }
  }

  /** If anything is claimable, something comes first. */
  lemma {:induction false} Earliest(callbacks: map<nat, Callback>, among: set<nat>) returns (first: nat)
    requires among != {} && among <= callbacks.Keys
    ensures first in among
    ensures forall j :: j in among ==> ExecutionAt(callbacks[first]) <= ExecutionAt(callbacks[j])
    decreases |among|
  {
    var head :| head in among;
    var rest := among - {head};
    first := head;
    if rest != {} {
      var next := Earliest(callbacks, rest);
      if ExecutionAt(callbacks[next]) < ExecutionAt(callbacks[head]) {
        first := next;
      }
      forall j | j in among ensures ExecutionAt(callbacks[first]) <= ExecutionAt(callbacks[j]) {
        assert j == head || j in rest;
      }
    } else {
      forall j | j in among ensures j == head {
        assert j !in rest;
      }
    }
  }

  lemma DueMeansNextDue(callbacks: map<nat, Callback>, locked: set<nat>, now: Instant, k: nat)
    requires Claimable(callbacks, locked, now, k)
    ensures exists first :: first in callbacks && NextDue(callbacks, locked, now, first)
  {
    var among := set j | j in callbacks && Claimable(callbacks, locked, now, j);
    assert k in among;
    var first := Earliest(callbacks, among);
    assert NextDue(callbacks, locked, now, first);
  }

  class CallbackRepository {
    const db: Database

    constructor (db: Database)
      ensures this.db == db
    {
      this.db := db;
    }

    method Schedule(leadId: nat, sourceCallId: nat, scheduledAt: Instant, request: ScheduleRequest)
      returns (callback: Callback)
      requires db.Valid()
      modifies db`callbacks, db`nextCallbackId
      ensures db.Valid()
      ensures db.Snapshot() == InsertCallback(old(db.Snapshot()), leadId, sourceCallId, scheduledAt, request)
      ensures ScheduledBy(callback, sourceCallId, scheduledAt)
      ensures callback.id in db.callbacks && db.callbacks[callback.id] == callback
      ensures IsScheduled(old(db.callbacks), sourceCallId, scheduledAt) ==> db.callbacks == old(db.callbacks)
      ensures !IsScheduled(old(db.callbacks), sourceCallId, scheduledAt) ==>
                && callback.id !in old(db.callbacks) && db.callbacks == old(db.callbacks)[callback.id := callback]
                && callback.leadId == leadId && callback.requestedExpression == request.requestedExpression
                && callback.timezone == request.timezone && callback.reason == request.reason
                && Unattempted(callback)
    {
      var inserted := !IsScheduled(db.callbacks, sourceCallId, scheduledAt);
      if inserted {
        callback := Callback(db.nextCallbackId, leadId, sourceCallId, request.requestedExpression,
                             scheduledAt, request.timezone, request.reason,
                             PENDING, 0, None, None, None, None);
        db.callbacks := db.callbacks[callback.id := callback];
      } else {
        var k :| k in db.callbacks && ScheduledBy(db.callbacks[k], sourceCallId, scheduledAt);
        callback := db.callbacks[k];
      }
      db.nextCallbackId := db.nextCallbackId + 1;
    }

    /** locked holds the rows other open transactions have locked; SKIP LOCKED passes over them. */
    method ClaimDue(now: Instant, locked: set<nat>) returns (claimed: Option<Callback>)
      requires db.Valid()
      modifies db`callbacks
      ensures db.Valid()
      ensures claimed.None? ==>
                db.callbacks == old(db.callbacks) && forall k :: !Claimable(db.callbacks, locked, now, k)
      ensures claimed.Some? ==>
                var k := claimed.value.id;
                && NextDue(old(db.callbacks), locked, now, k)
                && claimed.value == ClaimedRow(old(db.callbacks)[k], now)
                && db.callbacks == old(db.callbacks)[k := claimed.value]
    {
      if k :| k in db.callbacks && NextDue(db.callbacks, locked, now, k) {
        var callback := db.callbacks[k];
        callback := callback.(status := IN_PROGRESS);
        callback := callback.(claimedAt := Some(now));
        callback := callback.(attemptCount := callback.attemptCount + 1);
        db.callbacks := db.callbacks[k := callback];
        claimed := Some(callback);
      } else {
        forall k ensures !Claimable(db.callbacks, locked, now, k) {
          if Claimable(db.callbacks, locked, now, k) {
            DueMeansNextDue(db.callbacks, locked, now, k);
          }
        }
        claimed := None;
      }
    }

    method MarkFailed(id: nat, error: string, nextAttemptAt: Option<Instant>)
      requires db.Valid() && id in db.callbacks
      modifies db`callbacks
      ensures db.Valid()
      ensures db.callbacks == old(db.callbacks)[id := FailedRow(old(db.callbacks)[id], error, nextAttemptAt)]
    {
      var callback := db.callbacks[id];
      if nextAttemptAt.Some? {
        callback := callback.(status := PENDING);
      } else {
        callback := callback.(status := CallbackStatus.FAILED);
      }
      callback := callback.(lastError := Some(error), nextAttemptAt := nextAttemptAt, claimedAt := None);
      db.callbacks := db.callbacks[id := callback];
    }

    method MarkDialled(id: nat)
      requires db.Valid() && id in db.callbacks
      modifies db`callbacks
      ensures db.Valid()
      ensures db.callbacks == old(db.callbacks)[id := DialledRow(old(db.callbacks)[id])]
    {
      var callback := db.callbacks[id];
      callback := callback.(status := IN_PROGRESS, lastError := None, nextAttemptAt := None, claimedAt := None);
      db.callbacks := db.callbacks[id := callback];
    }

    /** UPDATE .. WHERE id = callback_id AND status = IN_PROGRESS .. RETURNING. */
    method MarkCompleted(id: nat, now: Instant) returns (completed: Option<Callback>)
      requires db.Valid()
      modifies db`callbacks
      ensures db.Valid()
      ensures completed.Some? <==> Completable(old(db.callbacks), id)
      ensures completed.Some? ==> completed.value == CompletedRow(old(db.callbacks)[id], now)
      ensures db.callbacks == if completed.Some? then old(db.callbacks)[id := completed.value] else old(db.callbacks)
    {
      completed := None;
      if id in db.callbacks && db.callbacks[id].status == IN_PROGRESS {
        var callback := db.callbacks[id];
        callback := callback.(status := COMPLETED, completedAt := Some(now), lastError := None,
                              nextAttemptAt := None, claimedAt := None);
        db.callbacks := db.callbacks[id := callback];
        completed := Some(callback);
      }
    }
  }

  class CallbackAttemptRepository {
    const db: Database

    constructor (db: Database)
      ensures this.db == db
    {
      this.db := db;
    }

    /** The unique key (callback_id, attempt_number) rejects a second row. */
    method Record(key: AttemptKey, attempt: Attempt) returns (recorded: bool)
      modifies db`attempts
      ensures recorded <==> key !in old(db.attempts)
      ensures db.attempts == if recorded then old(db.attempts)[key := attempt] else old(db.attempts)
    {
      recorded := key !in db.attempts;
      if recorded {
        db.attempts := db.attempts[key := attempt];
      }
    }
  }

  class AuditEventRepository {
    const db: Database

    constructor (db: Database)
      ensures this.db == db
    {
      this.db := db;
    }

    method Append(event: Event)
      modifies db`events
      ensures db.events == old(db.events) + [event]
    {
      db.events := db.events + [event];
    }
  }

  class MessageRepository {
    const db: Database

    constructor (db: Database)
      ensures this.db == db
    {
      this.db := db;
    }

    /** The insert, or the conditional update that re-claims a FAILED row. */
    method Reserve(leadId: nat, key: MessageKey) returns (message: Option<Message>)
      modifies db`messages
      ensures message.None? <==> Refuses(old(db.messages), key)
      ensures message.None? ==> db.messages == old(db.messages)
      ensures message.Some? ==>
                && message.value == ReservedRow(old(db.messages), leadId, key)
                && db.messages == old(db.messages)[key := message.value]
    {
      if key !in db.messages {
        message := Some(Message(leadId, key, RESERVED, 1, None, None, None));
        db.messages := db.messages[key := message.value];
      } else if db.messages[key].status == MessageStatus.FAILED {
        var row := db.messages[key];
        row := row.(status := RESERVED, attemptCount := row.attemptCount + 1, lastError := None);
        db.messages := db.messages[key := row];
        message := Some(row);
      } else {
        message := None;
      }
    }

    method MarkSent(key: MessageKey, providerMessageId: string, now: Instant)
      requires key in db.messages
      modifies db`messages
      ensures db.messages ==
                old(db.messages)[key := SettledRow(old(db.messages)[key], Delivered(providerMessageId), now)]
    {
      var row := db.messages[key];
      row := row.(status := SENT, providerMessageId := Some(providerMessageId), lastError := None, sentAt := Some(now));
      db.messages := db.messages[key := row];
    }

    method MarkFailed(key: MessageKey, error: string)
      requires key in db.messages
      modifies db`messages
      ensures db.messages ==
                old(db.messages)[key := old(db.messages)[key].(status := MessageStatus.FAILED,
                                                               lastError := Some(error))]
    {
      var row := db.messages[key];
      row := row.(status := MessageStatus.FAILED);
      row := row.(lastError := Some(error));
      db.messages := db.messages[key := row];
    }
  }
}
