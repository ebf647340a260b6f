/** Where every column comes from: over every run each row holds what a request, the
    provider or a clock put there, told without the transactions that wrote it. */
module Provenance {
  import opened Schema
  import opened CallIds
  import opened Transactions
  import opened Protocol
  import opened CallbackInvariant
  import opened MessageProtocol
  import opened Runs

  // -------------------------------------------------------------- requests

  /** The action schedules this instant from the call with this id, which it has just written. */
  predicate Schedules(action: Action, after: State, sourceCallId: nat, at: Instant) {
    && action.Schedule? && action.schedule.callbackTime == Some(at)
    && action.schedule.sarvamCallId in after.t.calls
    && after.t.calls[action.schedule.sarvamCallId].id == sourceCallId
  }

  lemma OnlyScheduleInserts(s: State, action: Action, k: nat)
    requires RowsInv(s.t) && Enabled(s, action) && k !in s.t.callbacks && k in Apply(s, action).t.callbacks
    ensures var row := Apply(s, action).t.callbacks[k];
            && Schedules(action, Apply(s, action), row.sourceCallId, row.scheduledAt)
            && AsksFor(action.schedule, row) && Unattempted(row)
            && !IsScheduled(s.t.callbacks, row.sourceCallId, row.scheduledAt)
  {
  }

  lemma ScheduleLeavesRow(s: State, action: Action, sourceCallId: nat, at: Instant)
    requires Enabled(s, action) && Schedules(action, Apply(s, action), sourceCallId, at)
    ensures IsScheduled(Apply(s, action).t.callbacks, sourceCallId, at)
    ensures Apply(s, action).t.nextCallbackId == s.t.nextCallbackId + 1
  {
  }

  /** The step that inserted a callback: it carries the columns of that request. */
  lemma {:induction false} InsertedBy(states: seq<State>, actions: seq<Action>, i: nat, k: nat) returns (m: nat)
    requires Run(states, actions) && i < |states| && k in states[i].t.callbacks
    ensures m < i && k !in states[m].t.callbacks && k in states[m + 1].t.callbacks
    ensures var row := states[m + 1].t.callbacks[k];
            && Schedules(actions[m], states[m + 1], row.sourceCallId, row.scheduledAt)
            && AsksFor(actions[m].schedule, row) && Unattempted(row)
  {
    m := i - 1;
    assert Steps(states, actions, m);
    if k in states[m].t.callbacks {
      m := InsertedBy(states, actions, i - 1, k);
    } else {
      TablesAt(states, actions, m);
      OnlyScheduleInserts(states[m], actions[m], k);
    }
  }

  lemma EarlierRequestElsewhere(states: seq<State>, actions: seq<Action>, n: nat, m: nat, k: nat, row: Callback)
    requires Run(states, actions) && n < m < |actions| && k !in states[m].t.callbacks && k in states[m + 1].t.callbacks
    requires row == states[m + 1].t.callbacks[k]
    ensures !Schedules(actions[n], states[n + 1], row.sourceCallId, row.scheduledAt)
  {
    if Schedules(actions[n], states[n + 1], row.sourceCallId, row.scheduledAt) {
      assert Steps(states, actions, n);
      ScheduleLeavesRow(states[n], actions[n], row.sourceCallId, row.scheduledAt);
      var j :| j in states[n + 1].t.callbacks
               && ScheduledBy(states[n + 1].t.callbacks[j], row.sourceCallId, row.scheduledAt);
      RequestNeverChanges(states, actions, n + 1, m, j);
      RequestNeverChanges(states, actions, n + 1, m + 1, j);
      ScheduleIsUnique(states, actions, m + 1, j, k);
    }
  }

  /** Every callback carries the lead, wording, zone and reason of the first request for its
      source call and instant, however often that was asked for again and whatever became of
      it since. */
  lemma CallbackIsAsRequested(states: seq<State>, actions: seq<Action>, i: nat, k: nat) returns (m: nat)
    requires Run(states, actions) && i < |states| && k in states[i].t.callbacks
    ensures var row := states[i].t.callbacks[k];
            && m < i && Schedules(actions[m], states[m + 1], row.sourceCallId, row.scheduledAt)
            && AsksFor(actions[m].schedule, row)
            && forall n :: 0 <= n < m ==> !Schedules(actions[n], states[n + 1], row.sourceCallId, row.scheduledAt)
  {
    m := InsertedBy(states, actions, i, k);
    RequestNeverChanges(states, actions, m + 1, i, k);
    forall n | 0 <= n < m
      ensures !Schedules(actions[n], states[n + 1], states[i].t.callbacks[k].sourceCallId,
                         states[i].t.callbacks[k].scheduledAt)
    {
      EarlierRequestElsewhere(states, actions, n, m, k, states[m + 1].t.callbacks[k]);
    }
  }

  // ------------------------------------------------------------------ dials

  predicate Recorded(action: Action, a: nat) {
    action.RecordDial? && action.actor == a
  }

  lemma {:induction false} DialStays(states: seq<State>, actions: seq<Action>, m: nat, n: nat, a: nat)
    requires Run(states, actions) && m < n < |states| && actions[m].DialReturns? && actions[m].actor == a
    requires forall x :: m < x < n ==> !Recorded(actions[x], a)
    ensures a in states[n].actors && states[n].actors[a].pc.Dialled?
    ensures a in states[m].actors && states[m].actors[a].pc.Dialling?
    ensures var before, pc := states[m].actors[a].pc, states[n].actors[a].pc;
            && pc.row == before.row && pc.now == before.now && pc.sarvamCallId == before.sarvamCallId
            && pc.result == PlaceCall(pc.sarvamCallId, actions[m].response)
  {
    assert Steps(states, actions, n - 1);
    if m + 1 < n {
      DialStays(states, actions, m, n - 1, a);
      DialledActorStays(states[n - 1], actions[n - 1], a);
    } else {
      assert Steps(states, actions, m);
    }
  }

  /** The row, the attempt and the call after a dial the provider took. */
  predicate LeavesDialled(t: Tables, mine: Callback, sarvamCallId: string, response: DialResponse)
    requires response.Http?
  {
    && mine.id in t.callbacks && sarvamCallId in t.calls
    && t.callbacks[mine.id] == mine.(lastError := None, nextAttemptAt := None, claimedAt := None)
    && var key, call := AttemptKey(mine.id, mine.attemptCount), t.calls[sarvamCallId];
       && key in t.attempts
       && t.attempts[key] == Attempt(PLACED, Some(call.id), response.attemptId, None, false)
       && call.callbackId == Some(mine.id) && call.leadId == mine.leadId
       && call.direction == CALLBACK && call.status == "active"
  }

  /** .. and after one it did not take: to be tried again at this instant, or never. */
  ghost predicate LeavesRefused(t: Tables, mine: Callback, response: DialResponse, retryAt: Option<Instant>) {
    && mine.id in t.callbacks
    && var row, key := t.callbacks[mine.id], AttemptKey(mine.id, mine.attemptCount);
       && row.lastError.Some? && FailsWith(response, row.lastError.value)
       && row == mine.(status := if retryAt.Some? then PENDING else CallbackStatus.FAILED,
                       lastError := row.lastError, nextAttemptAt := retryAt, claimedAt := None)
       && key in t.attempts
       && t.attempts[key] == Attempt(AttemptStatus.FAILED, None, None, row.lastError, retryAt.Some?)
  }

  lemma RecordFollows(t: Tables, mine: Callback, now: Instant, id: string, response: DialResponse)
    requires Holds(t, mine) && Held(mine) && id != "" && (id in t.calls ==> t.calls[id].callbackId.None?)
    ensures var u := RecordTx(t, mine, now, PlaceCall(id, response));
            if Taken(response) then LeavesDialled(u, mine, id, response)
            else LeavesRefused(u, mine, response, if TryAgain(response) then Some(now + 5 * 60 * 1_000_000) else None)
  {
    PlaceCallAnswers(id, response);
  }

  lemma MintedIsGiven(id: string, k: nat)
    requires MintedFor(id, k)
    ensures id != ""
  {
    var nonce :| id == MintedId(k, nonce);
    assert id[0] == 'c';
  }

  lemma RecordIsReady(states: seq<State>, actions: seq<Action>, n: nat)
    requires Run(states, actions) && n < |actions| && actions[n].RecordDial?
    ensures var t, pc := states[n].t, PcAt(states, actions, n);
            && Holds(t, pc.row) && Held(pc.row) && pc.row.claimedAt == Some(pc.now)
            && pc.sarvamCallId != "" && (pc.sarvamCallId in t.calls ==> t.calls[pc.sarvamCallId].callbackId.None?)
            && states[n + 1].t == RecordTx(t, pc.row, pc.now, pc.result)
  {
    var pc := PcAt(states, actions, n);
    RecordAt(states, actions, n);
    TablesAt(states, actions, n);
    MintedIdIsUnlinked(states[n].t, pc.row, pc.sarvamCallId);
    MintedIsGiven(pc.sarvamCallId, pc.row.id);
  }

  /** A dial leaves its callback dialled exactly when the provider took the call, waiting for a
      retry five minutes after its tick began exactly when that is worth it, and FAILED
      otherwise, with the provider's attempt id or the error recorded in the attempt. */
  lemma DialFollowsResponse(states: seq<State>, actions: seq<Action>, m: nat, n: nat, a: nat)
    requires Run(states, actions) && m < n < |actions|
    requires actions[m].DialReturns? && actions[m].actor == a && Recorded(actions[n], a)
    requires forall x :: m < x < n ==> !Recorded(actions[x], a)
    ensures var pc, response, u := PcAt(states, actions, n), actions[m].response, states[n + 1].t;
            var mine, id := pc.row, pc.sarvamCallId;
            && mine.claimedAt == Some(pc.now)
            && if Taken(response) then LeavesDialled(u, mine, id, response)
               else LeavesRefused(u, mine, response,
                                  if TryAgain(response) then Some(mine.claimedAt.value + 5 * 60 * 1_000_000) else None)
  {
    var pc := PcAt(states, actions, n);
    DialStays(states, actions, m, n, a);
    RecordIsReady(states, actions, n);
    RecordFollows(states[n].t, pc.row, pc.now, pc.sarvamCallId, actions[m].response);
  }

  // ------------------------------------------------------------ completions

  lemma InsertIsNotCompletion(states: seq<State>, actions: seq<Action>, i: nat, k: nat)
    requires Run(states, actions) && 0 < i < |states| && k !in states[i - 1].t.callbacks && k in states[i].t.callbacks
    ensures states[i].t.callbacks[k].status == PENDING
  {
    assert Steps(states, actions, i - 1);
    TablesAt(states, actions, i - 1);
    OnlyScheduleInserts(states[i - 1], actions[i - 1], k);
  }

  lemma CloseStores(t: Tables, request: CompletionRequest, seen: Option<CallDirection>, now: Instant, k: nat)
    requires LinksTo(t.calls, request.sarvamCallId, k) && k in t.callbacks && t.callbacks[k].status == IN_PROGRESS
    requires t.callbacks[k].lastError.None? && t.callbacks[k].nextAttemptAt.None? && t.callbacks[k].claimedAt.None?
    ensures var u := CompleteCallTx(t, request, seen, now);
            k in u.callbacks && u.callbacks[k] == t.callbacks[k].(status := COMPLETED, completedAt := Some(now))
  {
  }

  lemma LinkedIsInCall(states: seq<State>, actions: seq<Action>, m: nat, id: string, k: nat)
    requires Run(states, actions) && m < |states| && LinksTo(states[m].t.calls, id, k)
    ensures k in states[m].t.callbacks
    ensures var row := states[m].t.callbacks[k];
            && row.status in {IN_PROGRESS, COMPLETED}
            && row.lastError.None? && row.nextAttemptAt.None? && row.claimedAt.None?
  {
    LinkAt(states, actions, m, id, k);
    RowAt(states, actions, m, k);
  }

  lemma ClosesRow(states: seq<State>, actions: seq<Action>, m: nat, k: nat)
    requires Run(states, actions) && m < |actions| && actions[m].CompleteCall? && k in states[m].t.callbacks
    requires states[m].t.callbacks[k].status != COMPLETED
    requires k in states[m + 1].t.callbacks && states[m + 1].t.callbacks[k].status == COMPLETED
    ensures LinksTo(states[m].t.calls, PcAt(states, actions, m).completion.sarvamCallId, k)
    ensures states[m].t.callbacks[k].status == IN_PROGRESS
    ensures states[m + 1].t.callbacks[k]
         == states[m].t.callbacks[k].(status := COMPLETED, completedAt := Some(actions[m].now))
  {
    var pc := PcAt(states, actions, m);
    assert Steps(states, actions, m);
    CompletionClosesLinked(states, actions, m, k);
    LinkedIsInCall(states, actions, m, pc.completion.sarvamCallId, k);
    CloseStores(states[m].t, pc.completion, pc.seen, actions[m].now, k);
  }

  lemma OnlyCompletionCloses(states: seq<State>, actions: seq<Action>, m: nat, k: nat)
    requires Run(states, actions) && m < |actions| && k in states[m + 1].t.callbacks
    requires states[m + 1].t.callbacks[k].status == COMPLETED
    requires k in states[m].t.callbacks ==> states[m].t.callbacks[k].status != COMPLETED
    ensures k in states[m].t.callbacks && actions[m].CompleteCall?
  {
    assert Steps(states, actions, m);
    if k !in states[m].t.callbacks {
      InsertIsNotCompletion(states, actions, m + 1, k);
    } else if !actions[m].CompleteCall? {
      OnlyCompletionCompletes(states[m], actions[m], k);
    }
  }

  /** The step that completed a callback: a completion of the call that links to it, whose
      clock the row carries. */
  lemma {:induction false} CompletedBy(states: seq<State>, actions: seq<Action>, i: nat, k: nat) returns (m: nat)
    requires Run(states, actions) && i < |states|
    requires k in states[i].t.callbacks && states[i].t.callbacks[k].status == COMPLETED
    ensures m < i && actions[m].CompleteCall?
    ensures LinksTo(states[m].t.calls, PcAt(states, actions, m).completion.sarvamCallId, k)
    ensures k in states[m].t.callbacks && states[m].t.callbacks[k].status == IN_PROGRESS
    ensures states[i].t.callbacks[k]
         == states[m].t.callbacks[k].(status := COMPLETED, completedAt := Some(actions[m].now))
  {
    m := i - 1;
    if k in states[m].t.callbacks && states[m].t.callbacks[k].status == COMPLETED {
      SettledSurvives(states, actions, m, k);
      m := CompletedBy(states, actions, i - 1, k);
    } else {
      OnlyCompletionCloses(states, actions, m, k);
      ClosesRow(states, actions, m, k);
    }
  }

  /** The direction a completion writes back is the one its own read saw, at an earlier step. */
  lemma {:induction false} ReadBefore(states: seq<State>, actions: seq<Action>, n: nat, a: nat) returns (m: nat)
    requires Run(states, actions) && n < |states| && a in states[n].actors && states[n].actors[a].pc.Completing?
    ensures m < n && actions[m] == ReadCall(a, states[n].actors[a].pc.completion)
    ensures var id := states[n].actors[a].pc.completion.sarvamCallId;
            states[n].actors[a].pc.seen
              == if id in states[m].t.calls then Some(states[m].t.calls[id].direction) else None
  {
    m := n - 1;
    assert Steps(states, actions, m);
    if a in states[m].actors && states[m].actors[a].pc == states[n].actors[a].pc {
      m := ReadBefore(states, actions, m, a);
    }
  }

  lemma CompletionReadCall(states: seq<State>, actions: seq<Action>, n: nat) returns (m: nat)
    requires Run(states, actions) && n < |actions| && actions[n].CompleteCall?
    ensures m < n && actions[m] == ReadCall(actions[n].actor, PcAt(states, actions, n).completion)
    ensures var id := PcAt(states, actions, n).completion.sarvamCallId;
            PcAt(states, actions, n).seen
              == if id in states[m].t.calls then Some(states[m].t.calls[id].direction) else None
  {
    assert Steps(states, actions, n);
    m := ReadBefore(states, actions, n, actions[n].actor);
  }

  // --------------------------------------------------------------- messages

  /** How the provider last answered for this message. */
  function LastAnswer(provider: seq<ProviderEvent>, key: MessageKey): Option<SendOutcome> {
    if |provider| == 0 then None
    else
      var last := provider[|provider| - 1];
      if last.Answered? && last.key == key then Some(last.outcome)
      else LastAnswer(provider[..|provider| - 1], key)
  }

  lemma LastAnswerAppend(provider: seq<ProviderEvent>, event: ProviderEvent, key: MessageKey)
    ensures LastAnswer(provider + [event], key)
         == if event.Answered? && event.key == key then Some(event.outcome) else LastAnswer(provider, key)
  {
    assert (provider + [event])[..|provider|] == provider;
  }

  /** A row nobody is sending, and an actor that has an answer, both have the last one. */
  ghost predicate AnswerAgrees(s: State, key: MessageKey) {
    && (key in s.t.messages && s.t.messages[key].status != RESERVED ==>
          var answer := LastAnswer(s.provider, key);
          answer.Some? && RowTells(s.t.messages[key], answer.value))
    && (forall a :: Sends(s, a, key) && s.actors[a].pc.Returned? ==>
          LastAnswer(s.provider, key) == Some(s.actors[a].pc.outcome))
  }

  lemma ReserveKeepsAnswer(s: State, action: Action, key: MessageKey)
    requires SendersInv(s) && AnswerAgrees(s, key) && Enabled(s, action) && action.Reserve?
    ensures AnswerAgrees(Apply(s, action), key)
  {
    var u := Apply(s, action);
    LastAnswerAppend(s.provider, Called(action.key), key);
    forall a | Sends(u, a, key) && u.actors[a].pc.Returned?
      ensures LastAnswer(u.provider, key) == Some(u.actors[a].pc.outcome)
    {
      assert Sends(s, a, key);
    }
  }

  lemma SendReturnsKeepsAnswer(s: State, action: Action, key: MessageKey)
    requires SendersInv(s) && AnswerAgrees(s, key) && Enabled(s, action) && action.SendReturns?
    ensures AnswerAgrees(Apply(s, action), key)
  {
    var u := Apply(s, action);
    var sent := s.actors[action.actor].pc.key;
    assert Sends(s, action.actor, sent);
    LastAnswerAppend(s.provider, Answered(sent, action.outcome), key);
    forall a | Sends(u, a, key) && u.actors[a].pc.Returned?
      ensures LastAnswer(u.provider, key) == Some(u.actors[a].pc.outcome)
    {
      assert Sends(s, a, key);
    }
  }

  lemma RecordKeepsAnswer(s: State, action: Action, key: MessageKey)
    requires SendersInv(s) && AnswerAgrees(s, key) && Enabled(s, action) && action.RecordSend?
    ensures AnswerAgrees(Apply(s, action), key)
  {
    var u := Apply(s, action);
    assert Sends(s, action.actor, s.actors[action.actor].pc.key);
    forall a | Sends(u, a, key) && u.actors[a].pc.Returned?
      ensures LastAnswer(u.provider, key) == Some(u.actors[a].pc.outcome)
    {
      assert Sends(s, a, key);
    }
  }

  lemma OthersKeepAnswer(s: State, action: Action, key: MessageKey)
    requires AnswerAgrees(s, key) && Enabled(s, action) && LeavesMessages(action)
    ensures AnswerAgrees(Apply(s, action), key)
  {
    var u := Apply(s, action);
    OthersLeaveMessages(s, action);
    forall a | Sends(u, a, key) && u.actors[a].pc.Returned?
      ensures LastAnswer(u.provider, key) == Some(u.actors[a].pc.outcome)
    {
      assert Sends(s, a, key);
    }
  }

  lemma {:induction false} AnswersAgree(states: seq<State>, actions: seq<Action>, i: nat, key: MessageKey)
    requires Run(states, actions) && i < |states|
    ensures AnswerAgrees(states[i], key)
  {
    if i > 0 {
      AnswersAgree(states, actions, i - 1, key);
      SendersAt(states, actions, i - 1, key);
      assert Steps(states, actions, i - 1);
      var s, action := states[i - 1], actions[i - 1];
      if action.Reserve? {
        ReserveKeepsAnswer(s, action, key);
      } else if action.SendReturns? {
        SendReturnsKeepsAnswer(s, action, key);
      } else if action.RecordSend? {
        RecordKeepsAnswer(s, action, key);
      } else {
        OthersKeepAnswer(s, action, key);
      }
    }
  }

  /** A message row nobody is sending tells the provider's last answer for it: the id of a
      result, or the reason that goes with the failure. */
  lemma RowTellsLastAnswer(states: seq<State>, actions: seq<Action>, i: nat, key: MessageKey)
    requires Run(states, actions) && i < |states|
    requires key in states[i].t.messages && states[i].t.messages[key].status != RESERVED
    ensures LastAnswer(states[i].provider, key).Some?
    ensures RowTells(states[i].t.messages[key], LastAnswer(states[i].provider, key).value)
  {
    AnswersAgree(states, actions, i, key);
  }

  lemma MessageStep(s: State, action: Action, key: MessageKey)
    requires Enabled(s, action) && key in Apply(s, action).t.messages
    ensures var u := Apply(s, action);
            && (key !in s.t.messages ==>
                  action.Reserve? && action.key == key && u.t.messages[key].leadId == action.leadId)
            && (key in s.t.messages ==> u.t.messages[key].leadId == s.t.messages[key].leadId)
            && (key in s.t.messages && u.t.messages[key].status == SENT && u.t.messages[key] != s.t.messages[key] ==>
                  && action.RecordSend? && s.actors[action.actor].pc.key == key
                  && u.t.messages[key].sentAt == Some(action.now))
  {
    if LeavesMessages(action) {
      OthersLeaveMessages(s, action);
    }
  }

  /** A message belongs to the lead of the delivery that first reserved it. */
  lemma {:induction false} ReservedFor(states: seq<State>, actions: seq<Action>, i: nat, key: MessageKey)
    returns (m: nat)
    requires Run(states, actions) && i < |states| && key in states[i].t.messages
    ensures m < i && key !in states[m].t.messages
    ensures actions[m].Reserve? && actions[m].key == key && actions[m].leadId == states[i].t.messages[key].leadId
  {
    m := i - 1;
    assert Steps(states, actions, m);
    MessageStep(states[m], actions[m], key);
    if key in states[m].t.messages {
      m := ReservedFor(states, actions, i - 1, key);
    }
  }

  /** sent_at is the clock of the delivery that recorded the result. */
  lemma {:induction false} SentAtClock(states: seq<State>, actions: seq<Action>, i: nat, key: MessageKey)
    returns (m: nat)
    requires Run(states, actions) && i < |states| && IsSent(states[i].t.messages, key)
    ensures m < i && actions[m].RecordSend? && PcAt(states, actions, m).key == key
    ensures states[i].t.messages[key].sentAt == Some(actions[m].now)
  {
    m := i - 1;
    assert Steps(states, actions, m);
    MessageStep(states[m], actions[m], key);
    if key !in states[m].t.messages {
      LogDeterminesMessage(states, actions, i, key);
      NewIsReserved(states[m], actions[m], key);
    } else if states[m].t.messages[key] == states[i].t.messages[key] {
      m := SentAtClock(states, actions, m, key);
    }
  }

  lemma NewIsReserved(s: State, action: Action, key: MessageKey)
    requires Enabled(s, action) && key !in s.t.messages && key in Apply(s, action).t.messages
    ensures Apply(s, action).t.messages[key].status == RESERVED
  {
    if LeavesMessages(action) {
      OthersLeaveMessages(s, action);
    }
  }

  // -------------------------------------------------------------- audit log

  /** The events of one step, told from its request, its worker's row or the answer it records. */
  ghost predicate Logs(s: State, action: Action, u: State, events: seq<Event>)
    requires Enabled(s, action)
  {
    match action
    case CommitClaim(a, _) =>
      var row := s.actors[a].pc.row;
      events == [Event(row.leadId, row.sourceCallId, CALLBACK_ATTEMPTED, OfAttempt(row.id, row.attemptCount + 1))]
    case RecordDial(a) =>
      var pc := s.actors[a].pc;
      events == [Event(pc.row.leadId, pc.row.sourceCallId,
                       if Placed(pc.result) then CALLBACK_TRIGGERED else CALLBACK_FAILED,
                       OfDial(pc.row.id, pc.result.error))]
    case Schedule(request) =>
      if request.callbackTime.None? then events == []
      else
        && request.sarvamCallId in u.t.calls
        && var source := u.t.calls[request.sarvamCallId].id;
           exists k :: k in u.t.callbacks && ScheduledBy(u.t.callbacks[k], source, request.callbackTime.value)
                       && events == [Event(request.leadId, source, CALLBACK_SCHEDULED, OfCallback(k))]
    case CompleteCall(a, _) =>
      var request := s.actors[a].pc.completion;
      && request.sarvamCallId in u.t.calls
      && var call := u.t.calls[request.sarvamCallId];
         var completed := Event(request.leadId, call.id, CALL_COMPLETED, OfSarvamCall(request.sarvamCallId));
         if call.callbackId.Some? && call.callbackId.value in s.t.callbacks
            && s.t.callbacks[call.callbackId.value].status == IN_PROGRESS then
           events == [completed, Event(request.leadId, call.id, CALLBACK_COMPLETED, OfCallback(call.callbackId.value))]
         else events == [completed]
    case Reserve(_, leadId, key) =>
      if Refuses(s.t.messages, key) then events == []
      else events == [Event(leadId, key.callId, RequestedEvent(key.kind), NoPayload)]
    case RecordSend(a, _) =>
      var pc := s.actors[a].pc;
      |events| == 1 && Settles(events[0], pc.leadId, pc.key, pc.outcome)
    case _ => events == []
  }

  predicate Settles(event: Event, leadId: nat, key: MessageKey, answer: SendOutcome) {
    && event.leadId == leadId && event.callId == key.callId
    && match answer
       case Delivered(id) => event.eventType == SentEvent(key.kind) && event.payload == OfSend(id)
       case _ => event.eventType == FailedEvent(key.kind)
                 && event.payload.OfSendError? && Explains(event.payload.reason, answer)
  }

  lemma ScheduleLogs(s: State, request: ScheduleRequest)
    ensures var u := Apply(s, Schedule(request));
            && s.t.events <= u.t.events
            && Logs(s, Schedule(request), u, u.t.events[|s.t.events|..])
  {
    if request.callbackTime.Some? {
      var u := Apply(s, Schedule(request));
      var events := u.t.events[|s.t.events|..];
      assert events == [u.t.events[|s.t.events|]];
      assert events[0].payload.callbackId in u.t.callbacks;
    }
  }

  lemma CompletionLogs(s: State, a: nat, now: Instant)
    requires Enabled(s, CompleteCall(a, now))
    ensures var u := Apply(s, CompleteCall(a, now));
            && s.t.events <= u.t.events
            && Logs(s, CompleteCall(a, now), u, u.t.events[|s.t.events|..])
  {
    var u := Apply(s, CompleteCall(a, now));
    var events := u.t.events[|s.t.events|..];
    assert |events| == 1 ==> events == [u.t.events[|s.t.events|]];
    assert |events| == 2 ==> events == [u.t.events[|s.t.events|], u.t.events[|s.t.events| + 1]];
  }

  lemma OneEventLogs(s: State, action: Action)
    requires Enabled(s, action) && !action.Schedule? && !action.CompleteCall?
    ensures var u := Apply(s, action);
            && s.t.events <= u.t.events
            && Logs(s, action, u, u.t.events[|s.t.events|..])
  {
    var u := Apply(s, action);
    var events := u.t.events[|s.t.events|..];
    assert |events| == 1 ==> events == [u.t.events[|s.t.events|]];
  }

  /** Each step adds to the log exactly the events it stands for, under the lead and call of
      its request or its callback. */
  lemma LogTellsStep(states: seq<State>, actions: seq<Action>, i: nat)
    requires Run(states, actions) && i < |actions|
    ensures states[i].t.events <= states[i + 1].t.events
    ensures Steps(states, actions, i)
    ensures Logs(states[i], actions[i], states[i + 1], states[i + 1].t.events[|states[i].t.events|..])
  {
    assert Steps(states, actions, i);
    match actions[i]
    case Schedule(request) => ScheduleLogs(states[i], request);
    case CompleteCall(a, now) => CompletionLogs(states[i], a, now);
    case _ => OneEventLogs(states[i], actions[i]);
  }
}
