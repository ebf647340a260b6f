/** What holds over every run: any number of workers, requests, deliveries and
    crashes, interleaved in any order. */
module Runs {
  import opened Schema
  import opened EventLog
  import opened Transactions
  import opened Protocol
  import opened CallbackInvariant
  import opened CallbackProtocol
  import opened MessageProtocol

  ghost predicate Inv(s: State) {
    CallbackInv(s) && MessageInv(s)
  }

  lemma {:induction false} ContinuationKeepsInv(start: State, states: seq<State>, actions: seq<Action>, i: nat)
    requires RunFrom(start, states, actions) && i < |states| && Inv(start)
    ensures Inv(states[i])
  {
    if i > 0 {
      ContinuationKeepsInv(start, states, actions, i - 1);
      assert Steps(states, actions, i - 1);
      StepKeepsCallbackInv(states[i - 1], actions[i - 1]);
      StepKeepsMessageInv(states[i - 1], actions[i - 1]);
    }
  }

  lemma RunKeepsInv(states: seq<State>, actions: seq<Action>, i: nat)
    requires Run(states, actions) && i < |states|
    ensures Inv(states[i])
  {
    StartHasTablesInv();
    ContinuationKeepsInv(START, states, actions, i);
  }

  /** The parts of Inv, so that a proof names only the ones it needs. */
  lemma TablesAt(states: seq<State>, actions: seq<Action>, i: nat)
    requires Run(states, actions) && i < |states|
    ensures RowsInv(states[i].t) && LinksInv(states[i].t)
  {
    RunKeepsInv(states, actions, i);
  }

  lemma RowAt(states: seq<State>, actions: seq<Action>, i: nat, k: nat)
    requires Run(states, actions) && i < |states| && k in states[i].t.callbacks
    ensures states[i].t.callbacks[k].id == k && RowInv(states[i].t.attempts, states[i].t.callbacks[k])
    ensures LogAgrees(states[i].t, k)
    ensures Spaced(ClaimsOf(states[i], k), states[i].t.callbacks[k])
    ensures WasPlaced(states[i].t.callbacks[k]) ==> exists id :: LinksTo(states[i].t.calls, id, k)
  {
    RunKeepsInv(states, actions, i);
  }

  lemma LinkAt(states: seq<State>, actions: seq<Action>, i: nat, id: string, k: nat)
    requires Run(states, actions) && i < |states| && LinksTo(states[i].t.calls, id, k)
    ensures LinkInv(states[i].t, id, k)
  {
    RunKeepsInv(states, actions, i);
  }

  lemma OwnersAt(states: seq<State>, actions: seq<Action>, i: nat)
    requires Run(states, actions) && i < |states|
    ensures OwnersInv(states[i]) && LocksInv(states[i])
  {
    RunKeepsInv(states, actions, i);
  }

  lemma SendersAt(states: seq<State>, actions: seq<Action>, i: nat, key: MessageKey)
    requires Run(states, actions) && i < |states|
    ensures SendersInv(states[i]) && LineAgrees(states[i], key)
  {
    RunKeepsInv(states, actions, i);
  }

  lemma LineIsNeverBroken(states: seq<State>, actions: seq<Action>, i: nat, key: MessageKey)
    requires Run(states, actions) && i < |states|
    ensures LineOf(states[i].provider, key) != Broken
  {
    SendersAt(states, actions, i, key);
  }

  /** What a worker commits at step i, of a row that is the committed one. */
  lemma ClaimAt(states: seq<State>, actions: seq<Action>, i: nat)
    requires Run(states, actions) && i < |actions| && actions[i].CommitClaim?
    ensures var t, pc := states[i].t, PcAt(states, actions, i);
            LockIsCurrent(t, pc) && states[i + 1].t == ClaimTx(t, pc.row, pc.now)
  {
    assert Steps(states, actions, i);
    OwnersAt(states, actions, i);
  }

  lemma RecordAt(states: seq<State>, actions: seq<Action>, i: nat)
    requires Run(states, actions) && i < |actions| && actions[i].RecordDial?
    ensures var t, pc := states[i].t, PcAt(states, actions, i);
            ClaimIsCurrent(t, pc) && states[i + 1].t == RecordTx(t, pc.row, pc.now, pc.result)
  {
    assert Steps(states, actions, i);
    OwnersAt(states, actions, i);
  }

  // --------------------------------------------------------------- attempts

  /** Attempts are numbered without a gap up to the last recorded dial, every attempt a
      later claim followed was refused and retryable, and only the last attempt of a
      callback nobody has claimed can have been placed. */
  lemma AttemptsAreNumbered(states: seq<State>, actions: seq<Action>, i: nat, k: nat)
    requires Run(states, actions) && i < |states| && k in states[i].t.callbacks
    ensures var row, attempts := states[i].t.callbacks[k], states[i].t.attempts;
            var last := if row.claimedAt.None? then row.attemptCount else row.attemptCount - 1;
            && (forall n: nat :: AttemptKey(k, n) in attempts <==> 1 <= n <= last)
            && (forall n: nat :: 1 <= n < row.attemptCount ==>
                  && AttemptKey(k, n) in attempts
                  && attempts[AttemptKey(k, n)].status == AttemptStatus.FAILED && attempts[AttemptKey(k, n)].retryable)
            && (forall n: nat :: AttemptKey(k, n) in attempts && attempts[AttemptKey(k, n)].status == PLACED ==>
                  n == last && row.claimedAt.None?)
  {
    RowAt(states, actions, i, k);
    var s := states[i];
    forall n: nat | 1 <= n < s.t.callbacks[k].attemptCount
      ensures RetriedAt(s.t.attempts, AttemptKey(k, n)) {}
  }

  /** The last recorded attempt decides the status of a callback nobody has claimed. */
  lemma LastAttemptDecidesStatus(states: seq<State>, actions: seq<Action>, i: nat, k: nat)
    requires Run(states, actions) && i < |states| && k in states[i].t.callbacks
    requires states[i].t.callbacks[k].claimedAt.None? && states[i].t.callbacks[k].attemptCount > 0
    ensures var row := states[i].t.callbacks[k];
            var key := AttemptKey(k, row.attemptCount);
            && key in states[i].t.attempts
            && var last := states[i].t.attempts[key];
            && (row.status in {IN_PROGRESS, COMPLETED} <==> last.status == PLACED)
            && (row.status == PENDING <==> last.status == AttemptStatus.FAILED && last.retryable)
            && (row.status == CallbackStatus.FAILED <==> last.status == AttemptStatus.FAILED && !last.retryable)
            && row.lastError == last.error
  {
    RowAt(states, actions, i, k);
  }

  /** CANCELLED is never written, and a callback leaves PENDING only by being attempted. */
  lemma UnattemptedIsPending(states: seq<State>, actions: seq<Action>, i: nat, k: nat)
    requires Run(states, actions) && i < |states| && k in states[i].t.callbacks
    ensures states[i].t.callbacks[k].status != CANCELLED
    ensures states[i].t.callbacks[k].attemptCount == 0 ==>
              states[i].t.callbacks[k].status == PENDING && states[i].t.callbacks[k].claimedAt.None?
  {
    RowAt(states, actions, i, k);
  }

  // -------------------------------------------------------------- ownership

  /** A claimed callback has one owner, live or crashed, whose copy is the committed
      row, and no call row links to it. */
  lemma ClaimHasOneOwner(states: seq<State>, actions: seq<Action>, i: nat, k: nat)
    requires Run(states, actions) && i < |states| && k in states[i].t.callbacks
    ensures var s := states[i];
            && (s.t.callbacks[k].claimedAt.Some? <==> exists a :: Owns(s, a, k))
            && (forall a :: Owns(s, a, k) ==> s.actors[a].pc.row == s.t.callbacks[k])
            && (forall a, b :: Owns(s, a, k) && Owns(s, b, k) ==> a == b)
            && (s.t.callbacks[k].claimedAt.Some? ==> forall id :: !LinksTo(s.t.calls, id, k))
  {
    OwnersAt(states, actions, i);
    var s := states[i];
    forall a | Owns(s, a, k) ensures s.actors[a].pc.row == s.t.callbacks[k] && s.t.callbacks[k].claimedAt.Some? {
      assert ClaimIsCurrent(s.t, s.actors[a].pc);
    }
    forall id | LinksTo(s.t.calls, id, k) ensures s.t.callbacks[k].claimedAt.None? {
      LinkAt(states, actions, i, id, k);
    }
  }

  /** The row in a worker's session is the committed one whenever it writes, so the
      unconditional column writes of the claim and of the result overwrite nothing;
      and recording the result never violates the unique key of the attempts. */
  lemma WorkerWritesLoseNothing(states: seq<State>, actions: seq<Action>, i: nat, a: nat)
    requires Run(states, actions) && i < |states| && Running(states[i], a)
    ensures var s, pc := states[i], states[i].actors[a].pc;
            && (pc.Claiming? ==> Enabled(s, CommitClaim(a, "")) && s.t.callbacks[pc.row.id] == pc.row)
            && (pc.Dialled? ==> Enabled(s, RecordDial(a)) && s.t.callbacks[pc.row.id] == pc.row)
  {
    OwnersAt(states, actions, i);
    var s, pc := states[i], states[i].actors[a].pc;
    if pc.Claiming? {
      assert LockIsCurrent(s.t, pc);
    } else if pc.Dialled? {
      assert ClaimIsCurrent(s.t, pc);
      RowAt(states, actions, i, pc.row.id);
      HeldKeyIsFree(s.t.attempts, pc.row);
    }
  }

  // -------------------------------------------------------------- lifecycle

  lemma AdvancesAt(states: seq<State>, actions: seq<Action>, i: nat)
    requires Run(states, actions) && i < |actions|
    ensures Advances(states[i].t.callbacks, states[i + 1].t.callbacks)
  {
    TablesAt(states, actions, i);
    OwnersAt(states, actions, i);
    assert Steps(states, actions, i);
    StepAdvances(states[i], actions[i]);
  }

  lemma SettledHasNoEdge(attempts: map<AttemptKey, Attempt>, a: Callback, b: Callback)
    requires Agrees(attempts, a) && Edge(a, b) && a.status in {COMPLETED, CallbackStatus.FAILED}
    ensures a == b
  {
  }

  lemma SettledSurvives(states: seq<State>, actions: seq<Action>, i: nat, k: nat)
    requires Run(states, actions) && i < |actions| && k in states[i].t.callbacks
    requires states[i].t.callbacks[k].status in {COMPLETED, CallbackStatus.FAILED}
    ensures k in states[i + 1].t.callbacks && states[i + 1].t.callbacks[k] == states[i].t.callbacks[k]
  {
    RowAt(states, actions, i, k);
    AdvancesAt(states, actions, i);
    SettledHasNoEdge(states[i].t.attempts, states[i].t.callbacks[k], states[i + 1].t.callbacks[k]);
  }

  /** COMPLETED and FAILED are absorbing: not one column of such a row ever changes. */
  lemma {:induction false} SettledCallbackIsFinal(states: seq<State>, actions: seq<Action>, i: nat, j: nat, k: nat)
    requires Run(states, actions) && i <= j < |states| && k in states[i].t.callbacks
    requires states[i].t.callbacks[k].status in {COMPLETED, CallbackStatus.FAILED}
    ensures k in states[j].t.callbacks && states[j].t.callbacks[k] == states[i].t.callbacks[k]
  {
    if i < j {
      SettledCallbackIsFinal(states, actions, i, j - 1, k);
      SettledSurvives(states, actions, j - 1, k);
    }
  }

  lemma RequestsKeepClaimed(s: State, action: Action, k: nat)
    requires LinksInv(s.t) && s.t.nextCallbackId !in s.t.callbacks
    requires k in s.t.callbacks && PhaseOf(s.t.callbacks[k]) == Claimed
    requires Enabled(s, action) && !action.CommitClaim? && !action.RecordDial?
    ensures k in Apply(s, action).t.callbacks && Apply(s, action).t.callbacks[k] == s.t.callbacks[k]
  {
    match action
    case Schedule(request) => ScheduleAdvances(s.t, request);
    case CompleteCall(a, now) => CompleteAdvances(s.t, s.actors[a].pc.completion, s.actors[a].pc.seen, now);
    case _ => OthersLeaveCallbacks(s, action);
  }

  lemma WorkersKeepClaimed(s: State, action: Action, a: nat, k: nat)
    requires OwnersInv(s) && LocksInv(s) && Owns(s, a, k) && !s.actors[a].alive
    requires Enabled(s, action) && (action.CommitClaim? || action.RecordDial?)
    ensures k in s.t.callbacks && k in Apply(s, action).t.callbacks
    ensures Apply(s, action).t.callbacks[k] == s.t.callbacks[k]
  {
    var b := action.actor;
    var pc := s.actors[b].pc;
    assert ClaimIsCurrent(s.t, s.actors[a].pc);
    if action.CommitClaim? {
      assert LockIsCurrent(s.t, pc);
    } else {
      assert ClaimIsCurrent(s.t, pc) && Owns(s, b, pc.row.id);
      RecordAdvances(s.t, pc.row, pc.now, pc.result);
    }
  }

  /** Only its running actor changes an entry of the actor table. */
  lemma DeadActorStays(s: State, action: Action, a: nat)
    requires Enabled(s, action) && a in s.actors && !s.actors[a].alive
    ensures a in Apply(s, action).actors && Apply(s, action).actors[a] == s.actors[a]
  {
  }

  lemma DeadClaimStep(states: seq<State>, actions: seq<Action>, i: nat, a: nat, k: nat)
    requires Run(states, actions) && i < |actions| && Owns(states[i], a, k) && !states[i].actors[a].alive
    ensures k in states[i].t.callbacks && k in states[i + 1].t.callbacks
    ensures states[i + 1].t.callbacks[k] == states[i].t.callbacks[k]
    ensures a in states[i + 1].actors && states[i + 1].actors[a] == states[i].actors[a]
  {
    var s, action := states[i], actions[i];
    assert Steps(states, actions, i);
    DeadActorStays(s, action, a);
    OwnersAt(states, actions, i);
    if action.CommitClaim? || action.RecordDial? {
      WorkersKeepClaimed(s, action, a, k);
    } else {
      assert ClaimIsCurrent(s.t, s.actors[a].pc);
      TablesAt(states, actions, i);
      RequestsKeepClaimed(s, action, k);
    }
  }

  /** A worker that crashes between its two commits leaves the callback claimed for good:
      it is never dialled, completed or released again. */
  lemma {:induction false} CrashedClaimIsFrozen(states: seq<State>, actions: seq<Action>,
                                                i: nat, j: nat, a: nat, k: nat)
    requires Run(states, actions) && i <= j < |states|
    requires Owns(states[i], a, k) && !states[i].actors[a].alive
    ensures k in states[i].t.callbacks && k in states[j].t.callbacks
    ensures states[j].t.callbacks[k] == states[i].t.callbacks[k] && states[i].t.callbacks[k].claimedAt.Some?
    ensures a in states[j].actors && states[j].actors[a] == states[i].actors[a]
  {
    if i == j {
      OwnersAt(states, actions, i);
      assert ClaimIsCurrent(states[i].t, states[i].actors[a].pc);
    } else {
      CrashedClaimIsFrozen(states, actions, i, j - 1, a, k);
      DeadClaimStep(states, actions, j - 1, a, k);
    }
  }

  lemma RequestSurvives(states: seq<State>, actions: seq<Action>, i: nat, k: nat)
    requires Run(states, actions) && i < |actions| && k in states[i].t.callbacks
    ensures k in states[i + 1].t.callbacks && SameRequest(states[i].t.callbacks[k], states[i + 1].t.callbacks[k])
    ensures states[i].t.callbacks[k].attemptCount <= states[i + 1].t.callbacks[k].attemptCount
  {
    AdvancesAt(states, actions, i);
    assert Edge(states[i].t.callbacks[k], states[i + 1].t.callbacks[k]);
  }

  /** What was asked for never changes, and the attempts are never counted down. */
  lemma {:induction false} RequestNeverChanges(states: seq<State>, actions: seq<Action>, i: nat, j: nat, k: nat)
    requires Run(states, actions) && i <= j < |states| && k in states[i].t.callbacks
    ensures k in states[j].t.callbacks && SameRequest(states[i].t.callbacks[k], states[j].t.callbacks[k])
    ensures states[i].t.callbacks[k].attemptCount <= states[j].t.callbacks[k].attemptCount
  {
    if i < j {
      RequestNeverChanges(states, actions, i, j - 1, k);
      RequestSurvives(states, actions, j - 1, k);
    }
  }

  // ------------------------------------------------------------ placed once

  /** Actor a's dial of callback k was placed: it is recorded, or a still has to record it. */
  predicate Reached(s: State, a: nat, pc: Pc, k: nat)
    requires pc.Dialled?
  {
    || (a in s.actors && s.actors[a].pc == pc)
    || (k in s.t.callbacks && WasPlaced(s.t.callbacks[k]) && s.t.callbacks[k].attemptCount == pc.row.attemptCount)
  }

  /** A callback whose dial was placed cannot be claimed. */
  lemma ReachedIsUnclaimable(s: State, a: nat, pc: Pc, k: nat)
    requires OwnersInv(s) && LocksInv(s) && HasClaim(pc, k) && pc.Dialled? && Reached(s, a, pc, k)
    ensures k in s.t.callbacks && !Due(s.t.callbacks[k], pc.now)
    ensures s.t.callbacks[k].attemptCount == pc.row.attemptCount
    ensures forall b :: !Locks(s, b, k)
    ensures forall b :: Owns(s, b, k) ==> b == a && s.actors[b].pc == pc
  {
    if a in s.actors && s.actors[a].pc == pc {
      assert ClaimIsCurrent(s.t, pc) && Owns(s, a, k);
    }
    forall b | Running(s, b) && s.actors[b].pc.Claiming? ensures s.actors[b].pc.row.id != k {
      assert LockIsCurrent(s.t, s.actors[b].pc);
    }
    forall b | Owns(s, b, k) ensures b == a && s.actors[b].pc == pc {
      assert ClaimIsCurrent(s.t, s.actors[b].pc);
    }
  }

  /** Only its own record ends a dial that has returned. */
  lemma DialledActorStays(s: State, action: Action, a: nat)
    requires Enabled(s, action) && a in s.actors && s.actors[a].pc.Dialled? && action != RecordDial(a)
    ensures a in Apply(s, action).actors && Apply(s, action).actors[a].pc == s.actors[a].pc
  {
  }

  lemma OnlyCommitClaims(s: State, action: Action, k: nat)
    requires Enabled(s, action)
    requires action.CommitClaim? ==> s.actors[action.actor].pc.row.id != k
    ensures ClaimsOf(Apply(s, action), k) == ClaimsOf(s, k)
  {
  }

  lemma ReachedSurvives(states: seq<State>, actions: seq<Action>, i: nat, a: nat, pc: Pc, k: nat)
    requires Run(states, actions) && i < |actions|
    requires HasClaim(pc, k) && pc.Dialled? && Placed(pc.result) && Reached(states[i], a, pc, k)
    ensures Reached(states[i + 1], a, pc, k)
    ensures ClaimsOf(states[i + 1], k) == ClaimsOf(states[i], k)
  {
    var s, action := states[i], actions[i];
    OwnersAt(states, actions, i);
    ReachedIsUnclaimable(s, a, pc, k);
    assert Steps(states, actions, i);
    if action.CommitClaim? {
      assert !Locks(s, action.actor, k);
    }
    OnlyCommitClaims(s, action, k);
    if a in s.actors && s.actors[a].pc == pc {
      if action != RecordDial(a) { DialledActorStays(s, action, a); }
    } else {
      AdvancesAt(states, actions, i);
      assert Edge(s.t.callbacks[k], states[i + 1].t.callbacks[k]);
    }
  }

  /** Once a dial of callback k has returned a placed result, k is never claimed or dialled
      again, whether or not the result is ever recorded. */
  lemma {:induction false} PlacedDialIsLast(states: seq<State>, actions: seq<Action>, i: nat, j: nat, a: nat, k: nat)
    requires Run(states, actions) && i <= j < |states| && Owns(states[i], a, k)
    requires states[i].actors[a].pc.Dialled? && Placed(states[i].actors[a].pc.result)
    ensures ClaimsOf(states[j], k) == ClaimsOf(states[i], k)
    ensures Reached(states[j], a, states[i].actors[a].pc, k)
    ensures forall b :: !Locks(states[j], b, k)
    ensures forall b :: Owns(states[j], b, k) ==> b == a && states[j].actors[a].pc == states[i].actors[a].pc
  {
    var pc := states[i].actors[a].pc;
    if i < j {
      PlacedDialIsLast(states, actions, i, j - 1, a, k);
      ReachedSurvives(states, actions, j - 1, a, pc, k);
    }
    OwnersAt(states, actions, j);
    ReachedIsUnclaimable(states[j], a, pc, k);
  }

  // ------------------------------------------------------------------ links

  /** One call per callback, one callback per call, and only for a placed dial. */
  lemma LinkIsOneToOne(states: seq<State>, actions: seq<Action>, i: nat, x: string, y: string, k: nat)
    requires Run(states, actions) && i < |states|
    requires LinksTo(states[i].t.calls, x, k) && LinksTo(states[i].t.calls, y, k)
    ensures x == y
    ensures var t := states[i].t;
            && k in t.callbacks && t.callbacks[k].claimedAt.None? && t.callbacks[k].status in {IN_PROGRESS, COMPLETED}
            && AttemptKey(k, t.callbacks[k].attemptCount) in t.attempts
            && t.attempts[AttemptKey(k, t.callbacks[k].attemptCount)].status == PLACED
            && t.attempts[AttemptKey(k, t.callbacks[k].attemptCount)].callId == Some(t.calls[x].id)
  {
    LinkAt(states, actions, i, x, k);
    LinkAt(states, actions, i, y, k);
    RowAt(states, actions, i, k);
    TablesAt(states, actions, i);
  }

  lemma OthersKeepLinks(s: State, action: Action, id: string)
    requires Enabled(s, action) && !action.RecordDial? && id in s.t.calls
    ensures id in Apply(s, action).t.calls
    ensures Apply(s, action).t.calls[id].callbackId == s.t.calls[id].callbackId
  {
  }

  lemma StepKeepsLink(s: State, action: Action, id: string, k: nat)
    requires LinksInv(s.t) && OwnersInv(s) && Enabled(s, action) && LinksTo(s.t.calls, id, k)
    ensures LinksTo(Apply(s, action).t.calls, id, k)
  {
    if action.RecordDial? {
      var pc := s.actors[action.actor].pc;
      assert ClaimIsCurrent(s.t, pc);
      if Placed(pc.result) { MintedIdIsUnlinked(s.t, pc.row, pc.sarvamCallId); }
    } else {
      OthersKeepLinks(s, action, id);
    }
  }

  lemma LinkSurvives(states: seq<State>, actions: seq<Action>, i: nat, id: string, k: nat)
    requires Run(states, actions) && i < |actions| && LinksTo(states[i].t.calls, id, k)
    ensures LinksTo(states[i + 1].t.calls, id, k)
  {
    TablesAt(states, actions, i);
    OwnersAt(states, actions, i);
    assert Steps(states, actions, i);
    StepKeepsLink(states[i], actions[i], id, k);
  }

  /** No later upsert, from any tool, erases or changes a link. */
  lemma {:induction false} LinkIsPermanent(states: seq<State>, actions: seq<Action>, i: nat, j: nat, id: string, k: nat)
    requires Run(states, actions) && i <= j < |states| && LinksTo(states[i].t.calls, id, k)
    ensures LinksTo(states[j].t.calls, id, k)
  {
    if i < j {
      LinkIsPermanent(states, actions, i, j - 1, id, k);
      LinkSurvives(states, actions, j - 1, id, k);
    }
  }

  lemma OnlyRecordLinks(s: State, action: Action, id: string, k: nat)
    requires Enabled(s, action)
    requires LinksTo(Apply(s, action).t.calls, id, k) && !LinksTo(s.t.calls, id, k)
    ensures action.RecordDial?
    ensures var pc := s.actors[action.actor].pc;
            Placed(pc.result) && pc.result.callId.value == id && pc.row.id == k
  {
  }

  /** A link appears in the transaction that records the PLACED attempt, and in no other. */
  lemma LinkAppearsWithPlacedAttempt(states: seq<State>, actions: seq<Action>, i: nat, id: string, k: nat)
    requires Run(states, actions) && i < |actions|
    requires LinksTo(states[i + 1].t.calls, id, k) && !LinksTo(states[i].t.calls, id, k)
    ensures actions[i].RecordDial? && Owns(states[i], actions[i].actor, k)
    ensures k in states[i].t.callbacks
    ensures var key := AttemptKey(k, states[i].t.callbacks[k].attemptCount);
            key !in states[i].t.attempts && key in states[i + 1].t.attempts
            && states[i + 1].t.attempts[key].status == PLACED
            && states[i + 1].t.attempts[key].callId == Some(states[i + 1].t.calls[id].id)
  {
    assert Steps(states, actions, i);
    OnlyRecordLinks(states[i], actions[i], id, k);
    var pc := states[i].actors[actions[i].actor].pc;
    OwnersAt(states, actions, i);
    assert ClaimIsCurrent(states[i].t, pc);
  }

  // ---------------------------------------------------------- retry spacing

  lemma {:induction false} SpacedBound(claims: seq<Instant>, row: Callback, n: nat)
    requires Spaced(claims, row) && n < |claims|
    ensures claims[n] >= row.scheduledAt + n * RETRY_DELAY
  {
    if n > 0 {
      SpacedBound(claims, row, n - 1);
    }
  }

  lemma {:induction false} ClaimsApart(claims: seq<Instant>, row: Callback, m: nat, n: nat)
    requires Spaced(claims, row) && m <= n < |claims|
    ensures claims[n] >= claims[m] + (n - m) * RETRY_DELAY
  {
    if m < n {
      ClaimsApart(claims, row, m, n - 1);
    }
  }

  /** Claim n + 1 is never earlier than scheduled_at + n * RETRY_DELAY, whatever the workers'
      clocks say, and two claims of a callback are at least RETRY_DELAY apart; so the attempts
      are bounded by the time elapsed. */
  lemma RetriesAreSpaced(states: seq<State>, actions: seq<Action>, i: nat, k: nat)
    requires Run(states, actions) && i < |states| && k in states[i].t.callbacks
    ensures var row, claims := states[i].t.callbacks[k], ClaimsOf(states[i], k);
            && |claims| == row.attemptCount
            && (forall n :: 0 <= n < |claims| ==> claims[n] >= row.scheduledAt + n * RETRY_DELAY)
            && (forall m, n :: 0 <= m <= n < |claims| ==> claims[n] >= claims[m] + (n - m) * RETRY_DELAY)
            && (|claims| > 0 ==> row.attemptCount <= 1 + (claims[|claims| - 1] - row.scheduledAt) / RETRY_DELAY)
  {
    RowAt(states, actions, i, k);
    var row, claims := states[i].t.callbacks[k], ClaimsOf(states[i], k);
    forall n | 0 <= n < |claims| ensures claims[n] >= row.scheduledAt + n * RETRY_DELAY {
      SpacedBound(claims, row, n);
    }
    forall m, n | 0 <= m <= n < |claims| ensures claims[n] >= claims[m] + (n - m) * RETRY_DELAY {
      ClaimsApart(claims, row, m, n);
    }
  }

  /** Committed claims are never taken back. */
  lemma {:induction false} ClaimsOnlyGrow(states: seq<State>, actions: seq<Action>, i: nat, j: nat, k: nat)
    requires Run(states, actions) && i <= j < |states|
    ensures ClaimsOf(states[i], k) <= ClaimsOf(states[j], k)
  {
    if i < j {
      ClaimsOnlyGrow(states, actions, i, j - 1, k);
      assert Steps(states, actions, j - 1);
      ClaimsStep(states[j - 1], actions[j - 1], k);
    }
  }

  lemma ClaimsStep(s: State, action: Action, k: nat)
    requires Enabled(s, action)
    ensures ClaimsOf(Apply(s, action), k)
         == if action.CommitClaim? && s.actors[action.actor].pc.row.id == k
            then ClaimsOf(s, k) + [s.actors[action.actor].pc.now] else ClaimsOf(s, k)
  {
  }

  lemma ClaimAppends(states: seq<State>, actions: seq<Action>, m: nat)
    requires Run(states, actions) && m < |actions| && actions[m].CommitClaim?
    ensures var pc := PcAt(states, actions, m);
            && ClaimsOf(states[m + 1], pc.row.id) == ClaimsOf(states[m], pc.row.id) + [pc.now]
            && pc.row.id in states[m + 1].t.callbacks
            && Spaced(ClaimsOf(states[m + 1], pc.row.id), states[m + 1].t.callbacks[pc.row.id])
  {
    ClaimAt(states, actions, m);
    assert Steps(states, actions, m);
    ClaimsStep(states[m], actions[m], PcAt(states, actions, m).row.id);
    RowAt(states, actions, m + 1, PcAt(states, actions, m).row.id);
  }

  /** Whichever workers commit them and whatever is scheduled meanwhile, two claims of one
      callback are made at instants at least RETRY_DELAY apart; so a window shorter than that
      holds at most one. */
  lemma ClaimsKeepDistance(states: seq<State>, actions: seq<Action>, m: nat, n: nat)
    requires Run(states, actions) && m < n < |actions| && actions[m].CommitClaim? && actions[n].CommitClaim?
    requires PcAt(states, actions, m).row.id == PcAt(states, actions, n).row.id
    ensures PcAt(states, actions, n).now >= PcAt(states, actions, m).now + RETRY_DELAY
  {
    var k := PcAt(states, actions, m).row.id;
    ClaimAppends(states, actions, m);
    ClaimAppends(states, actions, n);
    ClaimsOnlyGrow(states, actions, m + 1, n, k);
    var claims, p := ClaimsOf(states[n + 1], k), |ClaimsOf(states[m], k)|;
    assert claims[p] == ClaimsOf(states[n], k)[p] == ClaimsOf(states[m + 1], k)[p];
    ClaimsApart(claims, states[n + 1].t.callbacks[k], p, |claims| - 1);
  }

  // ------------------------------------------------------------- audit log

  ghost function UpTo(n: nat): (numbers: set<nat>)
    ensures |numbers| == n
    ensures forall x :: x in numbers <==> 1 <= x <= n
  {
    if n == 0 then {} else UpTo(n - 1) + {n}
  }

  /** The numbers of the attempt rows of one callback. */
  function AttemptNumbers(t: Tables, k: nat): set<nat> {
    set key | key in t.attempts && key.callbackId == k :: key.number
  }

  lemma AttemptsCounted(t: Tables, row: Callback)
    requires RowInv(t.attempts, row)
    ensures |AttemptNumbers(t, row.id)| == Settled(row)
  {
    var all := UpTo(Settled(row));
    forall n: nat ensures n in AttemptNumbers(t, row.id) <==> n in all {
      assert AttemptKey(row.id, n) in t.attempts <==> 1 <= n <= Settled(row);
      if n in all {
        assert AttemptKey(row.id, n).number in AttemptNumbers(t, row.id);
      }
    }
    assert AttemptNumbers(t, row.id) == all;
  }

  /** The audit log of a callback conserves its attempts, however often its requests
      and completions are replayed. */
  lemma CallbackLogConserves(states: seq<State>, actions: seq<Action>, i: nat, k: nat)
    requires Run(states, actions) && i < |states| && k in states[i].t.callbacks
    ensures var t := states[i].t;
            var tally := TallyOf(t.events, k);
            && tally.scheduled >= 1
            && tally.attempted == t.callbacks[k].attemptCount
            && tally.triggered + tally.failed == |AttemptNumbers(t, k)|
            && tally.triggered == (if exists id :: LinksTo(t.calls, id, k) then 1 else 0)
            && tally.completed == (if t.callbacks[k].status == COMPLETED then 1 else 0)
  {
    var t := states[i].t;
    RowAt(states, actions, i, k);
    AttemptsCounted(t, t.callbacks[k]);
    if id :| LinksTo(t.calls, id, k) {
      LinkAt(states, actions, i, id, k);
    }
  }

  // ------------------------------------------------------------- scheduling

  /** A replayed schedule finds the same callback whatever became of it, and changes no
      column of any callback: it cannot reopen one or dial it again. */
  lemma ScheduleReplayIsIdempotent(states: seq<State>, actions: seq<Action>, i: nat, request: ScheduleRequest, k: nat)
    requires Run(states, actions) && i < |states| && k in states[i].t.callbacks
    requires request.sarvamCallId in states[i].t.calls
    requires states[i].t.calls[request.sarvamCallId].id == states[i].t.callbacks[k].sourceCallId
    requires request.callbackTime == Some(states[i].t.callbacks[k].scheduledAt)
    ensures var u := ScheduleTx(states[i].t, request);
            && u.callbacks == states[i].t.callbacks
            && u.events == states[i].t.events
                 + [Event(request.leadId, states[i].t.callbacks[k].sourceCallId, CALLBACK_SCHEDULED, OfCallback(k))]
  {
    TablesAt(states, actions, i);
    var t := states[i].t;
    assert ScheduledBy(t.callbacks[k], t.callbacks[k].sourceCallId, t.callbacks[k].scheduledAt);
  }

  /** Two callbacks never share a source call and an instant. */
  lemma ScheduleIsUnique(states: seq<State>, actions: seq<Action>, i: nat, j: nat, k: nat)
    requires Run(states, actions) && i < |states| && j in states[i].t.callbacks && k in states[i].t.callbacks
    requires states[i].t.callbacks[j].sourceCallId == states[i].t.callbacks[k].sourceCallId
    requires states[i].t.callbacks[j].scheduledAt == states[i].t.callbacks[k].scheduledAt
    ensures j == k
  {
    TablesAt(states, actions, i);
    assert ScheduledBy(states[i].t.callbacks[j], states[i].t.callbacks[k].sourceCallId,
                       states[i].t.callbacks[k].scheduledAt);
  }

  // ------------------------------------------------------------- completion

  /** complete_call closes exactly the callback its call row links to when it writes,
      whatever it read before. */
  lemma CompletionClosesLinked(states: seq<State>, actions: seq<Action>, i: nat, k: nat)
    requires Run(states, actions) && i < |actions| && actions[i].CompleteCall? && k in states[i].t.callbacks
    ensures var id := PcAt(states, actions, i).completion.sarvamCallId;
            && k in states[i + 1].t.callbacks
            && (states[i + 1].t.callbacks[k].status == COMPLETED
                <==> states[i].t.callbacks[k].status == COMPLETED || LinksTo(states[i].t.calls, id, k))
  {
    var id := PcAt(states, actions, i).completion.sarvamCallId;
    if LinksTo(states[i].t.calls, id, k) {
      LinkAt(states, actions, i, id, k);
    }
    assert Steps(states, actions, i);
  }

  /** The action writes the completion of this call. */
  predicate Completes(s: State, action: Action, id: string) {
    && action.CompleteCall? && Running(s, action.actor)
    && s.actors[action.actor].pc.Completing? && s.actors[action.actor].pc.completion.sarvamCallId == id
  }

  /** A completion of this call was written between states i and j. */
  predicate CompletedBetween(states: seq<State>, actions: seq<Action>, i: nat, j: nat, id: string)
    requires j <= |actions| <= |states|
  {
    i < j && (CompletedBetween(states, actions, i, j - 1, id) || Completes(states[j - 1], actions[j - 1], id))
  }

  lemma OnlyCompletionCompletes(s: State, action: Action, k: nat)
    requires Enabled(s, action) && !action.CompleteCall?
    requires k in s.t.callbacks && s.t.callbacks[k].status != COMPLETED
    ensures k in Apply(s, action).t.callbacks && Apply(s, action).t.callbacks[k].status != COMPLETED
  {
  }

  /** One action on a linked callback: it is completed by a completion of its call alone. */
  lemma LinkedStep(states: seq<State>, actions: seq<Action>, i: nat, id: string, k: nat)
    requires Run(states, actions) && i < |actions| && LinksTo(states[i].t.calls, id, k)
    ensures k in states[i].t.callbacks && k in states[i + 1].t.callbacks
    ensures states[i + 1].t.callbacks[k].status == COMPLETED
       <==> states[i].t.callbacks[k].status == COMPLETED || Completes(states[i], actions[i], id)
  {
    LinkAt(states, actions, i, id, k);
    assert Steps(states, actions, i);
    if states[i].t.callbacks[k].status == COMPLETED {
      SettledSurvives(states, actions, i, k);
    } else if actions[i].CompleteCall? {
      CompletionClosesLinked(states, actions, i, k);
      var other := PcAt(states, actions, i).completion.sarvamCallId;
      if LinksTo(states[i].t.calls, other, k) {
        LinkIsOneToOne(states, actions, i, id, other, k);
      }
    } else {
      OnlyCompletionCompletes(states[i], actions[i], k);
    }
  }

  lemma LinkedLater(states: seq<State>, actions: seq<Action>, i: nat, j: nat, id: string, k: nat)
    requires Run(states, actions) && i <= j < |actions| && LinksTo(states[i].t.calls, id, k)
    ensures k in states[j].t.callbacks && k in states[j + 1].t.callbacks
    ensures states[j + 1].t.callbacks[k].status == COMPLETED
       <==> states[j].t.callbacks[k].status == COMPLETED || Completes(states[j], actions[j], id)
  {
    LinkIsPermanent(states, actions, i, j, id, k);
    LinkedStep(states, actions, j, id, k);
  }

  /** From the moment its call is linked, a callback is COMPLETED exactly when it was then or
      a completion of that call has been written since. */
  lemma {:induction false} CompletedSinceLinked(states: seq<State>, actions: seq<Action>,
                                                i: nat, j: nat, id: string, k: nat)
    requires Run(states, actions) && i <= j < |states| && LinksTo(states[i].t.calls, id, k)
    ensures k in states[i].t.callbacks && k in states[j].t.callbacks
    ensures states[j].t.callbacks[k].status == COMPLETED
       <==> states[i].t.callbacks[k].status == COMPLETED || CompletedBetween(states, actions, i, j, id)
  {
    if i == j {
      LinkAt(states, actions, i, id, k);
    } else {
      CompletedSinceLinked(states, actions, i, j - 1, id, k);
      LinkedLater(states, actions, i, j - 1, id, k);
    }
  }

  lemma RecordLinks(states: seq<State>, actions: seq<Action>, i: nat)
    requires Run(states, actions) && i < |actions| && actions[i].RecordDial?
    requires Placed(PcAt(states, actions, i).result)
    ensures var pc := PcAt(states, actions, i);
            && LinksTo(states[i + 1].t.calls, pc.sarvamCallId, pc.row.id)
            && pc.row.id in states[i + 1].t.callbacks
            && states[i + 1].t.callbacks[pc.row.id].status == IN_PROGRESS
  {
    RecordAt(states, actions, i);
  }

  /** A completion that is written before the worker records the dial is lost: however many
      there were, the callback is IN_PROGRESS once the dial is recorded, and from then on it
      is COMPLETED exactly when the completion has been written again. */
  lemma EarlyCompletionIsLost(states: seq<State>, actions: seq<Action>, i: nat, j: nat)
    requires Run(states, actions) && i < j < |states| && actions[i].RecordDial?
    requires Placed(PcAt(states, actions, i).result)
    ensures var k, id := PcAt(states, actions, i).row.id, PcAt(states, actions, i).sarvamCallId;
            && k in states[i + 1].t.callbacks && states[i + 1].t.callbacks[k].status == IN_PROGRESS
            && k in states[j].t.callbacks
            && (states[j].t.callbacks[k].status == COMPLETED
                <==> CompletedBetween(states, actions, i + 1, j, id))
  {
    var pc := PcAt(states, actions, i);
    RecordLinks(states, actions, i);
    CompletedSinceLinked(states, actions, i + 1, j, pc.sarvamCallId, pc.row.id);
  }

  // --------------------------------------------------------------- messages

  /** What one message's delivery looks like in the database and to the provider. */
  lemma LogDeterminesMessage(states: seq<State>, actions: seq<Action>, i: nat, key: MessageKey)
    requires Run(states, actions) && i < |states|
    ensures var t := states[i].t;
            && (Replay(t.events, key).Some? <==> key in t.messages)
            && (key in t.messages ==>
                  var row := t.messages[key];
                  var logged := DeliveriesOf(t.events, key);
                  && Replay(t.events, key) ==
                       Some(Delivery(row.status, row.attemptCount, row.providerMessageId, row.lastError))
                  && logged.requested == row.attemptCount
                  && logged.sent == (if row.status == SENT then 1 else 0)
                  && logged.sent + logged.failed == row.attemptCount - (if row.status == RESERVED then 1 else 0)
                  && (row.sentAt.Some? <==> row.status == SENT)
                  && (row.providerMessageId.Some? <==> row.status == SENT)
                  && (row.lastError.Some? <==> row.status == MessageStatus.FAILED))
  {
    RunKeepsInv(states, actions, i);
    assert ReplayAgrees(states[i].t, key);
  }

  lemma {:induction false} BrokenStays(provider: seq<ProviderEvent>, key: MessageKey, n: nat)
    requires n <= |provider| && LineOf(provider, key) != Broken
    ensures LineOf(provider[..n], key) != Broken
    decreases |provider| - n
  {
    if n == |provider| {
      assert provider[..n] == provider;
    } else {
      BrokenStays(provider, key, n + 1);
      LineAppend(provider[..n], provider[n], key);
      assert provider[..n + 1] == provider[..n] + [provider[n]];
    }
  }

  lemma {:induction false} NothingAfterDelivery(provider: seq<ProviderEvent>, key: MessageKey, p: nat, n: nat)
    requires LineOf(provider, key) != Broken && p < n <= |provider|
    requires provider[p].Answered? && provider[p].key == key && provider[p].outcome.Delivered?
    ensures LineOf(provider[..n], key) == Succeeded
    ensures forall q :: p < q < n ==> provider[q].key != key
  {
    BrokenStays(provider, key, n);
    assert provider[..n] == provider[..n - 1] + [provider[n - 1]];
    LineAppend(provider[..n - 1], provider[n - 1], key);
    if n - 1 > p {
      NothingAfterDelivery(provider, key, p, n - 1);
    }
  }

  /** Once the provider has returned a result for a (call, kind) it is never called for
      it again, so at most one send ever returns a result. */
  lemma DeliveredAtMostOnce(states: seq<State>, actions: seq<Action>, i: nat, key: MessageKey, p: nat)
    requires Run(states, actions) && i < |states| && p < |states[i].provider|
    requires states[i].provider[p].Answered? && states[i].provider[p].key == key
             && states[i].provider[p].outcome.Delivered?
    ensures forall q :: p < q < |states[i].provider| ==> states[i].provider[q].key != key
    ensures key in states[i].t.messages && states[i].t.messages[key].status in {SENT, RESERVED}
  {
    var s := states[i];
    LineIsNeverBroken(states, actions, i, key);
    SendersAt(states, actions, i, key);
    NothingAfterDelivery(s.provider, key, p, |s.provider|);
    assert s.provider[..|s.provider|] == s.provider;
  }

  lemma SentSurvives(states: seq<State>, actions: seq<Action>, i: nat, key: MessageKey)
    requires Run(states, actions) && i < |actions| && IsSent(states[i].t.messages, key)
    ensures key in states[i + 1].t.messages && states[i + 1].t.messages[key] == states[i].t.messages[key]
  {
    var s := states[i];
    SendersAt(states, actions, i, key);
    assert Steps(states, actions, i);
    if LeavesMessages(actions[i]) {
      OthersLeaveMessages(s, actions[i]);
    } else if actions[i].RecordSend? {
      assert Sends(s, actions[i].actor, s.actors[actions[i].actor].pc.key);
    }
  }

  /** A SENT message is final: whatever deliveries, follow-ups and crashes come after it,
      no column of its row ever changes. */
  lemma {:induction false} SentMessageIsFinal(states: seq<State>, actions: seq<Action>, i: nat, j: nat, key: MessageKey)
    requires Run(states, actions) && i <= j < |states| && IsSent(states[i].t.messages, key)
    ensures key in states[j].t.messages && states[j].t.messages[key] == states[i].t.messages[key]
  {
    if i < j {
      SentMessageIsFinal(states, actions, i, j - 1, key);
      SentSurvives(states, actions, j - 1, key);
    }
  }

  lemma {:induction false} AnswerBetween(provider: seq<ProviderEvent>, key: MessageKey, p: nat, n: nat)
    requires LineOf(provider, key) != Broken && p < n <= |provider|
    requires provider[p] == Called(key)
    ensures LineOf(provider[..n], key) == Calling
         || exists m :: p < m < n && provider[m].Answered? && provider[m].key == key
  {
    BrokenStays(provider, key, n);
    assert provider[..n] == provider[..n - 1] + [provider[n - 1]];
    LineAppend(provider[..n - 1], provider[n - 1], key);
    if n - 1 > p {
      AnswerBetween(provider, key, p, n - 1);
      if provider[n - 1].Answered? && provider[n - 1].key == key {
        assert p < n - 1 < n;
      }
    }
  }

  lemma AnswerBeforeCallIsError(provider: seq<ProviderEvent>, key: MessageKey, m: nat, q: nat)
    requires LineOf(provider, key) != Broken && m < q < |provider|
    requires provider[m].Answered? && provider[m].key == key && provider[q].key == key
    ensures !provider[m].outcome.Delivered?
  {
    if provider[m].outcome.Delivered? {
      NothingAfterDelivery(provider, key, m, |provider|);
    }
  }

  /** Two sends of one message never overlap: between two calls of the provider for it
      there is an answer, and that answer is an error. */
  lemma SendsNeverOverlap(states: seq<State>, actions: seq<Action>, i: nat, key: MessageKey, p: nat, q: nat)
    requires Run(states, actions) && i < |states| && p < q < |states[i].provider|
    requires states[i].provider[p] == Called(key) && states[i].provider[q] == Called(key)
    ensures exists m :: p < m < q && states[i].provider[m].Answered? && states[i].provider[m].key == key
                        && !states[i].provider[m].outcome.Delivered?
  {
    var s := states[i];
    LineIsNeverBroken(states, actions, i, key);
    BrokenStays(s.provider, key, q + 1);
    assert s.provider[..q + 1] == s.provider[..q] + [s.provider[q]];
    LineAppend(s.provider[..q], s.provider[q], key);
    AnswerBetween(s.provider, key, p, q);
    var m :| p < m < q && s.provider[m].Answered? && s.provider[m].key == key;
    AnswerBeforeCallIsError(s.provider, key, m, q);
  }

  /** No running actor sends the message whose sender has crashed. */
  lemma OthersSendOther(s: State, a: nat, key: MessageKey, b: nat)
    requires SendersInv(s) && Sends(s, a, key) && !s.actors[a].alive && Running(s, b) && Sender(s.actors[b].pc)
    ensures s.actors[b].pc.key != key
  {
    assert Sends(s, b, s.actors[b].pc.key);
  }

  lemma StuckRowStays(s: State, action: Action, a: nat, key: MessageKey)
    requires SendersInv(s) && Enabled(s, action) && Sends(s, a, key) && !s.actors[a].alive
    ensures IsReserved(s.t.messages, key)
    ensures key in Apply(s, action).t.messages && Apply(s, action).t.messages[key] == s.t.messages[key]
  {
    if LeavesMessages(action) {
      OthersLeaveMessages(s, action);
    } else if action.RecordSend? {
      OthersSendOther(s, a, key, action.actor);
    }
  }

  lemma StuckLineStays(s: State, action: Action, a: nat, key: MessageKey)
    requires SendersInv(s) && Enabled(s, action) && Sends(s, a, key) && !s.actors[a].alive
    ensures LineOf(Apply(s, action).provider, key) == LineOf(s.provider, key)
  {
    if LeavesMessages(action) {
      OthersLeaveMessages(s, action);
    } else if action.Reserve? {
      LineAppend(s.provider, Called(action.key), key);
    } else if action.SendReturns? {
      OthersSendOther(s, a, key, action.actor);
      LineAppend(s.provider, Answered(s.actors[action.actor].pc.key, action.outcome), key);
    }
  }

  /** A sender that crashes leaves its row RESERVED for good: nothing sends it again. */
  lemma {:induction false} CrashedSendIsStuck(states: seq<State>, actions: seq<Action>,
                                              i: nat, j: nat, a: nat, key: MessageKey)
    requires Run(states, actions) && i <= j < |states|
    requires Sends(states[i], a, key) && !states[i].actors[a].alive
    ensures a in states[j].actors && states[j].actors[a] == states[i].actors[a]
    ensures IsReserved(states[i].t.messages, key) && key in states[j].t.messages
    ensures states[j].t.messages[key] == states[i].t.messages[key]
    ensures LineOf(states[j].provider, key) == LineOf(states[i].provider, key)
  {
    if i == j {
      SendersAt(states, actions, i, key);
    } else {
      CrashedSendIsStuck(states, actions, i, j - 1, a, key);
      SendersAt(states, actions, j - 1, key);
      assert Steps(states, actions, j - 1);
      DeadActorStays(states[j - 1], actions[j - 1], a);
      StuckRowStays(states[j - 1], actions[j - 1], a, key);
      StuckLineStays(states[j - 1], actions[j - 1], a, key);
    }
  }
}
