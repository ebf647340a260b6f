/** Ownership and retry spacing, which join the tables to the running actors, and
    that every action keeps them. */
module CallbackProtocol {
  import opened Schema
  import opened CallIds
  import opened Transactions
  import opened CallbackInvariant
  import opened Protocol

  // ------------------------------------------------------------- ownership

  /** The actor claimed callback k and has not recorded the dial. */
  predicate HasClaim(pc: Pc, k: nat) {
    (pc.Dialling? || pc.Dialled?) && pc.row.id == k
  }

  predicate Owns(s: State, a: nat, k: nat) {
    a in s.actors && HasClaim(s.actors[a].pc, k)
  }

  predicate Locks(s: State, a: nat, k: nat) {
    Running(s, a) && s.actors[a].pc.Claiming? && s.actors[a].pc.row.id == k
  }

  /** The session's copy is the committed row, so no write of it loses an update. */
  ghost predicate ClaimIsCurrent(t: Tables, pc: Pc)
    requires pc.Dialling? || pc.Dialled?
  {
    && Holds(t, pc.row) && Held(pc.row)
    && pc.row.claimedAt == Some(pc.now)
    && MintedFor(pc.sarvamCallId, pc.row.id)
    && (pc.Dialled? && Placed(pc.result) ==> pc.result.callId == Some(pc.sarvamCallId))
  }

  predicate LockIsCurrent(t: Tables, pc: Pc)
    requires pc.Claiming?
  {
    pc.row.id in t.callbacks && t.callbacks[pc.row.id] == pc.row && Due(pc.row, pc.now)
  }

  ghost predicate OwnersInv(s: State) {
    && (forall a :: a in s.actors && (s.actors[a].pc.Dialling? || s.actors[a].pc.Dialled?) ==>
          ClaimIsCurrent(s.t, s.actors[a].pc))
    && (forall a, b, k :: Owns(s, a, k) && Owns(s, b, k) ==> a == b)
    && (forall k :: k in s.t.callbacks && s.t.callbacks[k].claimedAt.Some? ==> exists a :: Owns(s, a, k))
  }

  ghost predicate LocksInv(s: State) {
    && (forall a :: Running(s, a) && s.actors[a].pc.Claiming? ==> LockIsCurrent(s.t, s.actors[a].pc))
    && (forall a, b, k :: Locks(s, a, k) && Locks(s, b, k) ==> a == b)
  }

  // ---------------------------------------------------------- retry spacing

  predicate Spaced(claims: seq<Instant>, row: Callback) {
    && |claims| == row.attemptCount
    && (|claims| > 0 ==> claims[0] >= row.scheduledAt)
    && (forall i :: 0 < i < |claims| ==> claims[i] >= claims[i - 1] + RETRY_DELAY)
    && (row.claimedAt.Some? ==> |claims| > 0 && row.claimedAt.value == claims[|claims| - 1])
    && (row.status == PENDING && |claims| > 0 ==> row.nextAttemptAt == Some(claims[|claims| - 1] + RETRY_DELAY))
    && (row.status == PENDING && |claims| == 0 ==> row.nextAttemptAt.None?)
  }

  ghost predicate SpacingInv(s: State) {
    && (forall k :: k in s.t.callbacks ==> Spaced(ClaimsOf(s, k), s.t.callbacks[k]))
    && (forall k :: k in s.claims ==> k in s.t.callbacks)
  }

  ghost predicate CallbackInv(s: State) {
    TablesInv(s.t) && OwnersInv(s) && LocksInv(s) && SpacingInv(s)
  }

  // -------------------------------------------------------- lifecycle edges

  datatype Phase = Waiting | Claimed | InCall | Done | WrittenOff

  function PhaseOf(row: Callback): Phase {
    if row.status == PENDING then Waiting
    else if row.claimedAt.Some? then Claimed
    else if row.status == IN_PROGRESS then InCall
    else if row.status == COMPLETED then Done
    else WrittenOff
  }

  /** One action either leaves a callback alone or moves it along one of these edges. */
  predicate Edge(a: Callback, b: Callback) {
    || a == b
    || (&& SameRequest(a, b)
        && match (PhaseOf(a), PhaseOf(b))
           case (Waiting, Claimed) => b.attemptCount == a.attemptCount + 1
           case (Claimed, Waiting) => b.attemptCount == a.attemptCount
           case (Claimed, InCall) => b.attemptCount == a.attemptCount
           case (Claimed, WrittenOff) => b.attemptCount == a.attemptCount
           case (InCall, Done) => b.attemptCount == a.attemptCount
           case _ => false)
  }

  /** Every row moves along an edge; new rows are waiting and unattempted. */
  ghost predicate Advances(before: map<nat, Callback>, after: map<nat, Callback>) {
    && (forall k :: k in before ==> k in after && Edge(before[k], after[k]))
    && (forall k :: k in after && k !in before ==> PhaseOf(after[k]) == Waiting && after[k].attemptCount == 0)
  }

  lemma ScheduleAdvances(t: Tables, request: ScheduleRequest)
    requires t.nextCallbackId !in t.callbacks
    ensures Advances(t.callbacks, ScheduleTx(t, request).callbacks)
    ensures forall k :: k in t.callbacks ==> ScheduleTx(t, request).callbacks[k] == t.callbacks[k]
    ensures forall k :: k in ScheduleTx(t, request).callbacks && k !in t.callbacks ==>
              var row := ScheduleTx(t, request).callbacks[k];
              row.status == PENDING && row.attemptCount == 0 && row.claimedAt.None? && row.nextAttemptAt.None?
  {
  }

  lemma CompleteAdvances(t: Tables, request: CompletionRequest, seen: Option<CallDirection>, now: Instant)
    requires LinksInv(t)
    ensures Advances(t.callbacks, CompleteCallTx(t, request, seen, now).callbacks)
    ensures CompleteCallTx(t, request, seen, now).callbacks.Keys == t.callbacks.Keys
    ensures forall k :: k in t.callbacks && PhaseOf(t.callbacks[k]) != InCall ==>
              CompleteCallTx(t, request, seen, now).callbacks[k] == t.callbacks[k]
  {
    var call := CompletedCall(t, request, seen).calls[request.sarvamCallId];
    if call.callbackId.Some? {
      assert LinkInv(t, request.sarvamCallId, call.callbackId.value);
      assert PhaseOf(t.callbacks[call.callbackId.value]) in {InCall, Done};
    }
  }

  lemma RecordAdvances(t: Tables, mine: Callback, now: Instant, result: DialResult)
    requires Holds(t, mine) && Held(mine)
    ensures Advances(t.callbacks, RecordTx(t, mine, now, result).callbacks)
    ensures var u := RecordTx(t, mine, now, result);
            && u.callbacks == t.callbacks[mine.id := u.callbacks[mine.id]]
            && u.callbacks[mine.id].claimedAt.None?
  {
  }

  lemma WorkerAdvances(s: State, action: Action)
    requires OwnersInv(s) && LocksInv(s) && Enabled(s, action) && (action.CommitClaim? || action.RecordDial?)
    ensures Advances(s.t.callbacks, Apply(s, action).t.callbacks)
  {
    var pc := s.actors[action.actor].pc;
    if action.CommitClaim? {
      assert LockIsCurrent(s.t, pc);
    } else {
      assert ClaimIsCurrent(s.t, pc);
      RecordAdvances(s.t, pc.row, pc.now, pc.result);
    }
  }

  /** The actions that do not write callbacks. */
  predicate LeavesCallbacks(action: Action) {
    !action.CommitClaim? && !action.RecordDial? && !action.Schedule? && !action.CompleteCall?
  }

  lemma OthersLeaveCallbacks(s: State, action: Action)
    requires Enabled(s, action) && LeavesCallbacks(action)
    ensures Apply(s, action).t.callbacks == s.t.callbacks
  {
  }

  lemma StepAdvances(s: State, action: Action)
    requires OwnersInv(s) && LocksInv(s) && LinksInv(s.t) && s.t.nextCallbackId !in s.t.callbacks
    requires Enabled(s, action)
    ensures Advances(s.t.callbacks, Apply(s, action).t.callbacks)
  {
    match action
    case CommitClaim(_, _) => WorkerAdvances(s, action);
    case RecordDial(_) => WorkerAdvances(s, action);
    case Schedule(request) => ScheduleAdvances(s.t, request);
    case CompleteCall(a, now) => CompleteAdvances(s.t, s.actors[a].pc.completion, s.actors[a].pc.seen, now);
    case _ => OthersLeaveCallbacks(s, action);
  }

  // ----------------------------------------------------- actions keep them

  /** Ownership and locks only look at waiting and claimed rows. */
  lemma OwnersFrame(s: State, u: State)
    requires OwnersInv(s) && LocksInv(s) && u.actors == s.actors
    requires forall k :: k in s.t.callbacks && PhaseOf(s.t.callbacks[k]) in {Waiting, Claimed} ==>
               k in u.t.callbacks && u.t.callbacks[k] == s.t.callbacks[k]
    requires forall k :: k in u.t.callbacks && u.t.callbacks[k].claimedAt.Some? ==>
               k in s.t.callbacks && s.t.callbacks[k].claimedAt.Some?
    ensures OwnersInv(u) && LocksInv(u)
  {
    forall a | a in u.actors && (u.actors[a].pc.Dialling? || u.actors[a].pc.Dialled?)
      ensures ClaimIsCurrent(u.t, u.actors[a].pc)
    {
      assert ClaimIsCurrent(s.t, s.actors[a].pc);
    }
    forall k | k in u.t.callbacks && u.t.callbacks[k].claimedAt.Some? ensures exists a :: Owns(u, a, k) {
      var a :| Owns(s, a, k);
      assert Owns(u, a, k);
    }
    forall a, b, k | Owns(u, a, k) && Owns(u, b, k) ensures a == b {
      assert Owns(s, a, k) && Owns(s, b, k);
    }
    forall a, b, k | Locks(u, a, k) && Locks(u, b, k) ensures a == b {
      assert Locks(s, a, k) && Locks(s, b, k);
    }
  }

  lemma SpacingFrame(s: State, u: State)
    requires SpacingInv(s) && u.claims == s.claims
    requires Advances(s.t.callbacks, u.t.callbacks)
    requires forall k :: k in s.t.callbacks && PhaseOf(s.t.callbacks[k]) in {Waiting, Claimed} ==>
               u.t.callbacks[k] == s.t.callbacks[k]
    requires forall k :: k in u.t.callbacks && u.t.callbacks[k].claimedAt.Some? ==>
               k in s.t.callbacks && s.t.callbacks[k].claimedAt.Some?
    requires forall k :: k in u.t.callbacks && k !in s.t.callbacks ==>
               u.t.callbacks[k].nextAttemptAt.None?
    ensures SpacingInv(u)
  {
    forall k | k in u.t.callbacks ensures Spaced(ClaimsOf(u, k), u.t.callbacks[k]) {
      if k in s.t.callbacks {
        assert Spaced(ClaimsOf(s, k), s.t.callbacks[k]);
      }
    }
  }

  /** The actor moves on without touching the tables, keeping whatever claim it has. */
  lemma MoveKeepsOwners(s: State, u: State, a: nat)
    requires OwnersInv(s) && LocksInv(s) && u.t == s.t
    requires a in u.actors && u.actors == s.actors[a := u.actors[a]]
    requires a in s.actors ==> forall k :: HasClaim(u.actors[a].pc, k) <==> HasClaim(s.actors[a].pc, k)
    requires a !in s.actors ==> forall k :: !HasClaim(u.actors[a].pc, k)
    requires u.actors[a].pc.Dialling? || u.actors[a].pc.Dialled? ==> ClaimIsCurrent(u.t, u.actors[a].pc)
    ensures OwnersInv(u)
  {
    forall k | k in u.t.callbacks && u.t.callbacks[k].claimedAt.Some? ensures exists b :: Owns(u, b, k) {
      var b :| Owns(s, b, k);
      assert Owns(u, b, k);
    }
    forall b, c, k | Owns(u, b, k) && Owns(u, c, k) ensures b == c {
      assert Owns(s, b, k) && Owns(s, c, k);
    }
  }

  /** .. and whatever lock it has, or drops it. */
  lemma MoveKeepsLocks(s: State, u: State, a: nat)
    requires LocksInv(s) && u.t == s.t
    requires a in u.actors && u.actors == s.actors[a := u.actors[a]]
    requires forall k :: Locks(u, a, k) ==> Locks(s, a, k) && u.actors[a].pc == s.actors[a].pc
    ensures LocksInv(u)
  {
    forall b | Running(u, b) && u.actors[b].pc.Claiming? ensures LockIsCurrent(u.t, u.actors[b].pc) {
      assert Locks(u, b, u.actors[b].pc.row.id);
      assert LockIsCurrent(s.t, s.actors[b].pc);
    }
    forall b, c, k | Locks(u, b, k) && Locks(u, c, k) ensures b == c {
      assert Locks(s, b, k) && Locks(s, c, k);
    }
  }

  lemma LockDueKeeps(s: State, a: nat, k: nat, now: Instant)
    requires OwnersInv(s) && LocksInv(s) && Enabled(s, LockDue(a, k, now))
    requires forall j :: j in s.t.callbacks ==> s.t.callbacks[j].id == j
    ensures var u := Apply(s, LockDue(a, k, now)); OwnersInv(u) && LocksInv(u)
  {
    var u := Apply(s, LockDue(a, k, now));
    MoveKeepsOwners(s, u, a);
    assert forall b :: Locks(s, b, k) ==> k in Locked(s);
    forall b, c, j | Locks(u, b, j) && Locks(u, c, j) ensures b == c {
      assert b != a ==> Locks(s, b, j);
      assert c != a ==> Locks(s, c, j);
    }
  }

  lemma ClaimKeepsOwners(s: State, a: nat, nonce: string)
    requires OwnersInv(s) && LocksInv(s) && Enabled(s, CommitClaim(a, nonce))
    ensures OwnersInv(Apply(s, CommitClaim(a, nonce)))
  {
    var u := Apply(s, CommitClaim(a, nonce));
    var pc := s.actors[a].pc;
    var k := pc.row.id;
    assert LockIsCurrent(s.t, pc);
    assert MintedFor(u.actors[a].pc.sarvamCallId, k);
    forall b | b in u.actors && b != a && (u.actors[b].pc.Dialling? || u.actors[b].pc.Dialled?)
      ensures ClaimIsCurrent(u.t, u.actors[b].pc)
    {
      assert ClaimIsCurrent(s.t, s.actors[b].pc);
    }
    forall b, j | Owns(u, b, j) ensures b == a || Owns(s, b, j) {}
    forall b, c, j | Owns(u, b, j) && Owns(u, c, j) ensures b == c {
      if b != a { assert ClaimIsCurrent(s.t, s.actors[b].pc); assert Owns(s, b, j); }
      if c != a { assert ClaimIsCurrent(s.t, s.actors[c].pc); assert Owns(s, c, j); }
    }
    forall j | j in u.t.callbacks && u.t.callbacks[j].claimedAt.Some? ensures exists b :: Owns(u, b, j) {
      if j == k {
        assert Owns(u, a, k);
      } else {
        var b :| Owns(s, b, j);
        assert Owns(u, b, j);
      }
    }
  }

  lemma ClaimKeepsLocks(s: State, a: nat, nonce: string)
    requires LocksInv(s) && Enabled(s, CommitClaim(a, nonce))
    ensures LocksInv(Apply(s, CommitClaim(a, nonce)))
  {
    var u := Apply(s, CommitClaim(a, nonce));
    var k := s.actors[a].pc.row.id;
    assert Locks(s, a, k);
    forall b, j | Locks(u, b, j) ensures Locks(s, b, j) && b != a && j != k {
      assert Locks(s, b, j);
    }
    forall b | Running(u, b) && u.actors[b].pc.Claiming? ensures LockIsCurrent(u.t, u.actors[b].pc) {
      assert Locks(u, b, u.actors[b].pc.row.id);
      assert LockIsCurrent(s.t, s.actors[b].pc);
    }
  }

  lemma ClaimKeepsSpacing(s: State, a: nat, nonce: string)
    requires SpacingInv(s) && LocksInv(s) && Enabled(s, CommitClaim(a, nonce))
    ensures SpacingInv(Apply(s, CommitClaim(a, nonce)))
  {
    var u := Apply(s, CommitClaim(a, nonce));
    var pc := s.actors[a].pc;
    assert LockIsCurrent(s.t, pc);
    forall k | k in u.t.callbacks ensures Spaced(ClaimsOf(u, k), u.t.callbacks[k]) {
      assert Spaced(ClaimsOf(s, k), s.t.callbacks[k]);
    }
  }

  lemma CommitClaimKeeps(s: State, a: nat, nonce: string)
    requires CallbackInv(s) && Enabled(s, CommitClaim(a, nonce))
    ensures CallbackInv(Apply(s, CommitClaim(a, nonce)))
  {
    var pc := s.actors[a].pc;
    assert LockIsCurrent(s.t, pc);
    ClaimKeepsRows(s.t, pc.row, pc.now);
    ClaimKeepsLinks(s.t, pc.row, pc.now);
    ClaimKeepsLog(s.t, pc.row, pc.now);
    ClaimKeepsOwners(s, a, nonce);
    ClaimKeepsLocks(s, a, nonce);
    ClaimKeepsSpacing(s, a, nonce);
  }

  lemma RecordKeepsOwners(s: State, a: nat)
    requires OwnersInv(s) && Enabled(s, RecordDial(a))
    ensures OwnersInv(Apply(s, RecordDial(a)))
  {
    var u := Apply(s, RecordDial(a));
    var pc := s.actors[a].pc;
    assert ClaimIsCurrent(s.t, pc) && Owns(s, a, pc.row.id);
    RecordAdvances(s.t, pc.row, pc.now, pc.result);
    forall b | b in u.actors && (u.actors[b].pc.Dialling? || u.actors[b].pc.Dialled?)
      ensures ClaimIsCurrent(u.t, u.actors[b].pc)
    {
      assert ClaimIsCurrent(s.t, s.actors[b].pc);
      assert Owns(s, b, u.actors[b].pc.row.id);
    }
    forall j | j in u.t.callbacks && u.t.callbacks[j].claimedAt.Some? ensures exists b :: Owns(u, b, j) {
      var b :| Owns(s, b, j);
      assert Owns(u, b, j);
    }
    forall b, c, j | Owns(u, b, j) && Owns(u, c, j) ensures b == c {
      assert Owns(s, b, j) && Owns(s, c, j);
    }
  }

  lemma RecordKeepsLocks(s: State, a: nat)
    requires OwnersInv(s) && LocksInv(s) && Enabled(s, RecordDial(a))
    ensures LocksInv(Apply(s, RecordDial(a)))
  {
    var u := Apply(s, RecordDial(a));
    var pc := s.actors[a].pc;
    assert ClaimIsCurrent(s.t, pc);
    RecordAdvances(s.t, pc.row, pc.now, pc.result);
    forall b | Running(u, b) && u.actors[b].pc.Claiming? ensures LockIsCurrent(u.t, u.actors[b].pc) {
      assert LockIsCurrent(s.t, s.actors[b].pc);
    }
    forall b, c, j | Locks(u, b, j) && Locks(u, c, j) ensures b == c {
      assert Locks(s, b, j) && Locks(s, c, j);
    }
  }

  lemma RecordSpaces(t: Tables, mine: Callback, now: Instant, result: DialResult, claims: seq<Instant>)
    requires Holds(t, mine) && Held(mine) && mine.claimedAt == Some(now) && Spaced(claims, mine)
    ensures var u := RecordTx(t, mine, now, result);
            && u.callbacks == t.callbacks[mine.id := u.callbacks[mine.id]]
            && Spaced(claims, u.callbacks[mine.id])
  {
  }

  lemma RecordKeepsSpacing(s: State, a: nat)
    requires OwnersInv(s) && SpacingInv(s) && Enabled(s, RecordDial(a))
    ensures SpacingInv(Apply(s, RecordDial(a)))
  {
    var u := Apply(s, RecordDial(a));
    var pc := s.actors[a].pc;
    assert ClaimIsCurrent(s.t, pc);
    RecordSpaces(s.t, pc.row, pc.now, pc.result, ClaimsOf(s, pc.row.id));
    forall k | k in u.t.callbacks ensures Spaced(ClaimsOf(u, k), u.t.callbacks[k]) {
      assert Spaced(ClaimsOf(s, k), s.t.callbacks[k]);
    }
  }

  lemma RecordDialKeeps(s: State, a: nat)
    requires CallbackInv(s) && Enabled(s, RecordDial(a))
    ensures CallbackInv(Apply(s, RecordDial(a)))
  {
    var pc := s.actors[a].pc;
    assert ClaimIsCurrent(s.t, pc);
    RecordKeepsRows(s.t, pc.row, pc.now, pc.result);
    RecordKeepsLinks(s.t, pc.row, pc.now, pc.result);
    RecordKeepsLog(s.t, pc.row, pc.now, pc.result);
    RecordKeepsOwners(s, a);
    RecordKeepsLocks(s, a);
    RecordKeepsSpacing(s, a);
  }

  /** A request that only advances callbacks in a call, and inserts waiting ones. */
  lemma RequestKeeps(s: State, u: State)
    requires OwnersInv(s) && LocksInv(s) && SpacingInv(s)
    requires u.actors == s.actors && u.claims == s.claims
    requires Advances(s.t.callbacks, u.t.callbacks)
    requires forall k :: k in s.t.callbacks && PhaseOf(s.t.callbacks[k]) != InCall ==>
               u.t.callbacks[k] == s.t.callbacks[k]
    requires forall k :: k in u.t.callbacks && k !in s.t.callbacks ==>
               u.t.callbacks[k].claimedAt.None? && u.t.callbacks[k].nextAttemptAt.None?
    ensures OwnersInv(u) && LocksInv(u) && SpacingInv(u)
  {
    forall k | k in u.t.callbacks && u.t.callbacks[k].claimedAt.Some?
      ensures k in s.t.callbacks && s.t.callbacks[k].claimedAt.Some?
    {
      assert k in s.t.callbacks && Edge(s.t.callbacks[k], u.t.callbacks[k]);
    }
    OwnersFrame(s, u);
    SpacingFrame(s, u);
  }

  lemma ScheduleKeeps(s: State, request: ScheduleRequest)
    requires CallbackInv(s)
    ensures CallbackInv(Apply(s, Schedule(request)))
  {
    ScheduleKeepsRows(s.t, request);
    ScheduleKeepsLinks(s.t, request);
    ScheduleKeepsLog(s.t, request);
    ScheduleAdvances(s.t, request);
    RequestKeeps(s, Apply(s, Schedule(request)));
  }

  /** An actor that is neither claiming nor dialling: it sends a message, or completes a call. */
  predicate Bystander(pc: Pc) {
    pc.Sending? || pc.Returned? || pc.Completing?
  }

  /** A bystander that comes, goes or moves on leaves ownership and locks alone. */
  lemma BystanderKeepsOwners(s: State, u: State, a: nat)
    requires OwnersInv(s) && LocksInv(s) && u.t.callbacks == s.t.callbacks
    requires u.actors - {a} == s.actors - {a}
    requires a in s.actors ==> Bystander(s.actors[a].pc)
    requires a in u.actors ==> Bystander(u.actors[a].pc)
    ensures OwnersInv(u) && LocksInv(u)
  {
    assert forall b :: b != a ==> (b in u.actors <==> b in (s.actors - {a}));
    assert forall b :: b != a && b in u.actors ==> u.actors[b] == (s.actors - {a})[b] == s.actors[b];
    forall b, k ensures Owns(u, b, k) <==> Owns(s, b, k) {}
    forall b, k ensures Locks(u, b, k) <==> Locks(s, b, k) {}
    forall b | b in u.actors && (u.actors[b].pc.Dialling? || u.actors[b].pc.Dialled?)
      ensures ClaimIsCurrent(u.t, u.actors[b].pc)
    {
      assert ClaimIsCurrent(s.t, s.actors[b].pc);
    }
    forall b | Running(u, b) && u.actors[b].pc.Claiming? ensures LockIsCurrent(u.t, u.actors[b].pc) {
      assert LockIsCurrent(s.t, s.actors[b].pc);
    }
    forall k | k in u.t.callbacks && u.t.callbacks[k].claimedAt.Some? ensures exists b :: Owns(u, b, k) {
      var b :| Owns(s, b, k);
      assert Owns(u, b, k);
    }
  }

  lemma ReadKeeps(s: State, a: nat, request: CompletionRequest)
    requires CallbackInv(s) && Enabled(s, ReadCall(a, request))
    ensures CallbackInv(Apply(s, ReadCall(a, request)))
  {
    var u := Apply(s, ReadCall(a, request));
    assert u.actors - {a} == s.actors - {a};
    BystanderKeepsOwners(s, u, a);
    SpacingUnmoved(s, u);
  }

  lemma CompletionKeepsOwners(s: State, a: nat, now: Instant)
    requires LinksInv(s.t) && OwnersInv(s) && LocksInv(s) && SpacingInv(s) && Enabled(s, CompleteCall(a, now))
    ensures var u := Apply(s, CompleteCall(a, now)); OwnersInv(u) && LocksInv(u) && SpacingInv(u)
  {
    var pc := s.actors[a].pc;
    var gone := s.(actors := s.actors - {a});
    BystanderKeepsOwners(s, gone, a);
    SpacingUnmoved(s, gone);
    CompleteAdvances(s.t, pc.completion, pc.seen, now);
    RequestKeeps(gone, Apply(s, CompleteCall(a, now)));
  }

  lemma CompletionKeeps(s: State, a: nat, now: Instant)
    requires CallbackInv(s) && Enabled(s, CompleteCall(a, now))
    ensures CallbackInv(Apply(s, CompleteCall(a, now)))
  {
    CompleteKeepsTables(s.t, s.actors[a].pc.completion, s.actors[a].pc.seen, now);
    CompletionKeepsOwners(s, a, now);
  }

  /** Deliveries share only the log and the actor table with callbacks. */
  lemma DeliveryKeepsTables(s: State, action: Action)
    requires TablesInv(s.t) && Enabled(s, action) && Delivers(action)
    ensures TablesInv(Apply(s, action).t)
    ensures Apply(s, action).t.callbacks == s.t.callbacks
  {
    var u := Apply(s, action);
    if u.t != s.t {
      MessageKeepsTables(s.t, u.t, u.t.events[|s.t.events|]);
    }
  }

  predicate Delivers(action: Action) {
    action.Reserve? || action.SendReturns? || action.RecordSend?
  }

  lemma DeliveryMovesSender(s: State, action: Action)
    requires Enabled(s, action) && Delivers(action)
    ensures var u, a := Apply(s, action), action.actor;
            && u.actors - {a} == s.actors - {a} && u.claims == s.claims
            && (a in s.actors ==> Bystander(s.actors[a].pc))
            && (a in u.actors ==> Bystander(u.actors[a].pc))
  {
    var u := Apply(s, action);
    assert u.actors - {action.actor} == s.actors - {action.actor};
  }

  lemma DeliveryKeeps(s: State, action: Action)
    requires CallbackInv(s) && Enabled(s, action) && Delivers(action)
    ensures CallbackInv(Apply(s, action))
  {
    var u := Apply(s, action);
    DeliveryKeepsTables(s, action);
    DeliveryMovesSender(s, action);
    BystanderKeepsOwners(s, u, action.actor);
    SpacingUnmoved(s, u);
  }

  lemma DialReturnsKeepsOwners(s: State, a: nat, response: DialResponse)
    requires OwnersInv(s) && LocksInv(s) && Enabled(s, DialReturns(a, response))
    ensures var u := Apply(s, DialReturns(a, response)); OwnersInv(u) && LocksInv(u)
  {
    assert ClaimIsCurrent(s.t, s.actors[a].pc);
    MoveKeepsOwners(s, Apply(s, DialReturns(a, response)), a);
    MoveKeepsLocks(s, Apply(s, DialReturns(a, response)), a);
  }

  lemma CrashKeepsOwners(s: State, a: nat)
    requires OwnersInv(s) && LocksInv(s) && Enabled(s, Crash(a))
    ensures OwnersInv(Apply(s, Crash(a))) && LocksInv(Apply(s, Crash(a)))
  {
    MoveKeepsOwners(s, Apply(s, Crash(a)), a);
    MoveKeepsLocks(s, Apply(s, Crash(a)), a);
  }

  lemma SpacingUnmoved(s: State, u: State)
    requires SpacingInv(s) && u.t.callbacks == s.t.callbacks && u.claims == s.claims
    ensures SpacingInv(u)
  {
    forall k | k in u.t.callbacks ensures Spaced(ClaimsOf(u, k), u.t.callbacks[k]) {
      assert Spaced(ClaimsOf(s, k), s.t.callbacks[k]);
    }
  }

  lemma CaptureKeeps(s: State, id: string, leadId: nat, summary: Option<string>)
    requires CallbackInv(s)
    ensures CallbackInv(Apply(s, Capture(id, leadId, summary)))
  {
    var u := Apply(s, Capture(id, leadId, summary));
    CaptureKeepsTables(s.t, id, leadId, summary);
    OwnersFrame(s, u);
    SpacingUnmoved(s, u);
  }

  lemma StepKeepsCallbackInv(s: State, action: Action)
    requires CallbackInv(s) && Enabled(s, action)
    ensures CallbackInv(Apply(s, action))
  {
    match action
    case LockDue(a, k, now) =>
      LockDueKeeps(s, a, k, now);
      SpacingUnmoved(s, Apply(s, action));
    case CommitClaim(a, nonce) => CommitClaimKeeps(s, a, nonce);
    case RecordDial(a) => RecordDialKeeps(s, a);
    case Schedule(request) => ScheduleKeeps(s, request);
    case Capture(id, leadId, summary) => CaptureKeeps(s, id, leadId, summary);
    case ReadCall(a, request) => ReadKeeps(s, a, request);
    case CompleteCall(a, now) => CompletionKeeps(s, a, now);
    case Reserve(_, _, _) => DeliveryKeeps(s, action);
    case SendReturns(_, _) => DeliveryKeeps(s, action);
    case RecordSend(_, _) => DeliveryKeeps(s, action);
    case DialReturns(a, response) =>
      DialReturnsKeepsOwners(s, a, response);
      SpacingUnmoved(s, Apply(s, action));
    case Crash(a) =>
      CrashKeepsOwners(s, a);
      SpacingUnmoved(s, Apply(s, action));
  }
}
