/** What a crash costs: exactly which messages can still be sent and which callbacks can
    still be settled from a state the system has reached. */
module Recovery {
  import opened Schema
  import opened Transactions
  import opened Protocol
  import opened CallbackInvariant
  import opened CallbackProtocol
  import opened MessageProtocol
  import opened Runs
  import opened Repositories

  // ---------------------------------------------------------- continuations

  ghost predicate RunsTo(s: State, states: seq<State>, actions: seq<Action>, u: State) {
    RunFrom(s, states, actions) && states[|actions|] == u
  }

  /** Some continuation of s ends in u. */
  ghost predicate Leads(s: State, u: State) {
    exists states, actions :: RunsTo(s, states, actions, u)
  }

  lemma LeadsToItself(s: State)
    ensures Leads(s, s)
  {
    assert RunsTo(s, [s], [], s);
  }

  lemma GoesOn(s: State, u: State, action: Action) returns (v: State)
    requires Leads(s, u) && Enabled(u, action)
    ensures v == Apply(u, action) && Leads(s, v)
  {
    v := Apply(u, action);
    var states, actions :| RunsTo(s, states, actions, u);
    var longer, more := states + [v], actions + [action];
    forall i | 0 <= i < |more| ensures Steps(longer, more, i) {
      assert i < |actions| ==> Steps(states, actions, i);
    }
    assert RunsTo(s, longer, more, v);
  }

  lemma LeadsKeepsInv(s: State, u: State)
    requires Leads(s, u) && Inv(s)
    ensures Inv(u)
  {
    var states, actions :| RunsTo(s, states, actions, u);
    ContinuationKeepsInv(s, states, actions, |actions|);
  }

  /** A run to state i and a continuation from there are one run. */
  lemma Joined(states: seq<State>, actions: seq<Action>, i: nat, u: State)
    returns (all: seq<State>, did: seq<Action>, j: nat)
    requires Run(states, actions) && i < |states| && Leads(states[i], u)
    ensures Run(all, did) && i <= j < |all| && all[i] == states[i] && all[j] == u
  {
    var more, next :| RunsTo(states[i], more, next, u);
    all, did, j := states[..i] + more, actions[..i] + next, i + |next|;
    forall n | 0 <= n < |did| ensures Steps(all, did, n) {
      if n < i {
        assert Steps(states, actions, n);
      } else {
        assert Steps(more, next, n - i);
      }
    }
  }

  lemma {:induction false} BoundOf(ids: set<nat>) returns (bound: nat)
    ensures forall a :: a in ids ==> a < bound
  {
    bound := 0;
    if ids != {} {
      var a :| a in ids;
      var rest := BoundOf(ids - {a});
      bound := if a < rest then rest else a + 1;
      assert forall b :: b in ids ==> b == a || b in ids - {a};
    }
  }

  lemma NewActor(s: State) returns (a: nat)
    ensures a !in s.actors
  {
    a := BoundOf(s.actors.Keys);
  }

  // --------------------------------------------------------------- messages

  ghost predicate CanBeSent(s: State, key: MessageKey) {
    exists u :: Leads(s, u) && IsSent(u.t.messages, key)
  }

  lemma ReturnedCanBeSent(s: State, u: State, a: nat, key: MessageKey)
    requires Leads(s, u) && Running(u, a) && u.actors[a].pc.Returned? && u.actors[a].pc.key == key
    requires u.actors[a].pc.outcome.Delivered? && key in u.t.messages
    ensures CanBeSent(s, key)
  {
    var v := GoesOn(s, u, RecordSend(a, 0));
    assert IsSent(v.t.messages, key);
  }

  lemma SendingCanBeSent(s: State, u: State, a: nat, key: MessageKey)
    requires Leads(s, u) && Running(u, a) && u.actors[a].pc.Sending? && u.actors[a].pc.key == key
    requires key in u.t.messages
    ensures CanBeSent(s, key)
  {
    var v := GoesOn(s, u, SendReturns(a, Delivered("")));
    ReturnedCanBeSent(s, v, a, key);
  }

  lemma OpenCanBeSent(s: State, u: State, key: MessageKey)
    requires Leads(s, u) && !Refuses(u.t.messages, key) && HasCall(u.t.calls, key.callId)
    ensures CanBeSent(s, key)
  {
    var a := NewActor(u);
    var id :| id in u.t.calls && u.t.calls[id].id == key.callId;
    var v := GoesOn(s, u, Reserve(a, u.t.calls[id].leadId, key));
    SendingCanBeSent(s, v, a, key);
  }

  lemma FailedCanBeSent(s: State, u: State, a: nat, key: MessageKey)
    requires Leads(s, u) && Running(u, a) && u.actors[a].pc.Returned? && u.actors[a].pc.key == key
    requires !u.actors[a].pc.outcome.Delivered? && key in u.t.messages && HasCall(u.t.calls, key.callId)
    ensures CanBeSent(s, key)
  {
    var v := GoesOn(s, u, RecordSend(a, 0));
    OpenCanBeSent(s, v, key);
  }

  lemma OwnedCanBeSent(s: State, a: nat, key: MessageKey)
    requires Sends(s, a, key) && s.actors[a].alive && IsReserved(s.t.messages, key)
    requires HasCall(s.t.calls, key.callId)
    ensures CanBeSent(s, key)
  {
    LeadsToItself(s);
    if s.actors[a].pc.Sending? {
      SendingCanBeSent(s, s, a, key);
    } else if s.actors[a].pc.outcome.Delivered? {
      ReturnedCanBeSent(s, s, a, key);
    } else {
      FailedCanBeSent(s, s, a, key);
    }
  }

  /** A message is lost for good exactly when an actor that crashed holds its reservation:
      short of that, something the system may still do ends with it SENT. */
  lemma SendableExactly(states: seq<State>, actions: seq<Action>, i: nat, key: MessageKey)
    requires Run(states, actions) && i < |states| && HasCall(states[i].t.calls, key.callId)
    ensures CanBeSent(states[i], key) <==> forall a :: Sends(states[i], a, key) ==> states[i].actors[a].alive
  {
    var s := states[i];
    SendersAt(states, actions, i, key);
    if a :| Sends(s, a, key) && !s.actors[a].alive {
      forall u | Leads(s, u) ensures !IsSent(u.t.messages, key) {
        var all, did, j := Joined(states, actions, i, u);
        CrashedSendIsStuck(all, did, i, j, a, key);
      }
    } else if IsReserved(s.t.messages, key) {
      var a :| Sends(s, a, key);
      OwnedCanBeSent(s, a, key);
    } else {
      LeadsToItself(s);
      if !IsSent(s.t.messages, key) {
        OpenCanBeSent(s, s, key);
      }
    }
  }

  // -------------------------------------------------------------- callbacks

  predicate IsSettled(t: Tables, k: nat) {
    k in t.callbacks && t.callbacks[k].status in {COMPLETED, CallbackStatus.FAILED}
  }

  ghost predicate CanBeSettled(s: State, k: nat) {
    exists u :: Leads(s, u) && IsSettled(u.t, k)
  }

  /** A dialled call that ends completes the callback. */
  lemma InCallCanBeSettled(s: State, u: State, k: nat)
    requires Leads(s, u) && LinksInv(u.t)
    requires k in u.t.callbacks && PhaseOf(u.t.callbacks[k]) == InCall
    ensures CanBeSettled(s, k)
  {
    var id :| LinksTo(u.t.calls, id, k);
    var a := NewActor(u);
    var request := CompletionRequest(id, u.t.calls[id].leadId, None, Closing(None, [], None, None, None));
    var v := GoesOn(s, u, ReadCall(a, request));
    var w := GoesOn(s, v, CompleteCall(a, 0));
    assert IsSettled(w.t, k);
  }

  lemma RecordIsEnabled(u: State, a: nat)
    requires OwnersInv(u) && RowsInv(u.t) && Running(u, a) && u.actors[a].pc.Dialled?
    ensures Enabled(u, RecordDial(a)) && ClaimIsCurrent(u.t, u.actors[a].pc)
  {
    assert ClaimIsCurrent(u.t, u.actors[a].pc);
    HeldKeyIsFree(u.t.attempts, u.actors[a].pc.row);
  }

  /** A dial the provider refuses for good writes the callback off. */
  lemma DiallingCanBeSettled(s: State, u: State, a: nat, k: nat)
    requires Leads(s, u) && Inv(s) && Owns(u, a, k) && u.actors[a].alive && u.actors[a].pc.Dialling?
    ensures CanBeSettled(s, k)
  {
    var v := GoesOn(s, u, DialReturns(a, Unconfigured));
    LeadsKeepsInv(s, v);
    RecordIsEnabled(v, a);
    var w := GoesOn(s, v, RecordDial(a));
    assert IsSettled(w.t, k);
  }

  lemma LockedCanBeSettled(s: State, u: State, a: nat, k: nat)
    requires Leads(s, u) && Inv(s) && Locks(u, a, k) && k in u.t.callbacks
    ensures CanBeSettled(s, k)
  {
    var v := GoesOn(s, u, CommitClaim(a, ""));
    DiallingCanBeSettled(s, v, a, k);
  }

  /** The callbacks a tick at this instant may still claim. */
  ghost function ClaimableAt(u: State, now: Instant): set<nat> {
    set j | j in u.t.callbacks && Claimable(u.t.callbacks, Locked(u), now, j)
  }

  lemma LockShrinks(u: State, v: State, a: nat, first: nat, now: Instant)
    requires Enabled(u, LockDue(a, first, now)) && v == Apply(u, LockDue(a, first, now))
    requires u.t.callbacks[first].id == first
    ensures v.t == u.t && Locks(v, a, first)
    ensures ClaimableAt(v, now) == ClaimableAt(u, now) - {first}
  {
    forall j ensures j in Locked(v) <==> j in Locked(u) || j == first {
      if j in Locked(u) {
        var b :| b in u.actors && u.actors[b].alive && u.actors[b].pc.Claiming? && u.actors[b].pc.row.id == j;
        assert v.actors[b] == u.actors[b];
      }
      if j == first {
        assert v.actors[a].pc.row.id == j;
      }
      if j in Locked(v) {
        var b :| b in v.actors && v.actors[b].alive && v.actors[b].pc.Claiming? && v.actors[b].pc.row.id == j;
        assert b != a ==> u.actors[b] == v.actors[b];
      }
    }
  }

  /** Another worker locks the first of the rows that are left. */
  lemma LocksFirst(s: State, u: State, k: nat, now: Instant) returns (v: State, a: nat, first: nat)
    requires Leads(s, u) && Inv(u) && k in ClaimableAt(u, now)
    ensures Leads(s, v) && v.t == u.t && Locks(v, a, first) && first in ClaimableAt(u, now)
    ensures ClaimableAt(v, now) == ClaimableAt(u, now) - {first}
  {
    DueMeansNextDue(u.t.callbacks, Locked(u), now, k);
    first :| first in u.t.callbacks && NextDue(u.t.callbacks, Locked(u), now, first);
    a := NewActor(u);
    v := GoesOn(s, u, LockDue(a, first, now));
    LockShrinks(u, v, a, first, now);
  }

  /** Workers that skip locked rows reach a due callback by locking the rows before it. */
  lemma {:induction false} ClaimableCanBeSettled(s: State, u: State, k: nat, now: Instant)
    requires Leads(s, u) && Inv(s) && k in ClaimableAt(u, now)
    ensures CanBeSettled(s, k)
    decreases |ClaimableAt(u, now)|
  {
    LeadsKeepsInv(s, u);
    var v, a, first := LocksFirst(s, u, k, now);
    if first == k {
      LockedCanBeSettled(s, v, a, k);
    } else {
      ClaimableCanBeSettled(s, v, k, now);
    }
  }

  lemma WaitingCanBeSettled(s: State, u: State, k: nat)
    requires Leads(s, u) && Inv(s)
    requires k in u.t.callbacks && u.t.callbacks[k].status == PENDING && u.t.callbacks[k].claimedAt.None?
    ensures CanBeSettled(s, k)
  {
    if k in Locked(u) {
      var a :| a in u.actors && u.actors[a].alive && u.actors[a].pc.Claiming? && u.actors[a].pc.row.id == k;
      LockedCanBeSettled(s, u, a, k);
    } else {
      ClaimableCanBeSettled(s, u, k, ExecutionAt(u.t.callbacks[k]));
    }
  }

  lemma DialledCanBeSettled(s: State, u: State, a: nat, k: nat)
    requires Leads(s, u) && Inv(s) && Owns(u, a, k) && u.actors[a].alive && u.actors[a].pc.Dialled?
    ensures CanBeSettled(s, k)
  {
    LeadsKeepsInv(s, u);
    RecordIsEnabled(u, a);
    var v := GoesOn(s, u, RecordDial(a));
    LeadsKeepsInv(s, v);
    if Placed(u.actors[a].pc.result) {
      InCallCanBeSettled(s, v, k);
    } else if u.actors[a].pc.result.retryable {
      WaitingCanBeSettled(s, v, k);
    } else {
      assert IsSettled(v.t, k);
    }
  }

  lemma UnsettledPhases(s: State, k: nat)
    requires Inv(s) && k in s.t.callbacks && !IsSettled(s.t, k)
    ensures var row := s.t.callbacks[k];
            || (row.status == PENDING && row.claimedAt.None?)
            || PhaseOf(row) == InCall
            || (exists a :: Owns(s, a, k))
  {
    assert RowInv(s.t.attempts, s.t.callbacks[k]);
  }

  /** A callback is lost for good exactly when a worker that crashed owns its claim: short of
      that it is settled already, or something the system may still do completes it or writes
      it off. */
  lemma SettleableExactly(states: seq<State>, actions: seq<Action>, i: nat, k: nat)
    requires Run(states, actions) && i < |states| && k in states[i].t.callbacks
    ensures CanBeSettled(states[i], k) <==> forall a :: Owns(states[i], a, k) ==> states[i].actors[a].alive
  {
    var s := states[i];
    RunKeepsInv(states, actions, i);
    LeadsToItself(s);
    if a :| Owns(s, a, k) && !s.actors[a].alive {
      forall u | Leads(s, u) ensures !IsSettled(u.t, k) {
        var all, did, j := Joined(states, actions, i, u);
        CrashedClaimIsFrozen(all, did, i, j, a, k);
        RowAt(states, actions, i, k);
      }
    } else if !IsSettled(s.t, k) {
      UnsettledPhases(s, k);
      if a :| Owns(s, a, k) {
        if s.actors[a].pc.Dialling? {
          DiallingCanBeSettled(s, s, a, k);
        } else {
          DialledCanBeSettled(s, s, a, k);
        }
      } else if PhaseOf(s.t.callbacks[k]) == InCall {
        InCallCanBeSettled(s, s, k);
      } else {
        WaitingCanBeSettled(s, s, k);
      }
    }
  }
}
