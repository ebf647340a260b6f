/** Migration 0004 and the running code: tables it has written, and tables it resumes from. */
module MigrationOfRuns {
  import opened Schema
  import opened Transactions
  import opened Protocol
  import opened MessageProtocol
  import opened Runs
  import opened Migration

  /** In any state of any run, downgrade then upgrade keeps the status of every message row
      it keeps, drops exactly the FAILED ones, and allows exactly the same sends. */
  lemma RunSurvivesDowngrade(states: seq<State>, actions: seq<Action>, i: nat, d: Deployed, key: MessageKey)
    requires Run(states, actions) && i < |states|
    requires Migrated(d) && RowsOf(d.messages.value) == states[i].t.messages
    ensures Legacy(Downgraded(d))
    ensures var before, after := states[i].t.messages, RowsOf(Upgraded(Downgraded(d)).messages.value);
            && (key in after <==> key in before && before[key].status != MessageStatus.FAILED)
            && (key in after ==> after[key].status == before[key].status && after[key].sentAt == before[key].sentAt)
            && (Refuses(after, key) <==> Refuses(before, key))
  {
    DowngradeThenUpgrade(d, key);
    if key in d.messages.value {
      assert key in states[i].t.messages && states[i].t.messages[key] == d.messages.value[key].message;
      LogDeterminesMessage(states, actions, i, key);
      assert SaysWhenSent(d.messages.value[key]);
    } else {
      assert key !in RowsOf(d.messages.value);
    }
  }

  // ---------------------------------------------------- runs that resume

  /** The deployed rows as a state: nobody is running, and the provider starts afresh. */
  ghost predicate ResumesFrom(start: State, d: Deployed)
    requires Legacy(d)
  {
    && start.actors == map[] && start.provider == [] && start.t.messages == RowsOf(Upgraded(d).messages.value)
    && forall c :: c in d.leadOfCall <==> HasCall(start.t.calls, c)
  }

  /** No actor sends this message and the provider was never called for it. */
  ghost predicate Untouched(s: State, key: MessageKey) {
    && (forall a :: !Sends(s, a, key))
    && (forall p :: 0 <= p < |s.provider| ==> s.provider[p].key != key)
  }

  lemma RefusedStaysUntouched(s: State, action: Action, key: MessageKey)
    requires Enabled(s, action) && Refuses(s.t.messages, key) && Untouched(s, key)
    ensures var u := Apply(s, action);
            Untouched(u, key) && key in u.t.messages && u.t.messages[key] == s.t.messages[key]
  {
    var u := Apply(s, action);
    if LeavesMessages(action) {
      OthersLeaveMessages(s, action);
    } else {
      assert action.SendReturns? || action.RecordSend? ==> Sends(s, action.actor, s.actors[action.actor].pc.key);
      forall a ensures !Sends(u, a, key) {
        assert !Sends(s, a, key);
      }
    }
  }

  lemma {:induction false} TakenIsNeverSent(start: State, states: seq<State>, actions: seq<Action>,
                                            i: nat, key: MessageKey)
    requires RunFrom(start, states, actions) && i < |states|
    requires Refuses(start.t.messages, key) && Untouched(start, key)
    ensures key in states[i].t.messages && states[i].t.messages[key] == start.t.messages[key]
    ensures Untouched(states[i], key)
  {
    if i > 0 {
      TakenIsNeverSent(start, states, actions, i - 1, key);
      assert Steps(states, actions, i - 1);
      RefusedStaysUntouched(states[i - 1], actions[i - 1], key);
    }
  }

  ghost predicate CallsProvider(start: State, states: seq<State>, actions: seq<Action>, p: nat, key: MessageKey) {
    && RunFrom(start, states, actions)
    && p < |states[|actions|].provider| && states[|actions|].provider[p] == Called(key)
  }

  lemma TakenCannotBeSent(start: State, key: MessageKey)
    requires Refuses(start.t.messages, key) && Untouched(start, key)
    ensures !exists states, actions, p :: CallsProvider(start, states, actions, p, key)
  {
    forall states, actions, p ensures !CallsProvider(start, states, actions, p, key) {
      if RunFrom(start, states, actions) {
        TakenIsNeverSent(start, states, actions, |actions|, key);
      }
    }
  }

  lemma OpenCanBeSent(start: State, key: MessageKey)
    requires start.actors == map[] && !Refuses(start.t.messages, key) && HasCall(start.t.calls, key.callId)
    ensures exists states, actions, p :: CallsProvider(start, states, actions, p, key)
  {
    var action := Reserve(0, 0, key);
    var after := Apply(start, action);
    assert CallsProvider(start, [start, after], [action], |start.provider|, key);
  }

  /** Across the upgrade the idempotency boundary holds exactly: some run of the new code on
      the upgraded rows calls the provider for a message of a call the database holds if and
      only if the old code had no reservation for it. */
  lemma SendsAfterUpgradeExactly(d: Deployed, start: State, key: MessageKey)
    requires Legacy(d) && ResumesFrom(start, d) && key.callId in d.leadOfCall
    ensures (exists states, actions, p :: CallsProvider(start, states, actions, p, key))
       <==> ReservationKeyOf(key) !in d.reservations.value
  {
    UpgradeKeepsRightToSend(d, key);
    if ReservationKeyOf(key) in d.reservations.value {
      TakenCannotBeSent(start, key);
    } else {
      OpenCanBeSent(start, key);
    }
  }

  /** .. and a message that had a reservation keeps its row over every such run. */
  lemma ReservedKeepsRow(d: Deployed, start: State, states: seq<State>, actions: seq<Action>, i: nat, key: MessageKey)
    requires Legacy(d) && ResumesFrom(start, d) && RunFrom(start, states, actions) && i < |states|
    requires ReservationKeyOf(key) in d.reservations.value
    ensures IsSent(states[i].t.messages, key) <==> d.reservations.value[ReservationKeyOf(key)].completedAt.Some?
    ensures IsReserved(states[i].t.messages, key) <==> d.reservations.value[ReservationKeyOf(key)].completedAt.None?
  {
    UpgradeKeepsRightToSend(d, key);
    TakenIsNeverSent(start, states, actions, i, key);
  }
}
