/** What a follow-up reports when other deliveries, of replays or duplicates of the same
    completion, interleave with it. */
module FollowupRuns {
  import opened Schema
  import opened Transactions
  import opened Protocol
  import opened MessageProtocol
  import opened Runs
  import opened FollowupReplay
  import opened Provenance

  // ------------------------------------------------------------ one delivery

  /** The steps at which a delivery reserves and at which it returns. */
  datatype Span = Span(begin: nat, end: nat)

  predicate Records(action: Action, a: nat) {
    action.RecordSend? && action.actor == a
  }

  /** A delivery of this message that returned: refused at once, or sent and recorded. */
  ghost predicate IsDelivery(states: seq<State>, actions: seq<Action>, d: Span, key: MessageKey)
    requires Run(states, actions)
  {
    && d.begin <= d.end < |actions|
    && actions[d.begin].Reserve? && actions[d.begin].key == key
    && if Refuses(states[d.begin].t.messages, key) then d.end == d.begin
       else
         && d.begin < d.end && Records(actions[d.end], actions[d.begin].actor)
         && forall m :: d.begin < m < d.end ==> !Records(actions[m], actions[d.begin].actor)
  }

  /** The sent flag of the outcome it returned. */
  ghost predicate ReportsSent(states: seq<State>, actions: seq<Action>, d: Span, key: MessageKey)
    requires Run(states, actions) && IsDelivery(states, actions, d, key)
  {
    Refuses(states[d.begin].t.messages, key) || PcAt(states, actions, d.end).outcome.Delivered?
  }

  lemma SenderStays(s: State, action: Action, a: nat, key: MessageKey)
    requires Enabled(s, action) && Sends(s, a, key) && !Records(action, a)
    ensures Sends(Apply(s, action), a, key)
    ensures Apply(s, action).actors[a].pc.leadId == s.actors[a].pc.leadId
  {
  }

  lemma {:induction false} SendUnderWay(states: seq<State>, actions: seq<Action>, d: Span, key: MessageKey, n: nat)
    requires Run(states, actions) && IsDelivery(states, actions, d, key) && d.begin < n <= d.end
    ensures Sends(states[n], actions[d.begin].actor, key)
    ensures states[n].actors[actions[d.begin].actor].pc.leadId == actions[d.begin].leadId
  {
    assert Steps(states, actions, n - 1);
    if d.begin + 1 < n {
      SendUnderWay(states, actions, d, key, n - 1);
      SenderStays(states[n - 1], actions[n - 1], actions[d.begin].actor, key);
    }
  }

  predicate Answered(action: Action, a: nat) {
    action.SendReturns? && action.actor == a
  }

  /** The step between them at which the provider answered. */
  lemma {:induction false} AnsweredAt(states: seq<State>, actions: seq<Action>, d: Span, key: MessageKey, n: nat)
    returns (m: nat)
    requires Run(states, actions) && IsDelivery(states, actions, d, key) && d.begin < n <= d.end
    requires Sends(states[n], actions[d.begin].actor, key) && states[n].actors[actions[d.begin].actor].pc.Returned?
    ensures d.begin < m < n && Answered(actions[m], actions[d.begin].actor)
    ensures actions[m].outcome == states[n].actors[actions[d.begin].actor].pc.outcome
  {
    m := n - 1;
    var a := actions[d.begin].actor;
    assert Steps(states, actions, m) && Steps(states, actions, d.begin);
    if d.begin < m {
      SendUnderWay(states, actions, d, key, m);
      if !Answered(actions[m], a) {
        m := AnsweredAt(states, actions, d, key, m);
      }
    }
  }

  /** A delivery calls the provider exactly when it finds the row absent or FAILED. */
  lemma DeliveryCallsExactly(states: seq<State>, actions: seq<Action>, d: Span, key: MessageKey)
    requires Run(states, actions) && IsDelivery(states, actions, d, key)
    ensures states[d.begin + 1].provider == states[d.begin].provider
              + if Refuses(states[d.begin].t.messages, key) then [] else [Called(key)]
  {
    assert Steps(states, actions, d.begin);
  }

  lemma SettleStores(s: State, a: nat, now: Instant)
    requires Enabled(s, RecordSend(a, now))
    ensures var u, pc := Apply(s, RecordSend(a, now)), s.actors[a].pc;
            && pc.key in u.t.messages && RowTells(u.t.messages[pc.key], pc.outcome)
            && (pc.outcome.Delivered? ==> u.t.messages[pc.key].sentAt == Some(now))
            && |u.t.events| == |s.t.events| + 1
            && Settles(u.t.events[|s.t.events|], pc.leadId, pc.key, pc.outcome)
  {
  }

  /** A delivery that was granted stores, logs and reports what the provider answered it:
      the id of a result, with the clock's instant, or the reason of the failure. */
  lemma DeliveryStoresAnswer(states: seq<State>, actions: seq<Action>, d: Span, key: MessageKey) returns (m: nat)
    requires Run(states, actions) && IsDelivery(states, actions, d, key)
    requires !Refuses(states[d.begin].t.messages, key)
    ensures d.begin < m < d.end && Answered(actions[m], actions[d.begin].actor)
    ensures var answer, u := actions[m].outcome, states[d.end + 1].t;
            && (ReportsSent(states, actions, d, key) <==> answer.Delivered?)
            && key in u.messages && RowTells(u.messages[key], answer)
            && (answer.Delivered? ==> u.messages[key].sentAt == Some(actions[d.end].now))
            && |u.events| == |states[d.end].t.events| + 1
            && Settles(u.events[|states[d.end].t.events|], actions[d.begin].leadId, key, answer)
  {
    SendUnderWay(states, actions, d, key, d.end);
    assert Steps(states, actions, d.end);
    m := AnsweredAt(states, actions, d, key, d.end);
    SettleStores(states[d.end], actions[d.end].actor, actions[d.end].now);
  }

  /** Whatever interleaves with it, a delivery reports sent exactly when the row was RESERVED
      by someone else when it began, or is SENT when it returns. */
  lemma DeliveryReportsExactly(states: seq<State>, actions: seq<Action>, d: Span, key: MessageKey)
    requires Run(states, actions) && IsDelivery(states, actions, d, key)
    ensures ReportsSent(states, actions, d, key)
       <==> IsReserved(states[d.begin].t.messages, key) || IsSent(states[d.end + 1].t.messages, key)
  {
    assert Steps(states, actions, d.begin) && Steps(states, actions, d.end);
    if !Refuses(states[d.begin].t.messages, key) {
      SendUnderWay(states, actions, d, key, d.end);
    }
  }

  /** A report of sent is final, unless the row was RESERVED when the delivery began. */
  lemma ReportIsFinal(states: seq<State>, actions: seq<Action>, d: Span, key: MessageKey, j: nat)
    requires Run(states, actions) && IsDelivery(states, actions, d, key) && d.end < j < |states|
    requires ReportsSent(states, actions, d, key) && !IsReserved(states[d.begin].t.messages, key)
    ensures IsSent(states[j].t.messages, key)
  {
    DeliveryReportsExactly(states, actions, d, key);
    SentMessageIsFinal(states, actions, d.end + 1, j, key);
  }

  // ------------------------------------------------------------- a follow-up

  /** The three deliveries of a follow-up that returned, one after the other. */
  ghost predicate IsFollowup(states: seq<State>, actions: seq<Action>, f: seq<Span>, callId: nat)
    requires Run(states, actions)
  {
    && |f| == 3 && f[0].end < f[1].begin && f[1].end < f[2].begin
    && forall n :: 0 <= n < 3 ==> IsDelivery(states, actions, f[n], Keys(callId)[n])
  }

  /** The success flag it returned. */
  ghost predicate Succeeds(states: seq<State>, actions: seq<Action>, f: seq<Span>, callId: nat)
    requires Run(states, actions) && IsFollowup(states, actions, f, callId)
  {
    forall n :: 0 <= n < 3 ==> ReportsSent(states, actions, f[n], Keys(callId)[n])
  }

  /** The row of kind n was RESERVED by someone else when the follow-up reached it. */
  ghost predicate ReachedReserved(states: seq<State>, actions: seq<Action>, f: seq<Span>, callId: nat, n: nat)
    requires Run(states, actions) && IsFollowup(states, actions, f, callId) && n < 3
  {
    IsReserved(states[f[n].begin].t.messages, Keys(callId)[n])
  }

  /** success is true exactly when each row was RESERVED as the follow-up reached it or SENT as
      it left it, whatever other deliveries of the same messages ran meanwhile. */
  lemma FollowupReportsExactly(states: seq<State>, actions: seq<Action>, f: seq<Span>, callId: nat)
    requires Run(states, actions) && IsFollowup(states, actions, f, callId)
    ensures Succeeds(states, actions, f, callId)
       <==> forall n :: 0 <= n < 3 ==>
              || ReachedReserved(states, actions, f, callId, n)
              || IsSent(states[f[n].end + 1].t.messages, Keys(callId)[n])
  {
    forall n | 0 <= n < 3
      ensures ReportsSent(states, actions, f[n], Keys(callId)[n])
         <==> ReachedReserved(states, actions, f, callId, n)
              || IsSent(states[f[n].end + 1].t.messages, Keys(callId)[n])
    {
      DeliveryReportsExactly(states, actions, f[n], Keys(callId)[n]);
    }
  }

  /** A success that reached no RESERVED row is true for good: all three messages are SENT in
      every later state. */
  lemma SuccessIsFinal(states: seq<State>, actions: seq<Action>, f: seq<Span>, callId: nat, j: nat)
    requires Run(states, actions) && IsFollowup(states, actions, f, callId) && f[2].end < j < |states|
    requires Succeeds(states, actions, f, callId)
    requires forall n :: 0 <= n < 3 ==> !ReachedReserved(states, actions, f, callId, n)
    ensures AllSent(states[j].t, Keys(callId))
  {
    forall n | 0 <= n < 3 ensures IsSent(states[j].t.messages, Keys(callId)[n]) {
      assert !ReachedReserved(states, actions, f, callId, n) && f[n].end <= f[2].end;
      ReportIsFinal(states, actions, f[n], Keys(callId)[n], j);
    }
  }

  /** A delivery of a SENT message is refused and changes nothing. */
  lemma SentIsRefused(states: seq<State>, actions: seq<Action>, d: Span, key: MessageKey)
    requires Run(states, actions) && IsDelivery(states, actions, d, key) && IsSent(states[d.begin].t.messages, key)
    ensures d.end == d.begin && states[d.begin + 1] == states[d.begin] && ReportsSent(states, actions, d, key)
  {
    assert Steps(states, actions, d.begin);
  }

  /** .. and every follow-up that begins later is refused each kind, calls nobody and reports
      success again. */
  lemma ReplaysConverge(states: seq<State>, actions: seq<Action>, f: seq<Span>, g: seq<Span>, callId: nat)
    requires Run(states, actions) && IsFollowup(states, actions, f, callId) && IsFollowup(states, actions, g, callId)
    requires Succeeds(states, actions, f, callId) && f[2].end < g[0].begin
    requires forall n :: 0 <= n < 3 ==> !ReachedReserved(states, actions, f, callId, n)
    ensures Succeeds(states, actions, g, callId)
    ensures forall n :: 0 <= n < 3 ==> g[n].end == g[n].begin && states[g[n].begin + 1] == states[g[n].begin]
  {
    forall n | 0 <= n < 3
      ensures g[n].end == g[n].begin && states[g[n].begin + 1] == states[g[n].begin]
      ensures ReportsSent(states, actions, g[n], Keys(callId)[n])
    {
      SuccessIsFinal(states, actions, f, callId, g[n].begin);
      SentIsRefused(states, actions, g[n], Keys(callId)[n]);
    }
  }

  // ---------------------------------------------------------- longer runs

  /** A delivery stays one, and keeps its report, as the run goes on. */
  lemma DeliveryExtends(states: seq<State>, actions: seq<Action>, longer: seq<State>, more: seq<Action>,
                        d: Span, key: MessageKey)
    requires Run(states, actions) && Run(longer, more) && states <= longer && actions <= more
    requires IsDelivery(states, actions, d, key)
    ensures IsDelivery(longer, more, d, key)
    ensures ReportsSent(longer, more, d, key) <==> ReportsSent(states, actions, d, key)
  {
    assert longer[d.begin] == states[d.begin] && longer[d.end] == states[d.end];
    assert forall m :: d.begin <= m <= d.end ==> more[m] == actions[m];
  }
}
