/** Runs that reach the states in which the code keeps less than its comments promise:
    a completion that is lost, a label that is lost, and follow-ups that report success
    for messages nobody sent. */
module Scenarios {
  import opened Schema
  import opened CallIds
  import opened Transactions
  import opened Delivery
  import opened Protocol
  import opened CallbackInvariant
  import opened Runs
  import opened FollowupReplay
  import opened FollowupRuns

  ghost function Last(states: seq<State>): State
    requires |states| > 0
  {
    states[|states| - 1]
  }

  lemma Continue(states: seq<State>, actions: seq<Action>, action: Action)
    returns (longer: seq<State>, more: seq<Action>)
    requires Run(states, actions) && Enabled(Last(states), action)
    ensures Run(longer, more) && more == actions + [action]
    ensures longer == states + [Apply(Last(states), action)]
  {
    longer, more := states + [Apply(Last(states), action)], actions + [action];
    forall i | 0 <= i < |more| ensures Steps(longer, more, i) {
      assert i < |actions| ==> Steps(states, actions, i);
    }
  }

  const ASKED := ScheduleRequest("web", 1, "now", Some(0), "Asia/Kolkata", None, None)

  lemma Schedules()
    ensures Enabled(START, Schedule(ASKED))
    ensures var s := Apply(START, Schedule(ASKED));
            && s.actors == map[] && s.t.calls.Keys == {"web"} && s.t.callbacks.Keys == {1}
            && Due(s.t.callbacks[1], 0) && s.t.callbacks[1].id == 1
  {
    var called := UpsertCall(START.t, "web", ScheduleWrites(ASKED));
    assert called.callbacks == map[] && !IsScheduled(called.callbacks, 1, 0);
  }

  /** One callback, scheduled from the call "web" and due at once. */
  lemma ScheduledRun() returns (states: seq<State>, actions: seq<Action>)
    ensures Run(states, actions) && actions == [Schedule(ASKED)]
    ensures var s := Last(states);
            && s.actors == map[] && s.t.calls.Keys == {"web"} && s.t.callbacks.Keys == {1}
            && Due(s.t.callbacks[1], 0) && s.t.callbacks[1].id == 1
  {
    Schedules();
    states, actions := [START], [];
    states, actions := Continue(states, actions, Schedule(ASKED));
  }

  const MINTED := MintedId(1, "x")

  /** Worker 1 has placed its dial of callback 1 and not recorded it yet. */
  predicate HasDialled(s: State) {
    && Running(s, 1) && s.actors[1].pc.Dialled?
    && Placed(s.actors[1].pc.result) && s.actors[1].pc.sarvamCallId == MINTED && s.actors[1].pc.row.id == 1
  }

  lemma Dials(s: State)
    requires s.actors == map[] && s.t.calls.Keys == {"web"} && s.t.callbacks.Keys == {1}
    requires Due(s.t.callbacks[1], 0) && s.t.callbacks[1].id == 1
    ensures Enabled(s, LockDue(1, 1, 0))
    ensures var locked := Apply(s, LockDue(1, 1, 0));
            && Enabled(locked, CommitClaim(1, "x"))
            && var claimed := Apply(locked, CommitClaim(1, "x"));
            && claimed.actors.Keys == {1} && claimed.t.calls == s.t.calls
            && Running(claimed, 1) && claimed.actors[1].pc.Dialling?
            && claimed.actors[1].pc.sarvamCallId == MINTED && claimed.actors[1].pc.row.id == 1
  {
  }

  lemma DialReturned(s: State)
    requires s.actors.Keys == {1} && Running(s, 1) && s.actors[1].pc.Dialling?
    requires s.actors[1].pc.sarvamCallId == MINTED && s.actors[1].pc.row.id == 1
    ensures Enabled(s, DialReturns(1, Http(200, Some("y"))))
    ensures var u := Apply(s, DialReturns(1, Http(200, Some("y"))));
            HasDialled(u) && u.actors.Keys == {1} && u.t == s.t
  {
    assert MINTED[0] == 'c';
  }

  lemma ClaimedRun() returns (states: seq<State>, actions: seq<Action>)
    ensures Run(states, actions) && actions == [Schedule(ASKED), LockDue(1, 1, 0), CommitClaim(1, "x")]
    ensures var s := Last(states);
            && s.actors.Keys == {1} && Running(s, 1) && s.actors[1].pc.Dialling?
            && s.actors[1].pc.sarvamCallId == MINTED && s.actors[1].pc.row.id == 1
            && s.t.calls.Keys == {"web"}
  {
    states, actions := ScheduledRun();
    Dials(Last(states));
    states, actions := Continue(states, actions, LockDue(1, 1, 0));
    states, actions := Continue(states, actions, CommitClaim(1, "x"));
  }

  lemma DialledRun() returns (states: seq<State>, actions: seq<Action>)
    ensures Run(states, actions) && HasDialled(Last(states))
    ensures Last(states).actors.Keys == {1} && Last(states).t.calls.Keys == {"web"}
    ensures actions == [Schedule(ASKED), LockDue(1, 1, 0), CommitClaim(1, "x"), DialReturns(1, Http(200, Some("y")))]
  {
    states, actions := ClaimedRun();
    DialReturned(Last(states));
    states, actions := Continue(states, actions, DialReturns(1, Http(200, Some("y"))));
  }

  const ENDED := CompletionRequest(MINTED, 1, None, Closing(None, [], None, None, None))

  /** Actor 2 reads the call, before or after it is recorded, and later writes it. */
  lemma ReadsCall(s: State)
    requires 2 !in s.actors
    ensures Enabled(s, ReadCall(2, ENDED))
    ensures var u := Apply(s, ReadCall(2, ENDED));
            && u.t == s.t && u.actors == s.actors[2 := Actor(Completing(ENDED, DirectionOf(s.t.calls, MINTED)), true)]
            && (HasDialled(s) ==> HasDialled(u))
  {
  }

  lemma WritesCall(s: State)
    requires Running(s, 2) && s.actors[2].pc.Completing? && s.actors[2].pc.completion == ENDED
    ensures Enabled(s, CompleteCall(2, 0))
    ensures var u := Apply(s, CompleteCall(2, 0));
            && u.actors == s.actors - {2} && (HasDialled(s) ==> HasDialled(u))
            && MINTED in u.t.calls && u.t.calls[MINTED].closing == Some(ENDED.closing)
            && (MINTED in s.t.calls ==> u.t.calls[MINTED].callbackId == s.t.calls[MINTED].callbackId)
            && (s.actors[2].pc.seen.None? ==> u.t.calls[MINTED].direction == INITIAL)
  {
  }

  /** The worker records the dial, and keeps what a completion has written. */
  lemma Records(states: seq<State>, actions: seq<Action>) returns (longer: seq<State>, more: seq<Action>)
    requires Run(states, actions) && HasDialled(Last(states))
    ensures Run(longer, more) && more == actions + [RecordDial(1)]
    ensures var s, u := Last(states), Last(longer);
            && u.actors == s.actors - {1} && LinksTo(u.t.calls, MINTED, 1)
            && 1 in u.t.callbacks && u.t.callbacks[1].status == IN_PROGRESS && u.t.callbacks[1].claimedAt.None?
            && (MINTED in s.t.calls ==> u.t.calls[MINTED].closing == s.t.calls[MINTED].closing)
  {
    WorkerWritesLoseNothing(states, actions, |actions|, 1);
    longer, more := Continue(states, actions, RecordDial(1));
    assert longer[|actions|] == Last(states);
    RecordAt(longer, more, |actions|);
  }

  /** The lost completion happens: the call of callback 1 has been completed and nobody is
      running any more, but the callback is left IN_PROGRESS. */
  lemma LostCompletionHappens() returns (states: seq<State>, actions: seq<Action>)
    ensures Run(states, actions) && Last(states).actors == map[]
    ensures var t := Last(states).t;
            && LinksTo(t.calls, MINTED, 1) && t.calls[MINTED].closing == Some(ENDED.closing)
            && 1 in t.callbacks && t.callbacks[1].status == IN_PROGRESS && t.callbacks[1].claimedAt.None?
  {
    states, actions := DialledRun();
    ReadsCall(Last(states));
    states, actions := Continue(states, actions, ReadCall(2, ENDED));
    WritesCall(Last(states));
    states, actions := Continue(states, actions, CompleteCall(2, 0));
    states, actions := Records(states, actions);
  }

  /** Actor 2 reads the call that is not there yet, and the worker records it. */
  lemma StaleRun(states: seq<State>, actions: seq<Action>) returns (longer: seq<State>, more: seq<Action>)
    requires Run(states, actions) && HasDialled(Last(states))
    requires 2 !in Last(states).actors && MINTED !in Last(states).t.calls
    ensures Run(longer, more) && more == actions + [ReadCall(2, ENDED), RecordDial(1)]
    ensures var u := Last(longer);
            LinksTo(u.t.calls, MINTED, 1) && 2 in u.actors && u.actors[2] == Actor(Completing(ENDED, None), true)
  {
    ReadsCall(Last(states));
    longer, more := Continue(states, actions, ReadCall(2, ENDED));
    longer, more := Records(longer, more);
    assert more == actions + [ReadCall(2, ENDED), RecordDial(1)];
  }

  /** Neither schedule nor the high-intent tool is called for this call. */
  predicate Spares(actions: seq<Action>, id: string) {
    forall m :: 0 <= m < |actions| ==>
      && (actions[m].Schedule? ==> actions[m].schedule.sarvamCallId != id)
      && (actions[m].Capture? ==> actions[m].sarvamCallId != id)
  }

  /** The lost label happens: neither schedule nor the high-intent tool was ever called for
      the call of callback 1, yet it ends up labelled INITIAL. */
  lemma LostLabelHappens() returns (states: seq<State>, actions: seq<Action>)
    ensures Run(states, actions) && Spares(actions, MINTED)
    ensures LinksTo(Last(states).t.calls, MINTED, 1) && Last(states).t.calls[MINTED].direction == INITIAL
  {
    states, actions := DialledRun();
    assert "web"[0] != MINTED[0];
    states, actions := StaleRun(states, actions);
    WritesCall(Last(states));
    states, actions := Continue(states, actions, CompleteCall(2, 0));
  }

  const WEB_ENDED := ENDED.(sarvamCallId := "web")

  /** The call of tool id "web" is call 1 and has been completed. */
  predicate WebCompleted(t: Tables) {
    "web" in t.calls && t.calls["web"].id == 1 && t.calls["web"].closing.Some?
  }

  /** Actor a completes that call, for the first time or again. */
  lemma CompletesWeb(states: seq<State>, actions: seq<Action>, a: nat)
    returns (longer: seq<State>, more: seq<Action>)
    requires Run(states, actions) && a !in Last(states).actors
    requires WebCompleted(Last(states).t) || Last(states) == START
    ensures Run(longer, more) && more == actions + [ReadCall(a, WEB_ENDED), CompleteCall(a, 0)]
    ensures var s, u := Last(states), Last(longer);
            && WebCompleted(u.t) && u.t.messages == s.t.messages
            && u.actors == s.actors && u.provider == s.provider
  {
    var s := Last(states);
    longer, more := Continue(states, actions, ReadCall(a, WEB_ENDED));
    longer, more := Continue(longer, more, CompleteCall(a, 0));
    assert s.actors[a := Actor(Completing(WEB_ENDED, DirectionOf(s.t.calls, "web")), true)] - {a} == s.actors;
  }

  /** The follow-up of a completion reserves a message and crashes in its send. */
  lemma CrashedSend(states: seq<State>, actions: seq<Action>, a: nat, key: MessageKey)
    returns (longer: seq<State>, more: seq<Action>)
    requires Run(states, actions) && a !in Last(states).actors && key !in Last(states).t.messages
    requires WebCompleted(Last(states).t) && key.callId == 1
    ensures Run(longer, more)
    ensures var s, u := Last(states), Last(longer);
            && WebCompleted(u.t) && u.actors.Keys == s.actors.Keys + {a}
            && u.t.messages.Keys == s.t.messages.Keys + {key}
            && (forall k :: k in s.t.messages ==> u.t.messages[k] == s.t.messages[k])
            && IsReserved(u.t.messages, key)
            && u.provider == s.provider + [Called(key)]
  {
    longer, more := Continue(states, actions, Reserve(a, 1, key));
    longer, more := Continue(longer, more, Crash(a));
  }

  lemma CrashedCompletion(states: seq<State>, actions: seq<Action>, a: nat, key: MessageKey)
    returns (longer: seq<State>, more: seq<Action>)
    requires Run(states, actions) && a !in Last(states).actors && key !in Last(states).t.messages
    requires (WebCompleted(Last(states).t) || Last(states) == START) && key.callId == 1
    ensures Run(longer, more)
    ensures var s, u := Last(states), Last(longer);
            && WebCompleted(u.t) && u.actors.Keys == s.actors.Keys + {a}
            && u.t.messages.Keys == s.t.messages.Keys + {key}
            && (forall k :: k in s.t.messages ==> u.t.messages[k] == s.t.messages[k])
            && IsReserved(u.t.messages, key)
            && u.provider == s.provider + [Called(key)]
  {
    longer, more := CompletesWeb(states, actions, a);
    longer, more := CrashedSend(longer, more, a, key);
  }

  /** A completion and two replays of it have each crashed in the send of another message. */
  lemma CrashedRun() returns (states: seq<State>, actions: seq<Action>)
    ensures Run(states, actions) && WebCompleted(Last(states).t)
    ensures var s, keys := Last(states), Keys(1);
            && s.provider == [Called(keys[0]), Called(keys[1]), Called(keys[2])]
            && (forall key :: key in s.t.messages ==> key in keys)
            && (forall key :: key in keys ==> IsReserved(s.t.messages, key))
  {
    var keys := Keys(1);
    states, actions := [START], [];
    states, actions := CrashedCompletion(states, actions, 1, keys[0]);
    states, actions := CrashedCompletion(states, actions, 2, keys[1]);
    states, actions := CrashedCompletion(states, actions, 3, keys[2]);
  }

  /** The hollow success happens: call 1 is completed, and the completion and two replays of
      it have each crashed in one send; a replay's deliveries of the kinds that are taken
      change nothing and are left out. The provider has never answered and no message is SENT,
      yet the next follow-up calls nobody and reports that all three were sent. */
  lemma HollowSuccessHappens() returns (states: seq<State>, actions: seq<Action>)
    ensures Run(states, actions) && WebCompleted(Last(states).t)
    ensures forall p :: 0 <= p < |Last(states).provider| ==> Last(states).provider[p].Called?
    ensures forall key :: !IsSent(Last(states).t.messages, key)
    ensures forall sends ::
              SendForCall(Last(states).t, 1, 1, sends) == Followup(Last(states).t, [], Some([true, true, true]))
  {
    states, actions := CrashedRun();
    var t := Last(states).t;
    forall key ensures !IsSent(t.messages, key) {
      assert key in t.messages ==> IsReserved(t.messages, key);
    }
    forall sends ensures SendForCall(t, 1, 1, sends) == Followup(t, [], Some([true, true, true])) {
      TakenRowsReportSuccess(t, 1, 1, sends);
    }
  }

  // ------------------------------------------- two completions at the same time

  /** The provider has returned a result for a message nobody had taken. */
  lemma SendsOne(states: seq<State>, actions: seq<Action>, a: nat, key: MessageKey)
    returns (longer: seq<State>, more: seq<Action>)
    requires Run(states, actions) && a !in Last(states).actors && WebCompleted(Last(states).t)
    requires key.callId == 1 && !Refuses(Last(states).t.messages, key)
    ensures Run(longer, more) && states <= longer
    ensures more == actions + [Reserve(a, 1, key), SendReturns(a, Delivered("m"))]
    ensures var s, u := Last(states), Last(longer);
            && WebCompleted(u.t) && u.actors == s.actors[a := Actor(Returned(1, key, Delivered("m")), true)]
            && u.t.messages.Keys == s.t.messages.Keys + {key}
            && forall k :: k in s.t.messages && k != key ==> u.t.messages[k] == s.t.messages[k]
  {
    longer, more := Continue(states, actions, Reserve(a, 1, key));
    longer, more := Continue(longer, more, SendReturns(a, Delivered("m")));
  }

  lemma IsWholeDelivery(states: seq<State>, actions: seq<Action>, d: Span, a: nat, key: MessageKey)
    requires Run(states, actions) && d.end == d.begin + 2 < |actions| && !Refuses(states[d.begin].t.messages, key)
    requires actions[d.begin] == Reserve(a, 1, key) && actions[d.end] == RecordSend(a, 0)
    requires actions[d.begin + 1] == SendReturns(a, Delivered("m"))
    requires PcAt(states, actions, d.end).outcome.Delivered?
    ensures IsDelivery(states, actions, d, key) && ReportsSent(states, actions, d, key)
  {
  }

  /** One message is delivered without a fault. */
  lemma DeliversOne(states: seq<State>, actions: seq<Action>, a: nat, key: MessageKey)
    returns (longer: seq<State>, more: seq<Action>, d: Span)
    requires Run(states, actions) && a !in Last(states).actors && WebCompleted(Last(states).t)
    requires key.callId == 1 && !Refuses(Last(states).t.messages, key)
    ensures Run(longer, more) && states <= longer && actions <= more
    ensures d == Span(|actions|, |actions| + 2) && |more| == |actions| + 3
    ensures IsDelivery(longer, more, d, key) && ReportsSent(longer, more, d, key)
    ensures var s, u := Last(states), Last(longer);
            && WebCompleted(u.t) && u.actors == s.actors && u.t.messages.Keys == s.t.messages.Keys + {key}
            && forall k :: k in s.t.messages && k != key ==> u.t.messages[k] == s.t.messages[k]
  {
    d := Span(|actions|, |actions| + 2);
    var s := Last(states);
    longer, more := SendsOne(states, actions, a, key);
    var returned := Last(longer);
    longer, more := Continue(longer, more, RecordSend(a, 0));
    assert returned.actors - {a} == s.actors && longer[d.begin] == s && longer[d.end] == returned;
    IsWholeDelivery(longer, more, d, a, key);
  }

  lemma IsRefused(states: seq<State>, actions: seq<Action>, a: nat, key: MessageKey)
    returns (longer: seq<State>, more: seq<Action>, d: Span)
    requires Run(states, actions) && a !in Last(states).actors && WebCompleted(Last(states).t)
    requires key.callId == 1 && Refuses(Last(states).t.messages, key)
    ensures Run(longer, more) && states <= longer && actions <= more
    ensures d == Span(|actions|, |actions|) && |more| == |actions| + 1
    ensures IsDelivery(longer, more, d, key) && ReportsSent(longer, more, d, key)
    ensures Last(longer) == Last(states)
  {
    d := Span(|actions|, |actions|);
    longer, more := Continue(states, actions, Reserve(a, 1, key));
    assert longer[d.begin] == Last(states) && more[d.begin] == Reserve(a, 1, key);
  }

  /** Actor 1's follow-up has sent the text, and actor 2's has reserved the resume. */
  lemma TextRun() returns (states: seq<State>, actions: seq<Action>, text: Span)
    ensures Run(states, actions) && WebCompleted(Last(states).t)
    ensures IsDelivery(states, actions, text, Keys(1)[0]) && ReportsSent(states, actions, text, Keys(1)[0])
    ensures text.end < |actions| && states[text.begin].t.messages == map[]
    ensures var s, resume := Last(states), Keys(1)[1];
            && s.actors == map[2 := Actor(Sending(1, resume), true)]
            && s.t.messages.Keys == {Keys(1)[0], resume} && IsReserved(s.t.messages, resume)
  {
    states, actions := [START], [];
    states, actions := CompletesWeb(states, actions, 1);
    states, actions := CompletesWeb(states, actions, 2);
    var first := states;
    states, actions, text := DeliversOne(states, actions, 1, Keys(1)[0]);
    assert states[text.begin] == Last(first);
    var before, did := states, actions;
    states, actions := Continue(states, actions, Reserve(2, 1, Keys(1)[1]));
    DeliveryExtends(before, did, states, actions, text, Keys(1)[0]);
  }

  /** Two completions of call 1 are followed up at the same time, by actors 1 and 2. Actor 1
      finds no message reserved by anyone as it starts; actor 2 reserves the resume before
      actor 1 gets to it. */
  lemma OvertakenRun() returns (states: seq<State>, actions: seq<Action>, f: seq<Span>)
    ensures Run(states, actions) && IsFollowup(states, actions, f, 1) && Succeeds(states, actions, f, 1)
    ensures states[f[0].begin].t.messages == map[]
    ensures var s, resume := Last(states), Keys(1)[1];
            && s.actors == map[2 := Actor(Sending(1, resume), true)] && resume in s.t.messages
  {
    var keys := Keys(1);
    var text, resume, architecture;
    states, actions, text := TextRun();
    var textStates, textActions := states, actions;
    states, actions, resume := IsRefused(states, actions, 1, keys[1]);
    var resumeStates, resumeActions := states, actions;
    states, actions, architecture := DeliversOne(states, actions, 1, keys[2]);
    DeliveryExtends(textStates, textActions, states, actions, text, keys[0]);
    DeliveryExtends(resumeStates, resumeActions, states, actions, resume, keys[1]);
    f := [text, resume, architecture];
  }

  /** The false success happens: actor 1's follow-up started with no row RESERVED and reported
      success, and then the send it had counted on fails: the resume ends FAILED, with nobody
      running any more. */
  lemma FalseSuccessHappens() returns (states: seq<State>, actions: seq<Action>, f: seq<Span>)
    ensures Run(states, actions) && IsFollowup(states, actions, f, 1) && Succeeds(states, actions, f, 1)
    ensures forall key :: !IsReserved(states[f[0].begin].t.messages, key)
    ensures Last(states).actors == map[]
    ensures var messages, resume := Last(states).t.messages, Keys(1)[1];
            resume in messages && messages[resume].status == MessageStatus.FAILED
  {
    states, actions, f := OvertakenRun();
    var before, did := states, actions;
    states, actions := Continue(states, actions, SendReturns(2, ProviderError));
    states, actions := Continue(states, actions, RecordSend(2, 0));
    FollowupExtends(before, did, states, actions, f);
    assert states[f[0].begin] == before[f[0].begin];
  }

  lemma FollowupExtends(states: seq<State>, actions: seq<Action>, longer: seq<State>, more: seq<Action>, f: seq<Span>)
    requires Run(states, actions) && Run(longer, more) && states <= longer && actions <= more
    requires IsFollowup(states, actions, f, 1) && Succeeds(states, actions, f, 1)
    ensures IsFollowup(longer, more, f, 1) && Succeeds(longer, more, f, 1)
  {
    forall n | 0 <= n < 3
      ensures IsDelivery(longer, more, f[n], Keys(1)[n]) && ReportsSent(longer, more, f[n], Keys(1)[n])
    {
      assert ReportsSent(states, actions, f[n], Keys(1)[n]);
      DeliveryExtends(states, actions, longer, more, f[n], Keys(1)[n]);
    }
  }
}
