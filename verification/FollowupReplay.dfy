/** Replaying a completed call: which deliveries a follow-up attempts, and what its
    success flag means. */
module FollowupReplay {
  import opened Schema
  import opened Transactions
  import opened Delivery

  function Keys(callId: nat): seq<MessageKey> {
    [MessageKey(callId, FOLLOWUP_TEXT), MessageKey(callId, FOLLOWUP_RESUME), MessageKey(callId, FOLLOWUP_ARCHITECTURE)]
  }

  /** deliver calls the provider exactly when the row is absent or FAILED, and says sent
      exactly when the row ends SENT or was already reserved by someone else. */
  lemma DeliverMeansSent(t: Tables, leadId: nat, key: MessageKey, send: Send)
    ensures var run := Deliver(t, leadId, key, send);
            && (run.called == [key] <==> !Refuses(t.messages, key))
            && (run.called == [] <==> Refuses(t.messages, key))
            && (run.outcome.None? <==> !Refuses(t.messages, key) && send.Raised?)
            && (run.outcome.Some? ==>
                  && (run.outcome.value.sent <==> IsSent(run.t.messages, key) || IsReserved(t.messages, key))
                  && (run.outcome.value.alreadySent <==> Refuses(t.messages, key))
                  && (run.outcome.value.providerMessageId.Some? ==>
                        key in run.t.messages
                        && run.t.messages[key].providerMessageId == run.outcome.value.providerMessageId)
                  && (run.outcome.value.error.Some? <==> !run.outcome.value.sent))
            && (IsReserved(run.t.messages, key) <==> IsReserved(t.messages, key) || run.outcome.None?)
  {
  }

  lemma DeliverTouchesOneKey(t: Tables, leadId: nat, key: MessageKey, send: Send, other: MessageKey)
    requires other != key || Refuses(t.messages, other)
    ensures var run := Deliver(t, leadId, key, send);
            && (other in run.t.messages <==> other in t.messages)
            && (other in t.messages ==> run.t.messages[other] == t.messages[other])
  {
  }

  /** A row that is SENT stays exactly as it is: the set of SENT kinds never shrinks. */
  lemma SentNeverShrinks(t: Tables, leadId: nat, callId: nat, sends: Sends, key: MessageKey)
    requires IsSent(t.messages, key)
    ensures key in SendForCall(t, leadId, callId, sends).t.messages
    ensures SendForCall(t, leadId, callId, sends).t.messages[key] == t.messages[key]
  {
    var keys := Keys(callId);
    var text := Then(Followup(t, [], Some([])), leadId, keys[0], sends[FOLLOWUP_TEXT]);
    DeliverTouchesOneKey(t, leadId, keys[0], sends[FOLLOWUP_TEXT], key);
    var resume := Then(text, leadId, keys[1], sends[FOLLOWUP_RESUME]);
    DeliverTouchesOneKey(text.t, leadId, keys[1], sends[FOLLOWUP_RESUME], key);
    DeliverTouchesOneKey(resume.t, leadId, keys[2], sends[FOLLOWUP_ARCHITECTURE], key);
  }

  function IfOpen(t: Tables, key: MessageKey): seq<MessageKey> {
    if Refuses(t.messages, key) then [] else [key]
  }

  /** One delivery of a follow-up that goes on. */
  ghost predicate Advanced(before: Followup, after: Followup, key: MessageKey) {
    && before.sent.Some?
    && after.sent == Some(before.sent.value + [IsSent(after.t.messages, key) || IsReserved(before.t.messages, key)])
    && after.called == before.called + IfOpen(before.t, key)
    && (IsReserved(after.t.messages, key) <==> IsReserved(before.t.messages, key))
    && (forall other :: other != key ==>
          && (other in after.t.messages <==> other in before.t.messages)
          && (other in before.t.messages ==> after.t.messages[other] == before.t.messages[other]))
  }

  lemma ThenAdvances(before: Followup, leadId: nat, key: MessageKey, send: Send)
    requires Then(before, leadId, key, send).sent.Some?
    ensures Advanced(before, Then(before, leadId, key, send), key)
  {
    DeliverMeansSent(before.t, leadId, key, send);
  }

  lemma GoesOn(before: Followup, leadId: nat, key: MessageKey, send: Send) returns (after: Followup)
    ensures after == Then(before, leadId, key, send)
    ensures before.sent.None? ==> after.sent.None?
    ensures after.sent.Some? ==> Advanced(before, after, key)
  {
    after := Then(before, leadId, key, send);
    if after.sent.Some? { ThenAdvances(before, leadId, key, send); }
  }

  predicate Distinct(keys: seq<MessageKey>) {
    |keys| == 3 && keys[0] != keys[1] && keys[0] != keys[2] && keys[1] != keys[2]
  }

  ghost predicate ThreeSteps(t: Tables, keys: seq<MessageKey>, text: Followup, resume: Followup, last: Followup) {
    && Distinct(keys)
    && Advanced(Followup(t, [], Some([])), text, keys[0])
    && Advanced(text, resume, keys[1])
    && Advanced(resume, last, keys[2])
  }

  lemma ThreeCalled(t: Tables, keys: seq<MessageKey>, text: Followup, resume: Followup, last: Followup)
    requires ThreeSteps(t, keys, text, resume, last)
    ensures last.called == IfOpen(t, keys[0]) + IfOpen(t, keys[1]) + IfOpen(t, keys[2])
  {
    assert Refuses(text.t.messages, keys[1]) <==> Refuses(t.messages, keys[1]);
    assert Refuses(resume.t.messages, keys[2]) <==> Refuses(t.messages, keys[2]);
  }

  /** What each step's flag looked at is what the whole follow-up's tables say. */
  lemma ThreeRows(t: Tables, keys: seq<MessageKey>, text: Followup, resume: Followup, last: Followup)
    requires ThreeSteps(t, keys, text, resume, last)
    ensures IsSent(last.t.messages, keys[0]) == IsSent(text.t.messages, keys[0])
    ensures IsSent(last.t.messages, keys[1]) == IsSent(resume.t.messages, keys[1])
    ensures IsReserved(text.t.messages, keys[1]) == IsReserved(t.messages, keys[1])
    ensures IsReserved(resume.t.messages, keys[2]) == IsReserved(t.messages, keys[2])
    ensures forall n :: 0 <= n < 3 ==> (IsReserved(last.t.messages, keys[n]) <==> IsReserved(t.messages, keys[n]))
  {
  }

  lemma ThreeFlags(t: Tables, keys: seq<MessageKey>, text: Followup, resume: Followup, last: Followup)
    requires ThreeSteps(t, keys, text, resume, last)
    ensures last.sent == Some([IsSent(last.t.messages, keys[0]) || IsReserved(t.messages, keys[0]),
                               IsSent(last.t.messages, keys[1]) || IsReserved(t.messages, keys[1]),
                               IsSent(last.t.messages, keys[2]) || IsReserved(t.messages, keys[2])])
    ensures forall n :: 0 <= n < 3 ==> (IsReserved(last.t.messages, keys[n]) <==> IsReserved(t.messages, keys[n]))
  {
    var a, b, c := IsSent(text.t.messages, keys[0]) || IsReserved(t.messages, keys[0]),
                   IsSent(resume.t.messages, keys[1]) || IsReserved(text.t.messages, keys[1]),
                   IsSent(last.t.messages, keys[2]) || IsReserved(resume.t.messages, keys[2]);
    assert [] + [a] == [a] && [a] + [b] == [a, b] && [a, b] + [c] == [a, b, c];
    ThreeRows(t, keys, text, resume, last);
  }

  lemma FollowupSteps(t: Tables, leadId: nat, callId: nat, sends: Sends)
    returns (text: Followup, resume: Followup, last: Followup)
    requires SendForCall(t, leadId, callId, sends).sent.Some?
    ensures last == SendForCall(t, leadId, callId, sends)
    ensures ThreeSteps(t, Keys(callId), text, resume, last)
  {
    var keys := Keys(callId);
    text := GoesOn(Followup(t, [], Some([])), leadId, keys[0], sends[FOLLOWUP_TEXT]);
    resume := GoesOn(text, leadId, keys[1], sends[FOLLOWUP_RESUME]);
    last := GoesOn(resume, leadId, keys[2], sends[FOLLOWUP_ARCHITECTURE]);
  }

  /** The kinds attempted are exactly those whose row is absent or FAILED, in order, and
      each flag says whether that row is SENT at the end or was already reserved. */
  ghost predicate Answers(t: Tables, keys: seq<MessageKey>, run: Followup)
    requires |keys| == 3
  {
    && run.called == IfOpen(t, keys[0]) + IfOpen(t, keys[1]) + IfOpen(t, keys[2])
    && run.sent.Some? && |run.sent.value| == 3
    && (forall n :: 0 <= n < 3 ==>
          (run.sent.value[n] <==> IsSent(run.t.messages, keys[n]) || IsReserved(t.messages, keys[n])))
    && (forall n :: 0 <= n < 3 ==> (IsReserved(run.t.messages, keys[n]) <==> IsReserved(t.messages, keys[n])))
  }

  lemma ThreeAnswer(t: Tables, keys: seq<MessageKey>, text: Followup, resume: Followup, last: Followup)
    requires ThreeSteps(t, keys, text, resume, last)
    ensures Answers(t, keys, last)
  {
    ThreeCalled(t, keys, text, resume, last);
    ThreeFlags(t, keys, text, resume, last);
  }

  /** Every follow-up that no exception escapes answers so. */
  lemma FlagsMeanSent(t: Tables, leadId: nat, callId: nat, sends: Sends)
    requires SendForCall(t, leadId, callId, sends).sent.Some?
    ensures Answers(t, Keys(callId), SendForCall(t, leadId, callId, sends))
    ensures forall key :: IsSent(t.messages, key) ==>
              && key in SendForCall(t, leadId, callId, sends).t.messages
              && SendForCall(t, leadId, callId, sends).t.messages[key] == t.messages[key]
  {
    forall key | IsSent(t.messages, key)
      ensures key in SendForCall(t, leadId, callId, sends).t.messages
      ensures SendForCall(t, leadId, callId, sends).t.messages[key] == t.messages[key]
    {
      SentNeverShrinks(t, leadId, callId, sends, key);
    }
    var text, resume, last := FollowupSteps(t, leadId, callId, sends);
    ThreeAnswer(t, Keys(callId), text, resume, last);
  }

  /** success is true exactly when each of the three rows ends SENT or was RESERVED when
      the follow-up reached it; with no row RESERVED, exactly when all three end SENT. */
  lemma SuccessMeansAllSent(t: Tables, leadId: nat, callId: nat, sends: Sends)
    requires SendForCall(t, leadId, callId, sends).sent.Some?
    ensures var run := SendForCall(t, leadId, callId, sends);
            var success := |run.sent.value| == 3 && run.sent.value[0] && run.sent.value[1] && run.sent.value[2];
            && (success <==>
                  forall key :: key in Keys(callId) ==> IsSent(run.t.messages, key) || IsReserved(t.messages, key))
            && (NoneReserved(t, Keys(callId)) ==> (success <==> AllSent(run.t, Keys(callId))))
  {
    FlagsMeanSent(t, leadId, callId, sends);
    var run := SendForCall(t, leadId, callId, sends);
    assert forall n :: 0 <= n < 3 ==> Keys(callId)[n] in Keys(callId);
  }

  predicate OpenAndRaises(t: Tables, key: MessageKey, send: Send) {
    !Refuses(t.messages, key) && send.Raised?
  }

  lemma ThenAbandons(before: Followup, leadId: nat, key: MessageKey, send: Send)
    requires before.sent.Some?
    ensures Then(before, leadId, key, send).sent.None? <==> OpenAndRaises(before.t, key, send)
  {
  }

  lemma ThenLeaves(before: Followup, leadId: nat, key: MessageKey, send: Send, other: MessageKey)
    requires other != key
    ensures Refuses(Then(before, leadId, key, send).t.messages, other) <==> Refuses(before.t.messages, other)
    ensures other in Then(before, leadId, key, send).t.messages <==> other in before.t.messages
    ensures other in before.t.messages ==>
              Then(before, leadId, key, send).t.messages[other] == before.t.messages[other]
  {
    if before.sent.Some? { DeliverTouchesOneKey(before.t, leadId, key, send, other); }
  }

  /** A follow-up is abandoned exactly when a send that it makes raises. */
  lemma AbandonedExactly(t: Tables, leadId: nat, callId: nat, sends: Sends)
    ensures SendForCall(t, leadId, callId, sends).sent.None?
       <==> || OpenAndRaises(t, MessageKey(callId, FOLLOWUP_TEXT), sends[FOLLOWUP_TEXT])
            || OpenAndRaises(t, MessageKey(callId, FOLLOWUP_RESUME), sends[FOLLOWUP_RESUME])
            || OpenAndRaises(t, MessageKey(callId, FOLLOWUP_ARCHITECTURE), sends[FOLLOWUP_ARCHITECTURE])
  {
    var keys := Keys(callId);
    var start := Followup(t, [], Some([]));
    var text := GoesOn(start, leadId, keys[0], sends[FOLLOWUP_TEXT]);
    var resume := GoesOn(text, leadId, keys[1], sends[FOLLOWUP_RESUME]);
    var last := GoesOn(resume, leadId, keys[2], sends[FOLLOWUP_ARCHITECTURE]);
    ThenAbandons(start, leadId, keys[0], sends[FOLLOWUP_TEXT]);
    ThenLeaves(start, leadId, keys[0], sends[FOLLOWUP_TEXT], keys[1]);
    ThenLeaves(start, leadId, keys[0], sends[FOLLOWUP_TEXT], keys[2]);
    ThenLeaves(text, leadId, keys[1], sends[FOLLOWUP_RESUME], keys[2]);
    if text.sent.Some? { ThenAbandons(text, leadId, keys[1], sends[FOLLOWUP_RESUME]); }
    if resume.sent.Some? { ThenAbandons(resume, leadId, keys[2], sends[FOLLOWUP_ARCHITECTURE]); }
  }

  /** A step of a follow-up that goes on stores the answer of its own send. */
  lemma ThenStores(before: Followup, leadId: nat, key: MessageKey, send: Send)
    requires Then(before, leadId, key, send).sent.Some? && !Refuses(before.t.messages, key)
    ensures key in Then(before, leadId, key, send).t.messages
    ensures Stores(send, Then(before, leadId, key, send).t.messages[key])
    ensures Reclaims(before.t.messages, leadId, key, Then(before, leadId, key, send).t.messages[key])
  {
    DeliverTells(before.t, leadId, key, send);
  }

  /** Each message a follow-up sends carries the answer of the send of its own kind. */
  lemma EachKindStoresItsAnswer(t: Tables, leadId: nat, callId: nat, sends: Sends, kind: MessageKind)
    requires SendForCall(t, leadId, callId, sends).sent.Some?
    requires kind in {FOLLOWUP_TEXT, FOLLOWUP_RESUME, FOLLOWUP_ARCHITECTURE}
    requires !Refuses(t.messages, MessageKey(callId, kind))
    ensures MessageKey(callId, kind) in SendForCall(t, leadId, callId, sends).t.messages
    ensures var key, after := MessageKey(callId, kind), SendForCall(t, leadId, callId, sends).t.messages;
            Stores(sends[kind], after[key]) && Reclaims(t.messages, leadId, key, after[key])
  {
    var keys := Keys(callId);
    var start := Followup(t, [], Some([]));
    var text := GoesOn(start, leadId, keys[0], sends[FOLLOWUP_TEXT]);
    var resume := GoesOn(text, leadId, keys[1], sends[FOLLOWUP_RESUME]);
    var last := GoesOn(resume, leadId, keys[2], sends[FOLLOWUP_ARCHITECTURE]);
    match kind
    case FOLLOWUP_TEXT => ThenStores(start, leadId, keys[0], sends[FOLLOWUP_TEXT]);
    case FOLLOWUP_RESUME =>
      ThenLeaves(start, leadId, keys[0], sends[FOLLOWUP_TEXT], keys[1]);
      ThenStores(text, leadId, keys[1], sends[FOLLOWUP_RESUME]);
    case FOLLOWUP_ARCHITECTURE =>
      ThenLeaves(start, leadId, keys[0], sends[FOLLOWUP_TEXT], keys[2]);
      ThenLeaves(text, leadId, keys[1], sends[FOLLOWUP_RESUME], keys[2]);
      ThenStores(resume, leadId, keys[2], sends[FOLLOWUP_ARCHITECTURE]);
  }

  lemma ThenSkips(before: Followup, leadId: nat, key: MessageKey, send: Send)
    requires before.sent.Some? && Refuses(before.t.messages, key)
    ensures Then(before, leadId, key, send) == before.(sent := Some(before.sent.value + [true]))
  {
    assert before.called + [] == before.called;
  }

  /** When every row is taken, SENT or RESERVED alike, a replay calls nobody, changes
      nothing and reports success. So a row that is only RESERVED makes success true
      although nothing was sent. */
  lemma TakenRowsReportSuccess(t: Tables, leadId: nat, callId: nat, sends: Sends)
    requires forall key :: key in Keys(callId) ==> Refuses(t.messages, key)
    ensures SendForCall(t, leadId, callId, sends) == Followup(t, [], Some([true, true, true]))
  {
    var keys := Keys(callId);
    assert keys[0] in keys && keys[1] in keys && keys[2] in keys;
    assert [] + [true] == [true] && [true] + [true] == [true, true] && [true, true] + [true] == [true, true, true];
    ThenSkips(Followup(t, [], Some([])), leadId, keys[0], sends[FOLLOWUP_TEXT]);
    ThenSkips(Followup(t, [], Some([true])), leadId, keys[1], sends[FOLLOWUP_RESUME]);
    ThenSkips(Followup(t, [], Some([true, true])), leadId, keys[2], sends[FOLLOWUP_ARCHITECTURE]);
  }

  predicate Delivers(send: Send) {
    send.Ended? && send.outcome.Delivered?
  }

  predicate AllDeliver(sends: Sends) {
    Delivers(sends[FOLLOWUP_TEXT]) && Delivers(sends[FOLLOWUP_RESUME]) && Delivers(sends[FOLLOWUP_ARCHITECTURE])
  }

  /** A delivery that returns a result, of a row nobody has reserved. */
  lemma DeliveredAdvances(before: Followup, leadId: nat, key: MessageKey, send: Send) returns (after: Followup)
    requires before.sent.Some? && !IsReserved(before.t.messages, key)
    requires Delivers(send)
    ensures after == Then(before, leadId, key, send)
    ensures Advanced(before, after, key) && IsSent(after.t.messages, key)
  {
    after := Then(before, leadId, key, send);
    ThenAdvances(before, leadId, key, send);
  }

  predicate AllSent(t: Tables, keys: seq<MessageKey>)
    requires |keys| == 3
  {
    IsSent(t.messages, keys[0]) && IsSent(t.messages, keys[1]) && IsSent(t.messages, keys[2])
  }

  predicate NoneReserved(t: Tables, keys: seq<MessageKey>)
    requires |keys| == 3
  {
    !IsReserved(t.messages, keys[0]) && !IsReserved(t.messages, keys[1]) && !IsReserved(t.messages, keys[2])
  }

  /** When nobody has a row reserved and every send that is made returns a result. */
  lemma DeliveriesSendAll(t: Tables, leadId: nat, callId: nat, sends: Sends)
    requires NoneReserved(t, Keys(callId)) && AllDeliver(sends)
    ensures AllSent(SendForCall(t, leadId, callId, sends).t, Keys(callId))
  {
    var keys := Keys(callId);
    var start := Followup(t, [], Some([]));
    var text := DeliveredAdvances(start, leadId, keys[0], sends[FOLLOWUP_TEXT]);
    var resume := DeliveredAdvances(text, leadId, keys[1], sends[FOLLOWUP_RESUME]);
    var last := DeliveredAdvances(resume, leadId, keys[2], sends[FOLLOWUP_ARCHITECTURE]);
  }

  /** With no row RESERVED, one run whose sends all return a result ends with every row
      SENT, and from then on every replay is a no-op that reports success. */
  lemma FollowupConverges(t: Tables, leadId: nat, callId: nat, sends: Sends, later: Sends)
    requires NoneReserved(t, Keys(callId)) && AllDeliver(sends)
    ensures var run := SendForCall(t, leadId, callId, sends);
            && AllSent(run.t, Keys(callId))
            && SendForCall(run.t, leadId, callId, later) == Followup(run.t, [], Some([true, true, true]))
  {
    DeliveriesSendAll(t, leadId, callId, sends);
    TakenRowsReportSuccess(SendForCall(t, leadId, callId, sends).t, leadId, callId, later);
  }
}
