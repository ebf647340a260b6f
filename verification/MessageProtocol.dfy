/** Message delivery under interleaving: who may be sending, what the provider saw,
    and that the audit log replays to the message rows. */
module MessageProtocol {
  import opened Schema
  import opened EventLog
  import opened Transactions
  import opened Protocol

  // -------------------------------------------------- what the provider saw

  /** Quiet: every call so far was answered with an error. Broken: two calls
      overlapped, or one followed a delivery. */
  datatype Line = Quiet | Calling | Succeeded | Broken

  function LineNext(line: Line, event: ProviderEvent, key: MessageKey): Line {
    if event.key != key then line
    else
      match event
      case Called(_) => if line == Quiet then Calling else Broken
      case Answered(_, outcome) =>
        if line != Calling then Broken
        else if outcome.Delivered? then Succeeded
        else Quiet
  }

  function LineOf(provider: seq<ProviderEvent>, key: MessageKey): Line {
    if |provider| == 0 then Quiet
    else LineNext(LineOf(provider[..|provider| - 1], key), provider[|provider| - 1], key)
  }

  lemma LineAppend(provider: seq<ProviderEvent>, event: ProviderEvent, key: MessageKey)
    ensures LineOf(provider + [event], key) == LineNext(LineOf(provider, key), event, key)
  {
    assert (provider + [event])[..|provider|] == provider;
  }

  // ------------------------------------------------------------- invariant

  predicate Sender(pc: Pc) {
    pc.Sending? || pc.Returned?
  }

  predicate HasSend(pc: Pc, key: MessageKey) {
    Sender(pc) && pc.key == key
  }

  predicate Sends(s: State, a: nat, key: MessageKey) {
    a in s.actors && HasSend(s.actors[a].pc, key)
  }

  function ExpectedLine(pc: Pc): Line {
    match pc
    case Returned(_, _, outcome) => if outcome.Delivered? then Succeeded else Quiet
    case _ => Calling
  }

  /** A reserved row has exactly one owner, live or crashed; other rows have none. */
  ghost predicate SendersInv(s: State) {
    && (forall a, key :: Sends(s, a, key) ==>
          IsReserved(s.t.messages, key) && LineOf(s.provider, key) == ExpectedLine(s.actors[a].pc))
    && (forall a, b, key :: Sends(s, a, key) && Sends(s, b, key) ==> a == b)
    && (forall key :: IsReserved(s.t.messages, key) ==> exists a :: Sends(s, a, key))
  }

  predicate LineAgrees(s: State, key: MessageKey) {
    if key !in s.t.messages || s.t.messages[key].status == MessageStatus.FAILED then
      LineOf(s.provider, key) == Quiet
    else if s.t.messages[key].status == SENT then LineOf(s.provider, key) == Succeeded
    else LineOf(s.provider, key) != Broken
  }

  /** The columns a row may carry in each status. */
  predicate WellFormed(key: MessageKey, row: Message) {
    && row.key == key && row.attemptCount >= 1
    && (row.sentAt.Some? <==> row.status == SENT)
    && (row.providerMessageId.Some? <==> row.status == SENT)
    && (row.lastError.Some? <==> row.status == MessageStatus.FAILED)
  }

  function Reported(row: Message): Delivery {
    Delivery(row.status, row.attemptCount, row.providerMessageId, row.lastError)
  }

  /** The log of this message determines its row. */
  predicate ReplayAgrees(t: Tables, key: MessageKey) {
    if key in t.messages then
      var row := t.messages[key];
      && WellFormed(key, row)
      && Replay(t.events, key) == Some(Reported(row))
      && DeliveriesOf(t.events, key).requested == row.attemptCount
      && DeliveriesOf(t.events, key).sent == (if row.status == SENT then 1 else 0)
      && DeliveriesOf(t.events, key).sent + DeliveriesOf(t.events, key).failed
           == row.attemptCount - (if row.status == RESERVED then 1 else 0)
    else
      Replay(t.events, key).None? && DeliveriesOf(t.events, key) == Deliveries(0, 0, 0)
  }

  ghost predicate ReplayInv(t: Tables) {
    forall key: MessageKey :: ReplayAgrees(t, key)
  }

  ghost predicate LinesInv(s: State) {
    forall key: MessageKey :: LineAgrees(s, key)
  }

  ghost predicate MessageInv(s: State) {
    ReplayInv(s.t) && SendersInv(s) && LinesInv(s)
  }

  // ------------------------------------------------------------ the replay

  predicate IsDeliveryEvent(eventType: EventType) {
    exists kind: MessageKind :: eventType in {RequestedEvent(kind), SentEvent(kind), FailedEvent(kind)}
  }

  /** An event that is not about this message, with its row unchanged. */
  lemma ReplayFrame(t: Tables, u: Tables, event: Event, key: MessageKey)
    requires ReplayAgrees(t, key) && u.events == t.events + [event] && !Concerns(event, key)
    requires key in u.messages <==> key in t.messages
    requires key in u.messages ==> u.messages[key] == t.messages[key]
    ensures ReplayAgrees(u, key)
  {
    ReplayAppend(t.events, event, key);
    DeliveriesAppend(t.events, event, key);
  }

  lemma ReserveKeepsReplay(t: Tables, leadId: nat, key: MessageKey)
    requires ReplayInv(t) && !Refuses(t.messages, key)
    ensures ReplayInv(ReserveTx(t, leadId, key))
  {
    var u := ReserveTx(t, leadId, key);
    var event := u.events[|t.events|];
    forall k: MessageKey ensures ReplayAgrees(u, k) {
      assert ReplayAgrees(t, k);
      if k == key {
        ReplayAppend(t.events, event, key);
        DeliveriesAppend(t.events, event, key);
      } else {
        assert !Concerns(event, k);
        ReplayFrame(t, u, event, k);
      }
    }
  }

  lemma SettleKeepsReplay(t: Tables, leadId: nat, key: MessageKey, outcome: SendOutcome, now: Instant)
    requires ReplayInv(t) && IsReserved(t.messages, key)
    ensures ReplayInv(SettleTx(t, leadId, key, outcome, now))
  {
    var u := SettleTx(t, leadId, key, outcome, now);
    var event := u.events[|t.events|];
    forall k: MessageKey ensures ReplayAgrees(u, k) {
      assert ReplayAgrees(t, k);
      if k == key {
        ReplayAppend(t.events, event, key);
        DeliveriesAppend(t.events, event, key);
      } else {
        assert !Concerns(event, k);
        ReplayFrame(t, u, event, k);
      }
    }
  }

  /** Callback and call transactions leave messages alone and log other events. */
  lemma CallbackTxKeepsReplay(t: Tables, u: Tables)
    requires ReplayInv(t) && u.messages == t.messages
    requires |u.events| == |t.events| + 1 && u.events[..|t.events|] == t.events
    requires !IsDeliveryEvent(u.events[|t.events|].eventType)
    ensures ReplayInv(u)
  {
    var event := u.events[|t.events|];
    assert u.events == t.events + [event];
    forall key: MessageKey ensures ReplayAgrees(u, key) {
      assert ReplayAgrees(t, key);
      ReplayFrame(t, u, event, key);
    }
  }

  lemma UnloggedKeepsReplay(t: Tables, u: Tables)
    requires ReplayInv(t) && u.messages == t.messages && u.events == t.events
    ensures ReplayInv(u)
  {
    forall key: MessageKey ensures ReplayAgrees(u, key) {
      assert ReplayAgrees(t, key);
    }
  }

  lemma CompleteKeepsReplay(t: Tables, request: CompletionRequest, seen: Option<CallDirection>, now: Instant)
    requires ReplayInv(t)
    ensures ReplayInv(CompleteCallTx(t, request, seen, now))
  {
    var closed := CompletedCall(t, request, seen);
    var u := CompleteCallTx(t, request, seen, now);
    CallbackTxKeepsReplay(t, closed);
    if |u.events| == |closed.events| {
      UnloggedKeepsReplay(closed, u);
    } else {
      CallbackTxKeepsReplay(closed, u);
    }
  }

  // --------------------------------------------------------- the actions

  lemma ReserveKeeps(s: State, a: nat, leadId: nat, key: MessageKey)
    requires MessageInv(s) && Enabled(s, Reserve(a, leadId, key)) && !Refuses(s.t.messages, key)
    ensures MessageInv(Apply(s, Reserve(a, leadId, key)))
  {
    var u := Apply(s, Reserve(a, leadId, key));
    ReserveKeepsReplay(s.t, leadId, key);
    forall k: MessageKey
      ensures LineAgrees(u, k)
      ensures LineOf(u.provider, k) == LineNext(LineOf(s.provider, k), Called(key), k)
    {
      assert LineAgrees(s, k);
      LineAppend(s.provider, Called(key), k);
    }
    assert LineAgrees(s, key);
    forall b, k | Sends(u, b, k) ensures if b == a then k == key else Sends(s, b, k) && k != key {
      if b != a { assert Sends(s, b, k); }
    }
    assert Sends(u, a, key);
    forall k | IsReserved(u.t.messages, k) ensures exists b :: Sends(u, b, k) {
      if k != key {
        assert IsReserved(s.t.messages, k);
        var b :| Sends(s, b, k);
        assert Sends(u, b, k);
      }
    }
  }

  lemma SendReturnsKeeps(s: State, a: nat, outcome: SendOutcome)
    requires MessageInv(s) && Enabled(s, SendReturns(a, outcome))
    ensures MessageInv(Apply(s, SendReturns(a, outcome)))
  {
    var u := Apply(s, SendReturns(a, outcome));
    var key := s.actors[a].pc.key;
    var event := Answered(key, outcome);
    assert Sends(s, a, key);
    forall k: MessageKey
      ensures LineAgrees(u, k)
      ensures LineOf(u.provider, k) == LineNext(LineOf(s.provider, k), event, k)
    {
      assert LineAgrees(s, k);
      LineAppend(s.provider, event, k);
    }
    forall b, k ensures Sends(u, b, k) <==> Sends(s, b, k) {}
    forall k | IsReserved(u.t.messages, k) ensures exists b :: Sends(u, b, k) {
      var b :| Sends(s, b, k);
      assert Sends(u, b, k);
    }
  }

  lemma RecordSendKeeps(s: State, a: nat, now: Instant)
    requires MessageInv(s) && Enabled(s, RecordSend(a, now))
    ensures MessageInv(Apply(s, RecordSend(a, now)))
  {
    var u := Apply(s, RecordSend(a, now));
    var pc := s.actors[a].pc;
    assert Sends(s, a, pc.key);
    SettleKeepsReplay(s.t, pc.leadId, pc.key, pc.outcome, now);
    forall b, k | Sends(u, b, k) ensures Sends(s, b, k) && k != pc.key {
      assert Sends(s, b, k);
    }
    forall k: MessageKey ensures LineAgrees(u, k) {
      assert LineAgrees(s, k);
    }
    forall k | IsReserved(u.t.messages, k) ensures exists b :: Sends(u, b, k) {
      assert IsReserved(s.t.messages, k) && k != pc.key;
      var b :| Sends(s, b, k);
      assert Sends(u, b, k);
    }
  }

  /** An action that leaves messages, the provider and every sender alone. */
  lemma SendersFrame(s: State, u: State)
    requires SendersInv(s) && LinesInv(s)
    requires u.t.messages == s.t.messages && u.provider == s.provider
    requires forall b, k :: Sends(u, b, k) <==> Sends(s, b, k)
    requires forall b :: b in u.actors && b in s.actors && Sender(s.actors[b].pc) ==>
               u.actors[b].pc == s.actors[b].pc
    ensures SendersInv(u) && LinesInv(u)
  {
    forall k | IsReserved(u.t.messages, k) ensures exists b :: Sends(u, b, k) {
      var b :| Sends(s, b, k);
      assert Sends(u, b, k);
    }
    forall k: MessageKey ensures LineAgrees(u, k) {
      assert LineAgrees(s, k);
    }
  }

  lemma OtherKeepReplay(s: State, action: Action)
    requires ReplayInv(s.t) && Enabled(s, action) && LeavesMessages(action)
    ensures ReplayInv(Apply(s, action).t)
  {
    var u := Apply(s, action);
    match action
    case CommitClaim(_, _) => CallbackTxKeepsReplay(s.t, u.t);
    case RecordDial(_) => CallbackTxKeepsReplay(s.t, u.t);
    case Schedule(request) =>
      if request.callbackTime.Some? { CallbackTxKeepsReplay(s.t, u.t); }
    case Capture(_, _, _) => UnloggedKeepsReplay(s.t, u.t);
    case CompleteCall(a, now) => CompleteKeepsReplay(s.t, s.actors[a].pc.completion, s.actors[a].pc.seen, now);
    case _ =>
  }

  /** The actions that neither write messages nor call the provider. */
  predicate LeavesMessages(action: Action) {
    !action.Reserve? && !action.SendReturns? && !action.RecordSend?
  }

  lemma OthersLeaveMessages(s: State, action: Action)
    requires Enabled(s, action) && LeavesMessages(action)
    ensures Apply(s, action).t.messages == s.t.messages && Apply(s, action).provider == s.provider
    ensures forall b, k :: Sends(Apply(s, action), b, k) <==> Sends(s, b, k)
    ensures forall b :: b in Apply(s, action).actors && b in s.actors && Sender(s.actors[b].pc) ==>
              Apply(s, action).actors[b].pc == s.actors[b].pc
  {
  }

  lemma OtherKeepSenders(s: State, action: Action)
    requires SendersInv(s) && LinesInv(s) && Enabled(s, action) && LeavesMessages(action)
    ensures SendersInv(Apply(s, action)) && LinesInv(Apply(s, action))
  {
    OthersLeaveMessages(s, action);
    SendersFrame(s, Apply(s, action));
  }

  lemma StepKeepsMessageInv(s: State, action: Action)
    requires MessageInv(s) && Enabled(s, action)
    ensures MessageInv(Apply(s, action))
  {
    match action
    case Reserve(a, leadId, key) =>
      if !Refuses(s.t.messages, key) { ReserveKeeps(s, a, leadId, key); }
    case SendReturns(a, outcome) => SendReturnsKeeps(s, a, outcome);
    case RecordSend(a, now) => RecordSendKeeps(s, a, now);
    case _ =>
      OtherKeepReplay(s, action);
      OtherKeepSenders(s, action);
  }
}
