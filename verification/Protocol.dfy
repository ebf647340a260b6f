/** The interleaving of any number of workers, tool requests and deliveries over
    one database. An action is the code between two commits, except that a claim is
    split into taking the row lock and committing, and a completion into reading the
    call row and writing it. */
module Protocol {
  import opened Schema
  import opened CallIds
  import opened Transactions

  datatype Pc =
    /** claim_due holds the row lock; row is the row as read, the update is uncommitted. */
    | Claiming(row: Callback, now: Instant)
    /** The claim is committed and place_call is running; row is the session's copy. */
    | Dialling(row: Callback, now: Instant, sarvamCallId: string)
    | Dialled(row: Callback, now: Instant, sarvamCallId: string, result: DialResult)
    /** The reservation is committed and send() is running. */
    | Sending(leadId: nat, key: MessageKey)
    | Returned(leadId: nat, key: MessageKey, outcome: SendOutcome)
    /** complete_call has read the call row and not yet written it. */
    | Completing(completion: CompletionRequest, seen: Option<CallDirection>)

  /** A crashed actor never acts again. Its uncommitted writes and locks are gone;
      it is kept to say who owned what it had committed. */
  datatype Actor = Actor(pc: Pc, alive: bool)

  datatype ProviderEvent = Called(key: MessageKey) | Answered(key: MessageKey, outcome: SendOutcome)

  /** claims and provider are history: the instants of the committed claims of each
      callback, and the provider's calls and answers. No action reads them. */
  datatype State = State(
    t: Tables,
    actors: map<nat, Actor>,
    claims: map<nat, seq<Instant>>,
    provider: seq<ProviderEvent>)

  datatype Action =
    | LockDue(actor: nat, callbackId: nat, now: Instant)
    | CommitClaim(actor: nat, nonce: string)
    | DialReturns(actor: nat, response: DialResponse)
    | RecordDial(actor: nat)
    | Schedule(schedule: ScheduleRequest)
    | Capture(sarvamCallId: string, leadId: nat, summary: Option<string>)
    | ReadCall(actor: nat, completion: CompletionRequest)
    | CompleteCall(actor: nat, now: Instant)
    | Reserve(actor: nat, leadId: nat, key: MessageKey)
    | SendReturns(actor: nat, outcome: SendOutcome)
    | RecordSend(actor: nat, now: Instant)
    | Crash(actor: nat)

  const START := State(EMPTY_TABLES, map[], map[], [])

  predicate Running(s: State, a: nat) {
    a in s.actors && s.actors[a].alive
  }

  function Locked(s: State): set<nat> {
    set a | a in s.actors && s.actors[a].alive && s.actors[a].pc.Claiming? :: s.actors[a].pc.row.id
  }

  function ClaimsOf(s: State, k: nat): seq<Instant> {
    if k in s.claims then s.claims[k] else []
  }

  /** RecordDial is disabled when its INSERT would violate the unique key of
      callback_attempts: the transaction then aborts, which is a Crash. Reserve is disabled
      when the foreign key of messages would reject its row. */
  predicate Enabled(s: State, action: Action) {
    match action
    case LockDue(a, k, now) => a !in s.actors && NextDue(s.t.callbacks, Locked(s), now, k)
    case CommitClaim(a, _) => Running(s, a) && s.actors[a].pc.Claiming? && s.actors[a].pc.row.id in s.t.callbacks
    case DialReturns(a, _) => Running(s, a) && s.actors[a].pc.Dialling?
    case RecordDial(a) =>
      && Running(s, a) && s.actors[a].pc.Dialled?
      && s.actors[a].pc.row.id in s.t.callbacks
      && AttemptKey(s.actors[a].pc.row.id, s.actors[a].pc.row.attemptCount) !in s.t.attempts
    case Schedule(_) => true
    case Capture(_, _, _) => true
    case ReadCall(a, _) => a !in s.actors
    case CompleteCall(a, _) => Running(s, a) && s.actors[a].pc.Completing?
    case Reserve(a, _, key) => a !in s.actors && HasCall(s.t.calls, key.callId)
    case SendReturns(a, _) => Running(s, a) && s.actors[a].pc.Sending?
    case RecordSend(a, _) => Running(s, a) && s.actors[a].pc.Returned? && s.actors[a].pc.key in s.t.messages
    case Crash(a) => Running(s, a)
  }

  function Step(s: State, a: nat, pc: Pc): map<nat, Actor> {
    s.actors[a := Actor(pc, true)]
  }

  ghost function Apply(s: State, action: Action): State
    requires Enabled(s, action)
  {
    match action
    case LockDue(a, k, now) =>
      s.(actors := Step(s, a, Claiming(s.t.callbacks[k], now)))
    case CommitClaim(a, nonce) =>
      var pc := s.actors[a].pc;
      s.(t := ClaimTx(s.t, pc.row, pc.now),
         actors := Step(s, a, Dialling(ClaimedRow(pc.row, pc.now), pc.now, MintedId(pc.row.id, nonce))),
         claims := s.claims[pc.row.id := ClaimsOf(s, pc.row.id) + [pc.now]])
    case DialReturns(a, response) =>
      var pc := s.actors[a].pc;
      s.(actors := Step(s, a, Dialled(pc.row, pc.now, pc.sarvamCallId, PlaceCall(pc.sarvamCallId, response))))
    case RecordDial(a) =>
      var pc := s.actors[a].pc;
      s.(t := RecordTx(s.t, pc.row, pc.now, pc.result), actors := s.actors - {a})
    case Schedule(request) => s.(t := ScheduleTx(s.t, request))
    case Capture(id, leadId, summary) => s.(t := CaptureTx(s.t, id, leadId, summary))
    case ReadCall(a, request) =>
      s.(actors := Step(s, a, Completing(request, DirectionOf(s.t.calls, request.sarvamCallId))))
    case CompleteCall(a, now) =>
      var pc := s.actors[a].pc;
      s.(t := CompleteCallTx(s.t, pc.completion, pc.seen, now), actors := s.actors - {a})
    case Reserve(a, leadId, key) =>
      if Refuses(s.t.messages, key) then s
      else
        s.(t := ReserveTx(s.t, leadId, key),
           actors := Step(s, a, Sending(leadId, key)),
           provider := s.provider + [Called(key)])
    case SendReturns(a, outcome) =>
      var pc := s.actors[a].pc;
      s.(actors := Step(s, a, Returned(pc.leadId, pc.key, outcome)),
         provider := s.provider + [Answered(pc.key, outcome)])
    case RecordSend(a, now) =>
      var pc := s.actors[a].pc;
      s.(t := SettleTx(s.t, pc.leadId, pc.key, pc.outcome, now), actors := s.actors - {a})
    case Crash(a) =>
      s.(actors := s.actors[a := s.actors[a].(alive := false)])
  }

  /** states[i + 1] is what actions[i] makes of states[i]. */
  ghost predicate Steps(states: seq<State>, actions: seq<Action>, i: nat)
    requires i < |actions| < |states|
  {
    Enabled(states[i], actions[i]) && states[i + 1] == Apply(states[i], actions[i])
  }

  ghost predicate RunFrom(start: State, states: seq<State>, actions: seq<Action>) {
    && |states| == |actions| + 1
    && states[0] == start
    && forall i :: 0 <= i < |actions| ==> Steps(states, actions, i)
  }

  ghost predicate Run(states: seq<State>, actions: seq<Action>) {
    RunFrom(START, states, actions)
  }

  /** What the actor that commits at step i was doing until then. */
  ghost function PcAt(states: seq<State>, actions: seq<Action>, i: nat): (pc: Pc)
    requires Run(states, actions) && i < |actions|
    requires actions[i].CommitClaim? || actions[i].RecordDial? || actions[i].CompleteCall? || actions[i].RecordSend?
    ensures actions[i].CommitClaim? ==> pc.Claiming?
    ensures actions[i].RecordDial? ==> pc.Dialled?
    ensures actions[i].CompleteCall? ==> pc.Completing?
    ensures actions[i].RecordSend? ==> pc.Returned?
  {
    assert Steps(states, actions, i);
    states[i].actors[actions[i].actor].pc
  }
}
