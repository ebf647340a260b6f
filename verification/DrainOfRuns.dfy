/** One worker's rounds in a run are the ticks of Drain.dfy, whatever requests, completions
    and deliveries come between and during them. */
module DrainOfRuns {
  import opened Schema
  import opened Transactions
  import opened Protocol
  import opened CallbackProtocol
  import opened Runs
  import opened Drain

  /** One tick of the worker: the actions that lock a due row and that record its dial. */
  datatype Round = Round(lock: nat, record: nat)

  predicate WorkerActs(action: Action) {
    action.LockDue? || action.CommitClaim? || action.DialReturns? || action.RecordDial?
  }

  /** Requests, completions, deliveries and their crashes; a tick that finds nothing due is
      no action at all. */
  predicate Background(action: Action) {
    !WorkerActs(action) && !action.Schedule?
  }

  ghost predicate Undisturbed(actions: seq<Action>, from: nat, to: nat)
    requires to <= |actions|
  {
    forall n :: from <= n < to ==> Background(actions[n])
  }

  /** What the worker does between locking the row and recording the dial. */
  predicate Dials(action: Action, a: nat) {
    (action.CommitClaim? || action.DialReturns?) && action.actor == a
  }

  ghost predicate IsRound(actions: seq<Action>, r: Round) {
    && r.lock < r.record < |actions|
    && actions[r.lock].LockDue? && actions[r.record] == RecordDial(actions[r.lock].actor)
    && forall n :: r.lock < n < r.record ==> Background(actions[n]) || Dials(actions[n], actions[r.lock].actor)
  }

  // ------------------------------------------------------------ background

  lemma SameQueueJoins(a: map<nat, Callback>, b: map<nat, Callback>, c: map<nat, Callback>)
    requires SameQueue(a, b) && SameQueue(b, c)
    ensures SameQueue(a, c)
  {
    forall k | Waits(a, k) ensures a[k] == c[k] {
      assert Waits(b, k);
    }
  }

  lemma SameQueueUpdates(a: map<nat, Callback>, b: map<nat, Callback>, k: nat, row: Callback)
    requires SameQueue(a, b)
    ensures SameQueue(a[k := row], b[k := row])
  {
    var u, v := a[k := row], b[k := row];
    forall j ensures Waits(u, j) <==> Waits(v, j) {
      assert Waits(a, j) <==> Waits(b, j);
    }
    forall j | Waits(u, j) ensures u[j] == v[j] {
      assert j != k ==> Waits(a, j);
    }
  }

  /** A background action leaves the queue, the other actors' steps and the locks alone. */
  lemma BackgroundKeepsQueue(states: seq<State>, actions: seq<Action>, n: nat)
    requires Run(states, actions) && n < |actions| && Background(actions[n])
    ensures SameQueue(states[n].t.callbacks, states[n + 1].t.callbacks)
  {
    var s := states[n];
    assert Steps(states, actions, n);
    if actions[n].CompleteCall? {
      var pc := PcAt(states, actions, n);
      TablesAt(states, actions, n);
      CompletionKeepsQueue(s.t, pc.completion, pc.seen, actions[n].now);
    } else {
      OthersLeaveCallbacks(s, actions[n]);
    }
  }

  /** The actor holds a row lock. */
  predicate Locker(s: State, a: nat) {
    Running(s, a) && s.actors[a].pc.Claiming?
  }

  ghost predicate NobodyLocks(s: State) {
    forall a :: !Locker(s, a)
  }

  lemma NoRowLocked(s: State)
    requires NobodyLocks(s)
    ensures Locked(s) == {}
  {
    assert forall a :: a in s.actors ==> !Locker(s, a);
  }

  ghost predicate NobodyElseLocks(s: State, a: nat) {
    forall b :: Locker(s, b) ==> b == a
  }

  predicate Works(pc: Pc) {
    pc.Claiming? || pc.Dialling? || pc.Dialled?
  }

  lemma BackgroundKeepsWorkers(s: State, action: Action, a: nat)
    requires Enabled(s, action) && Background(action)
    ensures a in s.actors && Works(s.actors[a].pc) ==>
              a in Apply(s, action).actors && Apply(s, action).actors[a].pc == s.actors[a].pc
    ensures Locker(Apply(s, action), a) ==> Locker(s, a)
  {
  }

  lemma BackgroundTakesNoLock(s: State, action: Action)
    requires Enabled(s, action) && Background(action) && NobodyLocks(s)
    ensures NobodyLocks(Apply(s, action))
  {
    var u := Apply(s, action);
    forall a ensures !Locker(u, a) {
      BackgroundKeepsWorkers(s, action, a);
    }
  }

  // ------------------------------------------------------------- one round

  /** Actor a is at work on callback k, in the queue as it found it, before. */
  ghost predicate UnderWay(before: map<nat, Callback>, s: State, a: nat, k: nat, now: Instant) {
    && k in before && a in s.actors && Works(s.actors[a].pc)
    && var pc := s.actors[a].pc;
       && pc.now == now && pc.row.id == k
       && if pc.Claiming? then pc.row == before[k] && SameQueue(before, s.t.callbacks)
          else pc.row == ClaimedRow(before[k], now) && SameQueue(before[k := pc.row], s.t.callbacks)
  }

  lemma ClaimGoesOn(before: map<nat, Callback>, states: seq<State>, actions: seq<Action>,
                    n: nat, a: nat, k: nat, now: Instant)
    requires Run(states, actions) && n < |actions| && UnderWay(before, states[n], a, k, now)
    requires actions[n].CommitClaim? && actions[n].actor == a
    ensures UnderWay(before, states[n + 1], a, k, now)
  {
    var t, pc := states[n].t, PcAt(states, actions, n);
    ClaimAt(states, actions, n);
    assert Steps(states, actions, n);
    assert states[n + 1].t.callbacks == t.callbacks[k := ClaimedRow(pc.row, now)];
    SameQueueUpdates(before, t.callbacks, k, ClaimedRow(pc.row, now));
  }

  lemma RoundGoesOn(before: map<nat, Callback>, states: seq<State>, actions: seq<Action>,
                    n: nat, a: nat, k: nat, now: Instant)
    requires Run(states, actions) && n < |actions| && UnderWay(before, states[n], a, k, now)
    requires Background(actions[n]) || Dials(actions[n], a)
    ensures UnderWay(before, states[n + 1], a, k, now)
  {
    assert Steps(states, actions, n);
    if Background(actions[n]) {
      var pc := states[n].actors[a].pc;
      BackgroundKeepsQueue(states, actions, n);
      BackgroundKeepsWorkers(states[n], actions[n], a);
      SameQueueJoins(if pc.Claiming? then before else before[k := pc.row],
                     states[n].t.callbacks, states[n + 1].t.callbacks);
    } else if actions[n].CommitClaim? {
      ClaimGoesOn(before, states, actions, n, a, k, now);
    }
  }

  lemma StepLocks(states: seq<State>, actions: seq<Action>, n: nat, a: nat)
    requires Run(states, actions) && n < |actions| && NobodyElseLocks(states[n], a)
    requires Background(actions[n]) || Dials(actions[n], a)
    ensures NobodyElseLocks(states[n + 1], a)
  {
    var s, u := states[n], states[n + 1];
    assert Steps(states, actions, n);
    forall b | Locker(u, b) ensures b == a {
      if Background(actions[n]) {
        BackgroundKeepsWorkers(s, actions[n], b);
      }
      assert b != a ==> Locker(s, b);
    }
  }

  lemma RoundBegins(states: seq<State>, actions: seq<Action>, n: nat)
    requires Run(states, actions) && n < |actions| && actions[n].LockDue? && NobodyLocks(states[n])
    ensures UnderWay(states[n].t.callbacks, states[n + 1], actions[n].actor, actions[n].callbackId, actions[n].now)
    ensures NobodyElseLocks(states[n + 1], actions[n].actor)
  {
    var s, u := states[n], states[n + 1];
    assert Steps(states, actions, n);
    TablesAt(states, actions, n);
    forall b | Locker(u, b) ensures b == actions[n].actor {
      assert !Locker(s, b);
    }
  }

  lemma {:induction false} RoundIsUnderWay(states: seq<State>, actions: seq<Action>, r: Round, n: nat)
    requires Run(states, actions) && IsRound(actions, r) && r.lock < n <= r.record
    requires NobodyLocks(states[r.lock])
    ensures var first := actions[r.lock];
            && UnderWay(states[r.lock].t.callbacks, states[n], first.actor, first.callbackId, first.now)
            && NobodyElseLocks(states[n], first.actor)
  {
    var first := actions[r.lock];
    if n == r.lock + 1 {
      RoundBegins(states, actions, r.lock);
    } else {
      RoundIsUnderWay(states, actions, r, n - 1);
      RoundGoesOn(states[r.lock].t.callbacks, states, actions, n - 1, first.actor, first.callbackId, first.now);
      StepLocks(states, actions, n - 1, first.actor);
    }
  }

  ghost function TickOf(states: seq<State>, actions: seq<Action>, r: Round): Tick
    requires Run(states, actions) && IsRound(actions, r)
  {
    Tick(actions[r.lock].now, Some(actions[r.lock].callbackId), PcAt(states, actions, r.record).result)
  }

  lemma RecordEndsTick(before: map<nat, Callback>, states: seq<State>, actions: seq<Action>,
                       n: nat, k: nat, now: Instant)
    requires Run(states, actions) && n < |actions| && actions[n].RecordDial?
    requires UnderWay(before, states[n], actions[n].actor, k, now)
    ensures SameQueue(AfterTick(before, Tick(now, Some(k), PcAt(states, actions, n).result)), states[n + 1].t.callbacks)
  {
    RecordAt(states, actions, n);
    var t, pc := states[n].t, PcAt(states, actions, n);
    var ticked := TickedRow(before[k], Tick(now, Some(k), pc.result));
    SameQueueUpdates(before[k := pc.row], t.callbacks, k, ticked);
    assert before[k := pc.row][k := ticked] == before[k := ticked];
    assert states[n + 1].t.callbacks == t.callbacks[k := ticked];
  }

  lemma LockedIsNextDue(states: seq<State>, actions: seq<Action>, n: nat)
    requires Run(states, actions) && n < |actions| && actions[n].LockDue? && NobodyLocks(states[n])
    ensures NextDue(states[n].t.callbacks, {}, actions[n].now, actions[n].callbackId)
  {
    assert Steps(states, actions, n);
    NoRowLocked(states[n]);
  }

  lemma RecordReleases(states: seq<State>, actions: seq<Action>, n: nat)
    requires Run(states, actions) && n < |actions| && actions[n].RecordDial?
    requires NobodyElseLocks(states[n], actions[n].actor)
    ensures NobodyLocks(states[n + 1])
  {
    var s, u, a := states[n], states[n + 1], actions[n].actor;
    assert Steps(states, actions, n);
    forall b ensures !Locker(u, b) {
      assert Locker(u, b) ==> Locker(s, b) && b != a;
    }
  }

  /** A round is a tick of the queue it started from, although the queue's other rows may
      change under it, and afterwards nobody holds a lock. */
  lemma RoundIsTick(states: seq<State>, actions: seq<Action>, r: Round)
    requires Run(states, actions) && IsRound(actions, r) && NobodyLocks(states[r.lock])
    ensures IsTick(states[r.lock].t.callbacks, TickOf(states, actions, r), states[r.record + 1].t.callbacks)
    ensures NobodyLocks(states[r.record + 1])
  {
    var first := actions[r.lock];
    RoundIsUnderWay(states, actions, r, r.record);
    RecordEndsTick(states[r.lock].t.callbacks, states, actions, r.record, first.callbackId, first.now);
    RecordReleases(states, actions, r.record);
    LockedIsNextDue(states, actions, r.lock);
  }

  // --------------------------------------------------------------- a worker

  lemma {:induction false} GapKeepsQueue(states: seq<State>, actions: seq<Action>, m: nat, n: nat)
    requires Run(states, actions) && m <= n < |actions| && Undisturbed(actions, m, n)
    requires NobodyLocks(states[m])
    ensures SameQueue(states[m].t.callbacks, states[n].t.callbacks) && NobodyLocks(states[n])
  {
    if m < n {
      GapKeepsQueue(states, actions, m, n - 1);
      BackgroundKeepsQueue(states, actions, n - 1);
      SameQueueJoins(states[m].t.callbacks, states[n - 1].t.callbacks, states[n].t.callbacks);
      assert Steps(states, actions, n - 1);
      BackgroundTakesNoLock(states[n - 1], actions[n - 1]);
    }
  }

  /** The rounds of a run in which, from the first of them to the last, one worker at a time
      ticks by a clock that never goes back, no worker crashes and nothing is scheduled. */
  ghost predicate OneWorker(states: seq<State>, actions: seq<Action>, rounds: seq<Round>) {
    && Run(states, actions) && |rounds| > 0
    && (forall r :: 0 <= r < |rounds| ==> IsRound(actions, rounds[r]))
    && (forall r :: 0 < r < |rounds| ==>
          rounds[r - 1].record < rounds[r].lock && Undisturbed(actions, rounds[r - 1].record + 1, rounds[r].lock))
    && (forall q, r :: 0 <= q <= r < |rounds| ==> actions[rounds[q].lock].now <= actions[rounds[r].lock].now)
    && NobodyLocks(states[rounds[0].lock])
  }

  lemma {:induction false} NoLockAtRound(states: seq<State>, actions: seq<Action>, rounds: seq<Round>, r: nat)
    requires OneWorker(states, actions, rounds) && r < |rounds|
    ensures NobodyLocks(states[rounds[r].lock])
  {
    if r > 0 {
      NoLockAtRound(states, actions, rounds, r - 1);
      RoundIsTick(states, actions, rounds[r - 1]);
      GapKeepsQueue(states, actions, rounds[r - 1].record + 1, rounds[r].lock);
    }
  }

  ghost function TicksOf(states: seq<State>, actions: seq<Action>, rounds: seq<Round>): (ticks: seq<Tick>)
    requires OneWorker(states, actions, rounds)
  {
    seq(|rounds|, r requires 0 <= r < |rounds| && OneWorker(states, actions, rounds) =>
      TickOf(states, actions, rounds[r]))
  }

  /** The queue each round starts from, and the one the last round leaves. */
  ghost function QueuesOf(states: seq<State>, actions: seq<Action>, rounds: seq<Round>): seq<map<nat, Callback>>
    requires OneWorker(states, actions, rounds)
  {
    seq(|rounds|, r requires 0 <= r < |rounds| && OneWorker(states, actions, rounds) =>
      states[rounds[r].lock].t.callbacks) + [states[rounds[|rounds| - 1].record + 1].t.callbacks]
  }

  /** The queue round r + 1 starts from, or the last round leaves. */
  ghost function QueueAfter(states: seq<State>, actions: seq<Action>, rounds: seq<Round>, r: nat): map<nat, Callback>
    requires OneWorker(states, actions, rounds) && r < |rounds|
  {
    if r + 1 < |rounds| then states[rounds[r + 1].lock].t.callbacks else states[rounds[r].record + 1].t.callbacks
  }

  lemma QueuesLineUp(states: seq<State>, actions: seq<Action>, rounds: seq<Round>, r: nat)
    requires OneWorker(states, actions, rounds) && r < |rounds|
    ensures var queues := QueuesOf(states, actions, rounds);
            && |queues| == |rounds| + 1
            && queues[r] == states[rounds[r].lock].t.callbacks
            && queues[r + 1] == QueueAfter(states, actions, rounds, r)
  {
  }

  lemma RoundThenGap(states: seq<State>, actions: seq<Action>, rounds: seq<Round>, r: nat)
    requires OneWorker(states, actions, rounds) && r < |rounds|
    ensures IsTick(states[rounds[r].lock].t.callbacks, TickOf(states, actions, rounds[r]),
                   QueueAfter(states, actions, rounds, r))
  {
    var before, tick := states[rounds[r].lock].t.callbacks, TickOf(states, actions, rounds[r]);
    NoLockAtRound(states, actions, rounds, r);
    RoundIsTick(states, actions, rounds[r]);
    if r + 1 < |rounds| {
      var from, to := rounds[r].record + 1, rounds[r + 1].lock;
      assert Undisturbed(actions, rounds[r + 1 - 1].record + 1, rounds[r + 1].lock);
      GapKeepsQueue(states, actions, from, to);
      SameQueueJoins(AfterTick(before, tick), states[from].t.callbacks, states[to].t.callbacks);
    }
  }

  lemma RoundsAreTicks(states: seq<State>, actions: seq<Action>, rounds: seq<Round>)
    requires OneWorker(states, actions, rounds)
    ensures Ticks(QueuesOf(states, actions, rounds), TicksOf(states, actions, rounds))
  {
    var queues, ticks := QueuesOf(states, actions, rounds), TicksOf(states, actions, rounds);
    forall r | 0 <= r < |ticks| ensures IsTick(queues[r], ticks[r], queues[r + 1]) {
      QueuesLineUp(states, actions, rounds, r);
      RoundThenGap(states, actions, rounds, r);
    }
  }

  // --------------------------------------------------------------- theorems

  predicate Within(actions: seq<Action>, rounds: seq<Round>, window: int)
    requires forall r :: 0 <= r < |rounds| ==> rounds[r].lock < |actions| && actions[rounds[r].lock].LockDue?
  {
    forall q, r :: 0 <= q < |rounds| && 0 <= r < |rounds| ==>
      actions[rounds[r].lock].now < actions[rounds[q].lock].now + window
  }

  /** In a window shorter than RETRY_DELAY the worker claims in order of execution time. */
  lemma WorkerClaimsInOrder(states: seq<State>, actions: seq<Action>, rounds: seq<Round>, q: nat, r: nat)
    requires OneWorker(states, actions, rounds) && Within(actions, rounds, RETRY_DELAY) && q < r < |rounds|
    ensures var before, after := states[rounds[q].lock].t.callbacks, states[rounds[r].lock].t.callbacks;
            var first, second := actions[rounds[q].lock].callbackId, actions[rounds[r].lock].callbackId;
            && first in before && second in after
            && ExecutionAt(before[first]) <= ExecutionAt(after[second])
  {
    RoundsAreTicks(states, actions, rounds);
    ClaimsAreOrdered(QueuesOf(states, actions, rounds), TicksOf(states, actions, rounds), q, r);
  }

  /** A callback due when the worker starts is claimed within as many rounds as there are
      waiting callbacks that execute no later than it does. */
  lemma WorkerServesDue(states: seq<State>, actions: seq<Action>, rounds: seq<Round>, k: nat)
    requires OneWorker(states, actions, rounds)
    requires var queue := states[rounds[0].lock].t.callbacks;
             && Waits(queue, k) && ExecutionAt(queue[k]) <= actions[rounds[0].lock].now
             && |rounds| >= |Ahead(queue, ExecutionAt(queue[k]))|
    ensures var queue := states[rounds[0].lock].t.callbacks;
            exists r :: 0 <= r < |Ahead(queue, ExecutionAt(queue[k]))| && actions[rounds[r].lock].callbackId == k
  {
    var queue := states[rounds[0].lock].t.callbacks;
    RoundsAreTicks(states, actions, rounds);
    DueCallbackWaitsBounded(QueuesOf(states, actions, rounds), TicksOf(states, actions, rounds), k);
    var r :| 0 <= r < |Ahead(queue, ExecutionAt(queue[k]))|
             && TicksOf(states, actions, rounds)[r].callback == Some(k);
    assert actions[rounds[r].lock].callbackId == k;
  }
}
