/** One worker ticking against a queue nobody schedules into: how often and in which
    order it claims, and how long a due callback waits. */
module Drain {
  import opened Schema
  import opened Transactions
  import opened CallbackInvariant
  import opened CallbackProtocol

  predicate Waits(callbacks: map<nat, Callback>, k: nat) {
    k in callbacks && callbacks[k].status == PENDING && callbacks[k].claimedAt.None?
  }

  /** Same queue: requests may change other rows between two ticks, such as closing one. */
  ghost predicate SameQueue(a: map<nat, Callback>, b: map<nat, Callback>) {
    && (forall k :: Waits(a, k) <==> Waits(b, k))
    && (forall k :: Waits(a, k) ==> a[k] == b[k])
  }

  /** callback is the row the tick claimed, None when nothing was due. */
  datatype Tick = Tick(now: Instant, callback: Option<nat>, result: DialResult)

  function TickedRow(row: Callback, tick: Tick): Callback {
    var mine := ClaimedRow(row, tick.now);
    if Placed(tick.result) then DialledRow(mine)
    else FailedRow(mine, DialError(tick.result), RetryAt(tick.result, tick.now))
  }

  function AfterTick(callbacks: map<nat, Callback>, tick: Tick): map<nat, Callback>
    requires tick.callback.Some? ==> tick.callback.value in callbacks
  {
    if tick.callback.None? then callbacks
    else callbacks[tick.callback.value := TickedRow(callbacks[tick.callback.value], tick)]
  }

  ghost predicate IsTick(before: map<nat, Callback>, tick: Tick, after: map<nat, Callback>) {
    if tick.callback.None? then
      (forall k :: !Claimable(before, {}, tick.now, k)) && SameQueue(before, after)
    else
      NextDue(before, {}, tick.now, tick.callback.value) && SameQueue(AfterTick(before, tick), after)
  }

  /** The clock never goes back. */
  ghost predicate Ticks(queues: seq<map<nat, Callback>>, ticks: seq<Tick>) {
    && |queues| == |ticks| + 1
    && (forall i :: 0 <= i < |ticks| ==> IsTick(queues[i], ticks[i], queues[i + 1]))
    && (forall i, j :: 0 <= i <= j < |ticks| ==> ticks[i].now <= ticks[j].now)
  }

  /** process_due's two transactions are a tick of this queue. */
  lemma TickIsTick(t: Tables, k: nat, now: Instant, result: DialResult)
    requires RowsInv(t) && NextDue(t.callbacks, {}, now, k)
    ensures IsTick(t.callbacks, Tick(now, Some(k), result), TickTx(t, k, now, result).callbacks)
  {
    assert TickTx(t, k, now, result).callbacks == AfterTick(t.callbacks, Tick(now, Some(k), result));
  }

  /** Completing a call between two ticks leaves the queue alone. */
  lemma CompletionKeepsQueue(t: Tables, request: CompletionRequest, seen: Option<CallDirection>, now: Instant)
    requires LinksInv(t)
    ensures SameQueue(t.callbacks, CompleteCallTx(t, request, seen, now).callbacks)
  {
    CompleteAdvances(t, request, seen, now);
    var u := CompleteCallTx(t, request, seen, now);
    forall k ensures Waits(t.callbacks, k) <==> Waits(u.callbacks, k) {
      if k in t.callbacks {
        assert Edge(t.callbacks[k], u.callbacks[k]);
      }
    }
  }

  /** Ticks that fall in a window shorter than RETRY_DELAY. */
  predicate InWindow(ticks: seq<Tick>) {
    forall i, j :: 0 <= i < |ticks| && 0 <= j < |ticks| ==> ticks[j].now < ticks[i].now + RETRY_DELAY
  }

  /** After its claim a callback is not due again before RETRY_DELAY has passed. */
  lemma {:induction false} SleepsAfterClaim(queues: seq<map<nat, Callback>>, ticks: seq<Tick>, i: nat, j: nat, k: nat)
    requires Ticks(queues, ticks) && InWindow(ticks)
    requires i < j < |queues| && ticks[i].callback == Some(k)
    ensures Waits(queues[j], k) ==> ExecutionAt(queues[j][k]) >= ticks[i].now + RETRY_DELAY
  {
    assert IsTick(queues[j - 1], ticks[j - 1], queues[j]);
    if i < j - 1 {
      SleepsAfterClaim(queues, ticks, i, j - 1, k);
      assert ticks[j - 1].now < ticks[i].now + RETRY_DELAY;
    }
  }

  /** Within such a window no callback is claimed twice. */
  lemma ClaimedAtMostOnce(queues: seq<map<nat, Callback>>, ticks: seq<Tick>, i: nat, j: nat, k: nat)
    requires Ticks(queues, ticks) && InWindow(ticks)
    requires i < j < |ticks| && ticks[i].callback == Some(k)
    ensures ticks[j].callback != Some(k)
  {
    SleepsAfterClaim(queues, ticks, i, j, k);
    assert IsTick(queues[j], ticks[j], queues[j + 1]);
    assert ticks[j].now < ticks[i].now + RETRY_DELAY;
  }

  /** A callback that waits and was not claimed since has waited unchanged. */
  lemma {:induction false} WaitedUnchanged(queues: seq<map<nat, Callback>>, ticks: seq<Tick>, i: nat, j: nat, k: nat)
    requires Ticks(queues, ticks) && i <= j < |queues| && Waits(queues[j], k)
    requires forall m :: i <= m < j ==> ticks[m].callback != Some(k)
    ensures Waits(queues[i], k) && queues[i][k] == queues[j][k]
  {
    if i < j {
      assert IsTick(queues[j - 1], ticks[j - 1], queues[j]);
      WaitedUnchanged(queues, ticks, i, j - 1, k);
    }
  }

  /** .. and the claims come in order of execution time. */
  lemma ClaimsAreOrdered(queues: seq<map<nat, Callback>>, ticks: seq<Tick>, i: nat, j: nat)
    requires Ticks(queues, ticks) && InWindow(ticks) && i < j < |ticks|
    requires ticks[i].callback.Some? && ticks[j].callback.Some?
    ensures ticks[i].callback.value in queues[i] && ticks[j].callback.value in queues[j]
    ensures ExecutionAt(queues[i][ticks[i].callback.value]) <= ExecutionAt(queues[j][ticks[j].callback.value])
  {
    var k := ticks[j].callback.value;
    assert IsTick(queues[i], ticks[i], queues[i + 1]) && IsTick(queues[j], ticks[j], queues[j + 1]);
    forall m | i <= m < j ensures ticks[m].callback != Some(k) {
      if ticks[m].callback == Some(k) {
        ClaimedAtMostOnce(queues, ticks, m, j, k);
      }
    }
    WaitedUnchanged(queues, ticks, i, j, k);
    assert ExecutionAt(queues[i][k]) <= ticks[i].now ==> Claimable(queues[i], {}, ticks[i].now, k);
  }

  /** The waiting callbacks that execute no later than an instant. */
  ghost function Ahead(callbacks: map<nat, Callback>, execution: Instant): set<nat> {
    set k | k in callbacks && Waits(callbacks, k) && ExecutionAt(callbacks[k]) <= execution
  }

  lemma SubsetSize(a: set<nat>, b: set<nat>)
    requires a <= b
    ensures |a| <= |b|
  {
    if a != {} {
      var x :| x in a;
      SubsetSize(a - {x}, b - {x});
    }
  }

  /** A tick that passes over k takes one that was ahead of it, for good. */
  lemma TickShortensQueue(before: map<nat, Callback>, tick: Tick, after: map<nat, Callback>, k: nat)
    requires IsTick(before, tick, after) && Waits(before, k) && ExecutionAt(before[k]) <= tick.now
    requires tick.callback != Some(k)
    ensures Waits(after, k) && after[k] == before[k]
    ensures |Ahead(after, ExecutionAt(before[k]))| < |Ahead(before, ExecutionAt(before[k]))|
  {
    var e := ExecutionAt(before[k]);
    assert Claimable(before, {}, tick.now, k);
    var first := tick.callback.value;
    forall j | j in Ahead(after, e) ensures j in Ahead(before, e) && j != first {
      assert Waits(AfterTick(before, tick), j);
    }
    assert first in Ahead(before, e);
    SubsetSize(Ahead(after, e), Ahead(before, e) - {first});
  }

  /** A callback due at the first tick is claimed within as many ticks as there are
      waiting callbacks that execute no later than it does. */
  lemma {:induction false} DueCallbackWaitsBounded(queues: seq<map<nat, Callback>>, ticks: seq<Tick>, k: nat)
    requires Ticks(queues, ticks) && Waits(queues[0], k)
    requires |ticks| >= |Ahead(queues[0], ExecutionAt(queues[0][k]))|
    requires |ticks| > 0 ==> ExecutionAt(queues[0][k]) <= ticks[0].now
    ensures exists i :: 0 <= i < |Ahead(queues[0], ExecutionAt(queues[0][k]))| && ticks[i].callback == Some(k)
    decreases |ticks|
  {
    var e := ExecutionAt(queues[0][k]);
    assert k in Ahead(queues[0], e);
    assert IsTick(queues[0], ticks[0], queues[1]);
    if ticks[0].callback != Some(k) {
      TickShortensQueue(queues[0], ticks[0], queues[1], k);
      TailTicks(queues, ticks);
      DueCallbackWaitsBounded(queues[1..], ticks[1..], k);
      var i :| 0 <= i < |Ahead(queues[1], e)| && ticks[1..][i].callback == Some(k);
      assert ticks[i + 1].callback == Some(k);
    }
  }

  lemma TailTicks(queues: seq<map<nat, Callback>>, ticks: seq<Tick>)
    requires Ticks(queues, ticks) && |ticks| > 0
    ensures Ticks(queues[1..], ticks[1..])
  {
    forall i | 0 <= i < |ticks[1..]| ensures IsTick(queues[1..][i], ticks[1..][i], queues[1..][i + 1]) {
      assert IsTick(queues[i + 1], ticks[i + 1], queues[i + 2]);
    }
  }
}
