/** What every committed state of the tables says about callbacks, and that each
    callback transaction keeps it. */
module CallbackInvariant {
  import opened Schema
  import opened EventLog
  import opened CallIds
  import opened Transactions

  /** Dials of this callback whose result is recorded. */
  function Settled(row: Callback): int {
    if row.claimedAt.Some? then row.attemptCount - 1 else row.attemptCount
  }

  predicate WasPlaced(row: Callback) {
    row.claimedAt.None? && (row.status == IN_PROGRESS || row.status == COMPLETED)
  }

  predicate RetriedAt(attempts: map<AttemptKey, Attempt>, key: AttemptKey) {
    && key in attempts
    && attempts[key].status == AttemptStatus.FAILED && attempts[key].retryable
    && attempts[key].error.Some? && attempts[key].callId.None?
  }

  predicate PlacedAt(attempts: map<AttemptKey, Attempt>, key: AttemptKey) {
    && key in attempts
    && attempts[key].status == PLACED && !attempts[key].retryable
    && attempts[key].error.None? && attempts[key].callId.Some?
  }

  predicate RefusedAt(attempts: map<AttemptKey, Attempt>, key: AttemptKey) {
    && key in attempts
    && attempts[key].status == AttemptStatus.FAILED && !attempts[key].retryable
    && attempts[key].error.Some? && attempts[key].callId.None?
  }

  /** The retry columns carry the outcome of attempt n, the last one recorded. */
  predicate Waiting(attempts: map<AttemptKey, Attempt>, row: Callback, n: nat) {
    if n == 0 then row.lastError.None? && row.nextAttemptAt.None?
    else
      && RetriedAt(attempts, AttemptKey(row.id, n))
      && row.lastError == attempts[AttemptKey(row.id, n)].error
      && row.nextAttemptAt.Some?
  }

  /** Status, claim and retry columns are what the attempt history says. */
  predicate Agrees(attempts: map<AttemptKey, Attempt>, row: Callback) {
    var last := AttemptKey(row.id, row.attemptCount);
    && (row.completedAt.Some? <==> row.status == COMPLETED)
    && if row.claimedAt.Some? then
         row.status == IN_PROGRESS && row.attemptCount >= 1 && Waiting(attempts, row, row.attemptCount - 1)
       else
         match row.status
         case PENDING => Waiting(attempts, row, row.attemptCount)
         case FAILED =>
           && RefusedAt(attempts, last)
           && row.lastError == attempts[last].error && row.nextAttemptAt.None?
         case CANCELLED => false
         case _ => PlacedAt(attempts, last) && row.lastError.None? && row.nextAttemptAt.None?
  }

  ghost predicate Numbered(attempts: map<AttemptKey, Attempt>, row: Callback) {
    forall n: nat :: AttemptKey(row.id, n) in attempts <==> 1 <= n <= Settled(row)
  }

  ghost predicate EarlierRetried(attempts: map<AttemptKey, Attempt>, row: Callback) {
    forall n: nat :: 1 <= n < row.attemptCount ==> RetriedAt(attempts, AttemptKey(row.id, n))
  }

  ghost predicate RowInv(attempts: map<AttemptKey, Attempt>, row: Callback) {
    Numbered(attempts, row) && EarlierRetried(attempts, row) && Agrees(attempts, row)
  }

  ghost predicate RowsInv(t: Tables) {
    && (forall k :: k in t.callbacks ==> t.callbacks[k].id == k < t.nextCallbackId)
    && (forall k :: k in t.callbacks ==> RowInv(t.attempts, t.callbacks[k]))
    && (forall key :: key in t.attempts ==> key.callbackId in t.callbacks)
    && (forall j, k :: j in t.callbacks && k in t.callbacks && j != k ==>
          !ScheduledBy(t.callbacks[j], t.callbacks[k].sourceCallId, t.callbacks[k].scheduledAt))
  }

  predicate LinksTo(calls: map<string, Call>, id: string, k: nat) {
    id in calls && calls[id].callbackId == Some(k)
  }

  /** What a call row that links to callback k says about k. */
  ghost predicate LinkInv(t: Tables, id: string, k: nat)
    requires id in t.calls
  {
    && k in t.callbacks && WasPlaced(t.callbacks[k])
    && AttemptKey(k, t.callbacks[k].attemptCount) in t.attempts
    && t.attempts[AttemptKey(k, t.callbacks[k].attemptCount)].callId == Some(t.calls[id].id)
    && MintedFor(id, k)
  }

  ghost predicate LinksInv(t: Tables) {
    && (forall id :: id in t.calls ==> t.calls[id].id < t.nextCallId)
    && (forall x, y :: x in t.calls && y in t.calls && t.calls[x].id == t.calls[y].id ==> x == y)
    && (forall id :: id in t.calls && t.calls[id].callbackId.Some? ==> LinkInv(t, id, t.calls[id].callbackId.value))
    && (forall k :: k in t.callbacks && WasPlaced(t.callbacks[k]) ==> exists id :: LinksTo(t.calls, id, k))
  }

  /** What the log says about callback k, given its row if it has one. */
  predicate TallyAgrees(tally: Tally, row: Option<Callback>) {
    if row.None? then tally == Tally(0, 0, 0, 0, 0)
    else
      var placed := if WasPlaced(row.value) then 1 else 0;
      && tally.scheduled >= 1
      && tally.attempted == row.value.attemptCount
      && tally.triggered == placed
      && tally.failed == Settled(row.value) - placed
      && tally.completed == (if row.value.status == COMPLETED then 1 else 0)
  }

  function RowOf(callbacks: map<nat, Callback>, k: nat): Option<Callback> {
    if k in callbacks then Some(callbacks[k]) else None
  }

  predicate LogAgrees(t: Tables, k: nat) {
    TallyAgrees(TallyOf(t.events, k), RowOf(t.callbacks, k))
  }

  ghost predicate LogInv(t: Tables) {
    forall k: nat :: LogAgrees(t, k)
  }

  ghost predicate TablesInv(t: Tables) {
    RowsInv(t) && LinksInv(t) && LogInv(t)
  }

  lemma StartHasTablesInv()
    ensures TablesInv(EMPTY_TABLES)
  {
  }

  // ------------------------------------------------------ rows, one by one

  lemma ClaimedRowInv(attempts: map<AttemptKey, Attempt>, read: Callback, now: Instant)
    requires RowInv(attempts, read) && read.status == PENDING && read.claimedAt.None?
    ensures RowInv(attempts, ClaimedRow(read, now))
  {
  }

  predicate Held(mine: Callback) {
    mine.claimedAt.Some? && mine.status == IN_PROGRESS && mine.attemptCount >= 1
  }

  lemma HeldKeyIsFree(attempts: map<AttemptKey, Attempt>, mine: Callback)
    requires RowInv(attempts, mine) && Held(mine)
    ensures AttemptKey(mine.id, mine.attemptCount) !in attempts
  {
  }

  /** Recording attempt attemptCount makes the numbering reach it and keeps the earlier ones. */
  lemma RecordedNumbers(attempts: map<AttemptKey, Attempt>, mine: Callback, attempt: Attempt, row: Callback)
    requires RowInv(attempts, mine) && Held(mine)
    requires row.id == mine.id && row.attemptCount == mine.attemptCount && row.claimedAt.None?
    ensures Numbered(attempts[AttemptKey(mine.id, mine.attemptCount) := attempt], row)
    ensures EarlierRetried(attempts[AttemptKey(mine.id, mine.attemptCount) := attempt], row)
  {
    var after := attempts[AttemptKey(mine.id, mine.attemptCount) := attempt];
    forall n: nat ensures AttemptKey(row.id, n) in after <==> 1 <= n <= Settled(row) {
      assert AttemptKey(mine.id, n) in attempts <==> 1 <= n <= Settled(mine);
    }
    forall n: nat | 1 <= n < row.attemptCount ensures RetriedAt(after, AttemptKey(row.id, n)) {
      assert RetriedAt(attempts, AttemptKey(mine.id, n));
    }
  }

  lemma OtherAttemptsFrame(attempts: map<AttemptKey, Attempt>, key: AttemptKey, attempt: Attempt, row: Callback)
    requires RowInv(attempts, row) && row.id != key.callbackId
    ensures RowInv(attempts[key := attempt], row)
  {
    var after := attempts[key := attempt];
    forall n: nat ensures AttemptKey(row.id, n) in after <==> 1 <= n <= Settled(row) {
      assert AttemptKey(row.id, n) in attempts <==> 1 <= n <= Settled(row);
    }
    forall n: nat | 1 <= n < row.attemptCount ensures RetriedAt(after, AttemptKey(row.id, n)) {
      assert RetriedAt(attempts, AttemptKey(row.id, n));
    }
  }

  lemma NewRowInv(attempts: map<AttemptKey, Attempt>, row: Callback)
    requires forall n: nat :: AttemptKey(row.id, n) !in attempts
    requires row.status == PENDING && row.attemptCount == 0
    requires row.lastError.None? && row.nextAttemptAt.None? && row.claimedAt.None? && row.completedAt.None?
    ensures RowInv(attempts, row)
  {
  }

  lemma CompletedRowInv(attempts: map<AttemptKey, Attempt>, row: Callback, now: Instant)
    requires RowInv(attempts, row) && WasPlaced(row)
    ensures RowInv(attempts, CompletedRow(row, now))
  {
  }

  /** Columns that no transaction after the insert ever writes. */
  predicate SameRequest(a: Callback, b: Callback) {
    && a.id == b.id && a.leadId == b.leadId && a.sourceCallId == b.sourceCallId
    && a.requestedExpression == b.requestedExpression && a.scheduledAt == b.scheduledAt
    && a.timezone == b.timezone && a.reason == b.reason
  }

  /** Replacing one row by one for the same request. */
  lemma ReplaceKeepsRows(t: Tables, u: Tables, row: Callback)
    requires RowsInv(t) && row.id in t.callbacks && SameRequest(t.callbacks[row.id], row)
    requires u.callbacks == t.callbacks[row.id := row] && u.nextCallbackId == t.nextCallbackId
    requires forall key :: key in u.attempts ==> key.callbackId in t.callbacks
    requires forall k :: k in u.callbacks ==> RowInv(u.attempts, u.callbacks[k])
    ensures RowsInv(u)
  {
  }

  // ------------------------------------------------------------- links

  /** Links survive when calls only gain unlinked rows and placed callbacks stay placed. */
  lemma LinksFrame(t: Tables, u: Tables)
    requires LinksInv(t)
    requires forall id :: id in u.calls ==> u.calls[id].id < u.nextCallId
    requires forall x, y :: x in u.calls && y in u.calls && u.calls[x].id == u.calls[y].id ==> x == y
    requires forall id :: id in t.calls ==> id in u.calls && u.calls[id].id == t.calls[id].id
                                            && u.calls[id].callbackId == t.calls[id].callbackId
    requires forall id :: id in u.calls && id !in t.calls ==> u.calls[id].callbackId.None?
    requires forall k :: k in t.callbacks && WasPlaced(t.callbacks[k]) ==>
               k in u.callbacks && WasPlaced(u.callbacks[k])
               && u.callbacks[k].attemptCount == t.callbacks[k].attemptCount
    requires forall k :: k in u.callbacks && WasPlaced(u.callbacks[k]) ==> k in t.callbacks && WasPlaced(t.callbacks[k])
    requires forall key :: key in t.attempts ==> key in u.attempts && u.attempts[key] == t.attempts[key]
    ensures LinksInv(u)
  {
    forall id | id in u.calls && u.calls[id].callbackId.Some? ensures LinkInv(u, id, u.calls[id].callbackId.value) {
      assert LinkInv(t, id, t.calls[id].callbackId.value);
    }
    forall k | k in u.callbacks && WasPlaced(u.callbacks[k]) ensures exists id :: LinksTo(u.calls, id, k) {
      var id :| LinksTo(t.calls, id, k);
      assert LinksTo(u.calls, id, k);
    }
  }

  lemma UpsertKeepsIds(t: Tables, id: string, w: CallWrites)
    requires LinksInv(t)
    ensures var u := UpsertCall(t, id, w);
            && (forall x :: x in u.calls ==> u.calls[x].id < u.nextCallId)
            && (forall x, y :: x in u.calls && y in u.calls && u.calls[x].id == u.calls[y].id ==> x == y)
            && (forall x :: x in t.calls ==> x in u.calls && u.calls[x].id == t.calls[x].id)
  {
  }

  /** An upsert that is not given callback_id keeps every link. */
  lemma UpsertKeepsLinks(t: Tables, id: string, w: CallWrites)
    requires LinksInv(t) && w.callbackId.Keep?
    ensures LinksInv(UpsertCall(t, id, w))
  {
    UpsertKeepsIds(t, id, w);
    LinksFrame(t, UpsertCall(t, id, w));
  }

  // ----------------------------------------------------------------- log

  /** One more event about callback k, whose row it accounts for. */
  lemma LogStep(t: Tables, u: Tables, event: Event, k: nat)
    requires LogInv(t) && u.events == t.events + [event]
    requires k in u.callbacks && u.callbacks == t.callbacks[k := u.callbacks[k]]
    requires forall j: nat :: Names(event, j) <==> j == k
    requires TallyAgrees(TallyOf(t.events, k), RowOf(t.callbacks, k)) ==>
               TallyAgrees(Counted(TallyOf(t.events, k), event.eventType), Some(u.callbacks[k]))
    ensures LogInv(u)
  {
    forall j: nat ensures LogAgrees(u, j) {
      assert LogAgrees(t, j);
      TallyAppend(t.events, event, j);
    }
  }

  /** An event that names no callback. */
  lemma LogFrame(t: Tables, u: Tables, event: Event)
    requires LogInv(t) && u.callbacks == t.callbacks && u.events == t.events + [event]
    requires forall k :: !Names(event, k)
    ensures LogInv(u)
  {
    forall j: nat ensures LogAgrees(u, j) {
      assert LogAgrees(t, j);
      TallyAppend(t.events, event, j);
    }
  }

  // ---------------------------------------------------- the transactions

  lemma ClaimKeepsRows(t: Tables, read: Callback, now: Instant)
    requires RowsInv(t) && read.id in t.callbacks && t.callbacks[read.id] == read
    requires read.status == PENDING && read.claimedAt.None?
    ensures RowsInv(ClaimTx(t, read, now))
  {
    var u := ClaimTx(t, read, now);
    ClaimedRowInv(t.attempts, read, now);
    ReplaceKeepsRows(t, u, ClaimedRow(read, now));
  }

  lemma ClaimKeepsLinks(t: Tables, read: Callback, now: Instant)
    requires LinksInv(t) && read.id in t.callbacks && t.callbacks[read.id] == read
    requires read.status == PENDING && read.claimedAt.None?
    ensures LinksInv(ClaimTx(t, read, now))
  {
    LinksFrame(t, ClaimTx(t, read, now));
  }

  lemma ClaimKeepsLog(t: Tables, read: Callback, now: Instant)
    requires LogInv(t) && read.id in t.callbacks && t.callbacks[read.id] == read
    requires read.status == PENDING && read.claimedAt.None?
    ensures LogInv(ClaimTx(t, read, now))
  {
    var u := ClaimTx(t, read, now);
    LogStep(t, u, u.events[|t.events|], read.id);
  }

  predicate Holds(t: Tables, mine: Callback) {
    mine.id in t.callbacks && t.callbacks[mine.id] == mine && mine.claimedAt.Some?
  }

  lemma RefusedKeepsRows(t: Tables, mine: Callback, now: Instant, result: DialResult)
    requires RowsInv(t) && Holds(t, mine)
    ensures RowsInv(RefusedTx(t, mine, now, result))
  {
    var u := RefusedTx(t, mine, now, result);
    var key := AttemptKey(mine.id, mine.attemptCount);
    assert RowInv(t.attempts, t.callbacks[mine.id]);
    forall k | k in u.callbacks ensures RowInv(u.attempts, u.callbacks[k]) {
      assert RowInv(t.attempts, t.callbacks[k]);
      if k == mine.id {
        RecordedNumbers(t.attempts, mine, u.attempts[key], u.callbacks[k]);
      } else {
        OtherAttemptsFrame(t.attempts, key, u.attempts[key], t.callbacks[k]);
      }
    }
    ReplaceKeepsRows(t, u, u.callbacks[mine.id]);
  }

  lemma PlacedKeepsRows(t: Tables, mine: Callback, result: DialResult)
    requires RowsInv(t) && Holds(t, mine) && Placed(result)
    ensures RowsInv(PlacedTx(t, mine, result))
  {
    var u := PlacedTx(t, mine, result);
    var key := AttemptKey(mine.id, mine.attemptCount);
    assert RowInv(t.attempts, t.callbacks[mine.id]);
    forall k | k in u.callbacks ensures RowInv(u.attempts, u.callbacks[k]) {
      assert RowInv(t.attempts, t.callbacks[k]);
      if k == mine.id {
        RecordedNumbers(t.attempts, mine, u.attempts[key], u.callbacks[k]);
      } else {
        OtherAttemptsFrame(t.attempts, key, u.attempts[key], t.callbacks[k]);
      }
    }
    ReplaceKeepsRows(t, u, u.callbacks[mine.id]);
  }

  /** No call row links to a claimed callback, so the id minted for it has no link yet. */
  lemma MintedIdIsUnlinked(t: Tables, mine: Callback, id: string)
    requires LinksInv(t) && Holds(t, mine) && MintedFor(id, mine.id)
    ensures id in t.calls ==> t.calls[id].callbackId.None?
  {
    if id in t.calls && t.calls[id].callbackId.Some? {
      assert LinkInv(t, id, t.calls[id].callbackId.value);
      MintedIdNamesOneCallback(id, mine.id, t.calls[id].callbackId.value);
    }
  }

  lemma PlacedKeepsLinks(t: Tables, mine: Callback, result: DialResult)
    requires LinksInv(t) && Holds(t, mine)
    requires AttemptKey(mine.id, mine.attemptCount) !in t.attempts
    requires Placed(result) && MintedFor(result.callId.value, mine.id)
    ensures LinksInv(PlacedTx(t, mine, result))
  {
    var u := PlacedTx(t, mine, result);
    var minted := result.callId.value;
    UpsertKeepsIds(t, minted, DialWrites(mine));
    MintedIdIsUnlinked(t, mine, minted);
    forall id | id in u.calls && u.calls[id].callbackId.Some? ensures LinkInv(u, id, u.calls[id].callbackId.value) {
      if id != minted {
        assert LinkInv(t, id, t.calls[id].callbackId.value);
      }
    }
    forall k | k in u.callbacks && WasPlaced(u.callbacks[k]) ensures exists id :: LinksTo(u.calls, id, k) {
      if k == mine.id {
        assert LinksTo(u.calls, minted, k);
      } else {
        var id :| LinksTo(t.calls, id, k);
        assert LinksTo(u.calls, id, k);
      }
    }
  }

  lemma RecordKeepsRows(t: Tables, mine: Callback, now: Instant, result: DialResult)
    requires RowsInv(t) && Holds(t, mine)
    ensures RowsInv(RecordTx(t, mine, now, result))
  {
    if Placed(result) {
      PlacedKeepsRows(t, mine, result);
    } else {
      RefusedKeepsRows(t, mine, now, result);
    }
  }

  lemma RecordKeepsLinks(t: Tables, mine: Callback, now: Instant, result: DialResult)
    requires LinksInv(t) && Holds(t, mine)
    requires AttemptKey(mine.id, mine.attemptCount) !in t.attempts
    requires Placed(result) ==> MintedFor(result.callId.value, mine.id)
    ensures LinksInv(RecordTx(t, mine, now, result))
  {
    if Placed(result) {
      PlacedKeepsLinks(t, mine, result);
    } else {
      LinksFrame(t, RefusedTx(t, mine, now, result));
    }
  }

  lemma PlacedKeepsLog(t: Tables, mine: Callback, result: DialResult)
    requires LogInv(t) && Holds(t, mine) && mine.status == IN_PROGRESS && Placed(result)
    ensures LogInv(PlacedTx(t, mine, result))
  {
    var u := PlacedTx(t, mine, result);
    LogStep(t, u, u.events[|t.events|], mine.id);
  }

  lemma RefusedKeepsLog(t: Tables, mine: Callback, now: Instant, result: DialResult)
    requires LogInv(t) && Holds(t, mine) && mine.status == IN_PROGRESS
    ensures LogInv(RefusedTx(t, mine, now, result))
  {
    var u := RefusedTx(t, mine, now, result);
    LogStep(t, u, u.events[|t.events|], mine.id);
  }

  lemma RecordKeepsLog(t: Tables, mine: Callback, now: Instant, result: DialResult)
    requires LogInv(t) && Holds(t, mine) && mine.status == IN_PROGRESS
    ensures LogInv(RecordTx(t, mine, now, result))
  {
    if Placed(result) {
      PlacedKeepsLog(t, mine, result);
    } else {
      RefusedKeepsLog(t, mine, now, result);
    }
  }

  lemma InsertKeepsRows(t: Tables, leadId: nat, source: nat, at: Instant, request: ScheduleRequest)
    requires RowsInv(t)
    ensures RowsInv(InsertCallback(t, leadId, source, at, request))
  {
    var u := InsertCallback(t, leadId, source, at, request);
    forall k | k in u.callbacks ensures RowInv(u.attempts, u.callbacks[k]) {
      if k in t.callbacks {
        assert RowInv(t.attempts, t.callbacks[k]);
      } else {
        NewRowInv(u.attempts, u.callbacks[k]);
      }
    }
    forall j, k | j in u.callbacks && k in u.callbacks && j != k
      ensures !ScheduledBy(u.callbacks[j], u.callbacks[k].sourceCallId, u.callbacks[k].scheduledAt)
    {
      assert u.callbacks != t.callbacks ==> !IsScheduled(t.callbacks, source, at);
    }
  }

  lemma ScheduleKeepsRows(t: Tables, request: ScheduleRequest)
    requires RowsInv(t)
    ensures RowsInv(ScheduleTx(t, request))
  {
    if request.callbackTime.Some? {
      var called := UpsertCall(t, request.sarvamCallId, ScheduleWrites(request));
      InsertKeepsRows(called, request.leadId, called.calls[request.sarvamCallId].id,
                      request.callbackTime.value, request);
    }
  }

  lemma InsertKeepsLinks(t: Tables, leadId: nat, source: nat, at: Instant, request: ScheduleRequest)
    requires LinksInv(t) && t.nextCallbackId !in t.callbacks
    ensures LinksInv(InsertCallback(t, leadId, source, at, request))
  {
    LinksFrame(t, InsertCallback(t, leadId, source, at, request));
  }

  lemma ScheduleKeepsLinks(t: Tables, request: ScheduleRequest)
    requires LinksInv(t) && t.nextCallbackId !in t.callbacks
    ensures LinksInv(ScheduleTx(t, request))
  {
    if request.callbackTime.Some? {
      var called := UpsertCall(t, request.sarvamCallId, ScheduleWrites(request));
      UpsertKeepsLinks(t, request.sarvamCallId, ScheduleWrites(request));
      InsertKeepsLinks(called, request.leadId, called.calls[request.sarvamCallId].id,
                       request.callbackTime.value, request);
      LinksFrame(ScheduleRows(t, request, request.callbackTime.value), ScheduleTx(t, request));
    }
  }

  lemma ScheduleKeepsLog(t: Tables, request: ScheduleRequest)
    requires LogInv(t) && t.nextCallbackId !in t.callbacks
    ensures LogInv(ScheduleTx(t, request))
  {
    if request.callbackTime.Some? {
      var u := ScheduleTx(t, request);
      var event := u.events[|t.events|];
      InsertKeepsLog(t, u, event, event.payload.callbackId);
    }
  }

  /** The row scheduled, new or found, gains one CALLBACK_SCHEDULED event. */
  lemma InsertKeepsLog(t: Tables, u: Tables, event: Event, k: nat)
    requires LogInv(t) && u.events == t.events + [event]
    requires event.eventType == CALLBACK_SCHEDULED && event.payload == OfCallback(k)
    requires k in u.callbacks && u.callbacks == t.callbacks[k := u.callbacks[k]]
    requires k in t.callbacks ==> u.callbacks[k] == t.callbacks[k]
    requires k !in t.callbacks ==>
               u.callbacks[k].status == PENDING && u.callbacks[k].attemptCount == 0 && u.callbacks[k].claimedAt.None?
    ensures LogInv(u)
  {
    LogStep(t, u, event, k);
  }

  lemma CaptureKeepsTables(t: Tables, id: string, leadId: nat, summary: Option<string>)
    requires TablesInv(t)
    ensures TablesInv(CaptureTx(t, id, leadId, summary))
  {
    var u := CaptureTx(t, id, leadId, summary);
    UpsertKeepsLinks(t, id, CaptureWrites(leadId, summary));
    forall k: nat ensures LogAgrees(u, k) {
      assert LogAgrees(t, k);
    }
  }

  lemma CloseKeepsRows(t: Tables, leadId: nat, call: Call, now: Instant)
    requires RowsInv(t)
    requires call.callbackId.Some? ==>
               call.callbackId.value in t.callbacks && WasPlaced(t.callbacks[call.callbackId.value])
    ensures RowsInv(CloseCallback(t, leadId, call, now))
  {
    if call.callbackId.Some? {
      var u := CloseCallback(t, leadId, call, now);
      var c := call.callbackId.value;
      CompletedRowInv(t.attempts, t.callbacks[c], now);
      ReplaceKeepsRows(t, u, u.callbacks[c]);
    }
  }

  lemma CloseKeepsLinks(t: Tables, leadId: nat, call: Call, now: Instant)
    requires LinksInv(t)
    requires call.callbackId.Some? ==>
               call.callbackId.value in t.callbacks && WasPlaced(t.callbacks[call.callbackId.value])
    ensures LinksInv(CloseCallback(t, leadId, call, now))
  {
    LinksFrame(t, CloseCallback(t, leadId, call, now));
  }

  lemma CloseKeepsLog(t: Tables, leadId: nat, call: Call, now: Instant)
    requires LogInv(t)
    requires call.callbackId.Some? ==>
               call.callbackId.value in t.callbacks && WasPlaced(t.callbacks[call.callbackId.value])
    ensures LogInv(CloseCallback(t, leadId, call, now))
  {
    var u := CloseCallback(t, leadId, call, now);
    if |u.events| > |t.events| {
      LogStep(t, u, u.events[|t.events|], call.callbackId.value);
    }
  }

  lemma CompletedKeepsTables(t: Tables, request: CompletionRequest, seen: Option<CallDirection>)
    requires TablesInv(t)
    ensures TablesInv(CompletedCall(t, request, seen))
  {
    var called := UpsertCall(t, request.sarvamCallId, CompletionWrites(request, seen));
    var closed := CompletedCall(t, request, seen);
    UpsertKeepsLinks(t, request.sarvamCallId, CompletionWrites(request, seen));
    LinksFrame(called, closed);
    LogFrame(t, closed, closed.events[|t.events|]);
  }

  lemma CompleteKeepsTables(t: Tables, request: CompletionRequest, seen: Option<CallDirection>, now: Instant)
    requires TablesInv(t)
    ensures TablesInv(CompleteCallTx(t, request, seen, now))
  {
    var closed := CompletedCall(t, request, seen);
    CompletedKeepsTables(t, request, seen);
    var call := closed.calls[request.sarvamCallId];
    if call.callbackId.Some? {
      assert LinkInv(closed, request.sarvamCallId, call.callbackId.value);
    }
    CloseKeepsRows(closed, request.leadId, call, now);
    CloseKeepsLinks(closed, request.leadId, call, now);
    CloseKeepsLog(closed, request.leadId, call, now);
  }

  /** A message transaction: other tables, and an event that names no callback. */
  lemma MessageKeepsTables(t: Tables, u: Tables, event: Event)
    requires TablesInv(t)
    requires u == t.(messages := u.messages, events := t.events + [event])
    requires forall k :: !Names(event, k)
    ensures TablesInv(u)
  {
    LinksFrame(t, u);
    LogFrame(t, u, event);
  }
}
