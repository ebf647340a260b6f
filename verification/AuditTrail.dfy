/** History that no action rewrites: the audit log and the attempt rows, and under
    which call each callback event is filed. */
module AuditTrail {
  import opened Schema
  import opened EventLog
  import opened Transactions
  import opened Protocol
  import opened CallbackInvariant
  import opened Runs

  /** One log is the other with events added at its end, and no attempt row changed. */
  ghost predicate Extends(t: Tables, u: Tables) {
    && t.events <= u.events
    && forall key :: key in t.attempts ==> key in u.attempts && u.attempts[key] == t.attempts[key]
  }

  lemma WorkerAppends(s: State, action: Action)
    requires Enabled(s, action) && (action.CommitClaim? || action.RecordDial?)
    ensures Extends(s.t, Apply(s, action).t)
  {
  }

  lemma StepAppends(s: State, action: Action)
    requires Enabled(s, action)
    ensures Extends(s.t, Apply(s, action).t)
  {
    if action.CommitClaim? || action.RecordDial? {
      WorkerAppends(s, action);
    }
  }

  /** The log only grows at its end, and no attempt row is ever changed. */
  lemma {:induction false} HistoryIsPermanent(states: seq<State>, actions: seq<Action>, i: nat, j: nat)
    requires Run(states, actions) && i <= j < |states|
    ensures states[i].t.events <= states[j].t.events
    ensures forall key :: key in states[i].t.attempts ==>
              key in states[j].t.attempts && states[j].t.attempts[key] == states[i].t.attempts[key]
  {
    if i < j {
      HistoryIsPermanent(states, actions, i, j - 1);
      assert Steps(states, actions, j - 1);
      StepAppends(states[j - 1], actions[j - 1]);
    }
  }

  predicate CallWithId(calls: map<string, Call>, id: string, callId: nat, k: nat) {
    LinksTo(calls, id, k) && calls[id].id == callId
  }

  /** The event that names callback k is filed under the call it belongs to, and what the
      worker logs under the callback's lead; an attempt event carries its own ordinal. The
      lead of the other two events is the one their request named. */
  ghost predicate Filed(t: Tables, event: Event, k: nat, ordinal: nat) {
    && k in t.callbacks
    && match event.eventType
       case CALLBACK_SCHEDULED => event.callId == t.callbacks[k].sourceCallId
       case CALLBACK_ATTEMPTED =>
         && event.callId == t.callbacks[k].sourceCallId && event.leadId == t.callbacks[k].leadId
         && event.payload == OfAttempt(k, ordinal)
       case CALLBACK_TRIGGERED =>
         event.callId == t.callbacks[k].sourceCallId && event.leadId == t.callbacks[k].leadId
       case CALLBACK_FAILED =>
         event.callId == t.callbacks[k].sourceCallId && event.leadId == t.callbacks[k].leadId
       case CALLBACK_COMPLETED =>
         t.callbacks[k].status == COMPLETED && exists id :: CallWithId(t.calls, id, event.callId, k)
       case _ => false
  }

  lemma FiledSurvives(states: seq<State>, actions: seq<Action>, i: nat, event: Event, k: nat, ordinal: nat)
    requires Run(states, actions) && i < |actions|
    requires Filed(states[i].t, event, k, ordinal)
    ensures Filed(states[i + 1].t, event, k, ordinal)
  {
    RequestNeverChanges(states, actions, i, i + 1, k);
    if event.eventType == CALLBACK_COMPLETED {
      SettledCallbackIsFinal(states, actions, i, i + 1, k);
      var id :| CallWithId(states[i].t.calls, id, event.callId, k);
      LinkSurvives(states, actions, i, id, k);
      assert Steps(states, actions, i);
      CallIdIsPermanent(states[i], actions[i], id);
      assert CallWithId(states[i + 1].t.calls, id, event.callId, k);
    }
  }

  lemma CallIdIsPermanent(s: State, action: Action, id: string)
    requires Enabled(s, action) && id in s.t.calls
    ensures id in Apply(s, action).t.calls && Apply(s, action).t.calls[id].id == s.t.calls[id].id
  {
    StepWrites(s, action, id);
  }

  /** The events an action adds, when it adds one about a callback. */
  lemma ClaimFiles(t: Tables, read: Callback, now: Instant)
    requires read.id in t.callbacks && t.callbacks[read.id] == read && LogAgrees(t, read.id)
    ensures var u := ClaimTx(t, read, now);
            |u.events| == |t.events| + 1
            && Filed(u, u.events[|t.events|], read.id, TallyOf(u.events, read.id).attempted)
  {
    var u := ClaimTx(t, read, now);
    TallyAppend(t.events, u.events[|t.events|], read.id);
  }

  lemma RecordFiles(t: Tables, mine: Callback, now: Instant, result: DialResult)
    requires Holds(t, mine)
    ensures var u := RecordTx(t, mine, now, result);
            |u.events| == |t.events| + 1 && forall n: nat :: Filed(u, u.events[|t.events|], mine.id, n)
  {
  }

  lemma ScheduleFiles(t: Tables, request: ScheduleRequest, n: nat)
    requires request.callbackTime.Some?
    ensures var u := ScheduleTx(t, request);
            |u.events| == |t.events| + 1 && u.events[|t.events|].payload.OfCallback?
            && Filed(u, u.events[|t.events|], u.events[|t.events|].payload.callbackId, n)
  {
  }

  lemma CompletionFiles(t: Tables, request: CompletionRequest, seen: Option<CallDirection>, now: Instant,
                        i: nat, k: nat, n: nat)
    requires |t.events| <= i < |CompleteCallTx(t, request, seen, now).events|
    requires Names(CompleteCallTx(t, request, seen, now).events[i], k)
    ensures Filed(CompleteCallTx(t, request, seen, now), CompleteCallTx(t, request, seen, now).events[i], k, n)
  {
    var u := CompleteCallTx(t, request, seen, now);
    var event := u.events[i];
    assert CallWithId(u.calls, request.sarvamCallId, event.callId, k);
  }

  lemma LogAt(states: seq<State>, actions: seq<Action>, i: nat, k: nat)
    requires Run(states, actions) && i < |states| && k in states[i].t.callbacks
    ensures LogAgrees(states[i].t, k)
  {
    RowAt(states, actions, i, k);
  }

  lemma ClaimStepFiles(states: seq<State>, actions: seq<Action>, i: nat, k: nat)
    requires Run(states, actions) && i < |actions| && actions[i].CommitClaim?
    ensures var t, u := states[i].t, states[i + 1].t;
            |u.events| == |t.events| + 1
            && (Names(u.events[|t.events|], k) ==>
                  Filed(u, u.events[|t.events|], k, TallyOf(u.events, k).attempted))
  {
    var pc := PcAt(states, actions, i);
    ClaimAt(states, actions, i);
    LogAt(states, actions, i, pc.row.id);
    ClaimFiles(states[i].t, pc.row, pc.now);
  }

  lemma RecordStepFiles(states: seq<State>, actions: seq<Action>, i: nat, k: nat, ordinal: nat)
    requires Run(states, actions) && i < |actions| && actions[i].RecordDial?
    ensures var t, u := states[i].t, states[i + 1].t;
            |u.events| == |t.events| + 1
            && (Names(u.events[|t.events|], k) ==> Filed(u, u.events[|t.events|], k, ordinal))
  {
    var pc := PcAt(states, actions, i);
    RecordAt(states, actions, i);
    RecordFiles(states[i].t, pc.row, pc.now, pc.result);
  }

  lemma RequestFiles(s: State, action: Action, n: nat, k: nat, ordinal: nat)
    requires Enabled(s, action) && !action.CommitClaim? && !action.RecordDial?
    requires |s.t.events| <= n < |Apply(s, action).t.events| && Names(Apply(s, action).t.events[n], k)
    ensures Filed(Apply(s, action).t, Apply(s, action).t.events[n], k, ordinal)
  {
    match action
    case Schedule(request) => ScheduleFiles(s.t, request, ordinal);
    case CompleteCall(a, now) =>
      CompletionFiles(s.t, s.actors[a].pc.completion, s.actors[a].pc.seen, now, n, k, ordinal);
    case _ =>
  }

  lemma StepFiles(states: seq<State>, actions: seq<Action>, i: nat, n: nat, k: nat)
    requires Run(states, actions) && i < |actions|
    requires |states[i].t.events| <= n < |states[i + 1].t.events| && Names(states[i + 1].t.events[n], k)
    ensures Filed(states[i + 1].t, states[i + 1].t.events[n], k, TallyOf(states[i + 1].t.events[..n + 1], k).attempted)
  {
    var ordinal := TallyOf(states[i + 1].t.events[..n + 1], k).attempted;
    if actions[i].CommitClaim? {
      ClaimStepFiles(states, actions, i, k);
      assert states[i + 1].t.events[..n + 1] == states[i + 1].t.events;
    } else if actions[i].RecordDial? {
      RecordStepFiles(states, actions, i, k, ordinal);
    } else {
      assert Steps(states, actions, i);
      RequestFiles(states[i], actions[i], n, k, ordinal);
    }
  }

  /** Every event that names a callback is filed where it belongs: scheduling and dialling
      under its source call, completion under the call the worker placed for it; and the
      attempts it records are numbered 1, 2, 3 .. in the order they were logged. */
  lemma {:induction false} CallbackEventsAreFiled(states: seq<State>, actions: seq<Action>, i: nat, n: nat, k: nat)
    requires Run(states, actions) && i < |states| && n < |states[i].t.events| && Names(states[i].t.events[n], k)
    ensures Filed(states[i].t, states[i].t.events[n], k, TallyOf(states[i].t.events[..n + 1], k).attempted)
  {
    if i > 0 {
      var before, after := states[i - 1].t.events, states[i].t.events;
      if n < |before| {
        HistoryIsPermanent(states, actions, i - 1, i);
        assert after[n] == before[n] && after[..n + 1] == before[..n + 1];
        CallbackEventsAreFiled(states, actions, i - 1, n, k);
        FiledSurvives(states, actions, i - 1, after[n], k, TallyOf(after[..n + 1], k).attempted);
      } else {
        StepFiles(states, actions, i - 1, n, k);
      }
    }
  }

  // ------------------------------------------------------------ call columns

  /** What the action asks to be written to the call with this id, if it does, told from the
      request or the dial alone. */
  function WritesOf(s: State, action: Action, id: string): Option<CallWrites>
    requires Enabled(s, action)
  {
    match action
    case RecordDial(a) =>
      var pc := s.actors[a].pc;
      if Placed(pc.result) && pc.result.callId.value == id then
        Some(CallWrites(pc.row.leadId, CALLBACK, "active", Put(Some(pc.row.id)), Keep, Keep))
      else None
    case Schedule(request) =>
      if request.callbackTime.Some? && request.sarvamCallId == id then
        Some(CallWrites(request.leadId, INITIAL, "active", Keep, Put(request.summary), Keep))
      else None
    case Capture(sarvamCallId, leadId, summary) =>
      if sarvamCallId == id then Some(CallWrites(leadId, INITIAL, "active", Keep, Put(summary), Keep)) else None
    case CompleteCall(a, _) =>
      var pc := s.actors[a].pc;
      if pc.completion.sarvamCallId == id then
        Some(CallWrites(pc.completion.leadId, if pc.seen == Some(CALLBACK) then CALLBACK else INITIAL, "completed",
                        Keep, Put(pc.completion.summary), Put(Some(pc.completion.closing))))
      else None
    case _ => None
  }

  function Overwritten(before: Call, w: CallWrites): Call {
    before.(leadId := w.leadId, direction := w.direction, status := w.status,
            callbackId := Written(w.callbackId, before.callbackId),
            summary := Written(w.summary, before.summary),
            closing := Written(w.closing, before.closing))
  }

  lemma UpsertWrites(t: Tables, target: string, w: CallWrites, id: string)
    ensures var after := UpsertCall(t, target, w).calls;
            && (id in after <==> id in t.calls || id == target)
            && (id in t.calls ==> after[id] == if id == target then Overwritten(t.calls[id], w) else t.calls[id])
            && (id == target && id !in t.calls ==>
                  after[id] == Overwritten(Call(t.nextCallId, 0, None, INITIAL, "", None, None), w))
    ensures UpsertCall(t, target, w).nextCallId == t.nextCallId + 1
  {
  }

  lemma StepWrites(s: State, action: Action, id: string)
    requires Enabled(s, action)
    ensures var w, before, after := WritesOf(s, action, id), s.t.calls, Apply(s, action).t.calls;
            && (id in after <==> id in before || w.Some?)
            && (w.None? && id in before ==> after[id] == before[id])
            && (w.Some? && id in before ==> after[id] == Overwritten(before[id], w.value))
            && (w.Some? && id !in before ==>
                  after[id] == Overwritten(Call(s.t.nextCallId, 0, None, INITIAL, "", None, None), w.value))
  {
    match action
    case RecordDial(a) =>
      var pc := s.actors[a].pc;
      if Placed(pc.result) { UpsertWrites(s.t, pc.result.callId.value, DialWrites(pc.row), id); }
    case Schedule(request) =>
      if request.callbackTime.Some? { UpsertWrites(s.t, request.sarvamCallId, ScheduleWrites(request), id); }
    case Capture(target, leadId, summary) => UpsertWrites(s.t, target, CaptureWrites(leadId, summary), id);
    case CompleteCall(a, _) =>
      var pc := s.actors[a].pc;
      UpsertWrites(s.t, pc.completion.sarvamCallId, CompletionWrites(pc.completion, pc.seen), id);
      assert pc.seen.Some? ==> pc.seen.value.INITIAL? || pc.seen.value.CALLBACK?;
    case _ =>
  }

  /** The columns of a call that the four upserts write, label for those each of them writes. */
  datatype Column = Label | Summary | Closed | Link

  predicate Puts(w: CallWrites, column: Column) {
    match column
    case Label => true
    case Summary => w.summary.Put?
    case Closed => w.closing.Put?
    case Link => w.callbackId.Put?
  }

  predicate Carries(call: Call, w: CallWrites, column: Column) {
    match column
    case Label => call.leadId == w.leadId && call.direction == w.direction && call.status == w.status
    case Summary => Put(call.summary) == w.summary
    case Closed => Put(call.closing) == w.closing
    case Link => Put(call.callbackId) == w.callbackId
  }

  predicate Blank(call: Call, column: Column) {
    match column
    case Label => false
    case Summary => call.summary.None?
    case Closed => call.closing.None?
    case Link => call.callbackId.None?
  }

  /** The last of the first i actions that put this column of this call. */
  ghost function LastPut(states: seq<State>, actions: seq<Action>, i: nat, id: string, column: Column):
    Option<CallWrites>
    requires Run(states, actions) && i < |states|
  {
    if i == 0 then None
    else
      assert Steps(states, actions, i - 1);
      var w := WritesOf(states[i - 1], actions[i - 1], id);
      if w.Some? && Puts(w.value, column) then w else LastPut(states, actions, i - 1, id, column)
  }

  /** The call carries last in this column, is blank there without one, or has no row. */
  ghost predicate Stands(calls: map<string, Call>, id: string, last: Option<CallWrites>, column: Column) {
    if id !in calls then last.None?
    else if last.Some? then Carries(calls[id], last.value, column)
    else Blank(calls[id], column)
  }

  lemma WriteStands(s: State, action: Action, id: string, last: Option<CallWrites>, column: Column)
    requires Enabled(s, action) && Stands(s.t.calls, id, last, column)
    ensures var w := WritesOf(s, action, id);
            Stands(Apply(s, action).t.calls, id, if w.Some? && Puts(w.value, column) then w else last, column)
  {
    StepWrites(s, action, id);
  }

  /** In every column of a call stands what the last tool that writes this column put there:
      no upsert disturbs a column it is not given. */
  lemma {:induction false} LastWriterWins(states: seq<State>, actions: seq<Action>, i: nat, id: string, column: Column)
    requires Run(states, actions) && i < |states|
    ensures Stands(states[i].t.calls, id, LastPut(states, actions, i, id, column), column)
  {
    if i > 0 {
      LastWriterWins(states, actions, i - 1, id, column);
      assert Steps(states, actions, i - 1);
      WriteStands(states[i - 1], actions[i - 1], id, LastPut(states, actions, i - 1, id, column), column);
    }
  }

  /** Step m writes the last completion of this call before state j. */
  predicate IsLastCompletion(states: seq<State>, actions: seq<Action>, m: nat, j: nat, id: string)
    requires m < j <= |actions| <= |states|
  {
    Completes(states[m], actions[m], id) && !CompletedBetween(states, actions, m + 1, j, id)
  }

  lemma {:induction false} NoCompletionYet(states: seq<State>, actions: seq<Action>, i: nat, id: string)
    requires Run(states, actions) && i < |states| && !CompletedBetween(states, actions, 0, i, id)
    ensures LastPut(states, actions, i, id, Closed).None?
  {
    if i > 0 {
      NoCompletionYet(states, actions, i - 1, id);
      assert Steps(states, actions, i - 1);
    }
  }

  lemma {:induction false} LastCompletion(states: seq<State>, actions: seq<Action>, i: nat, m: nat, id: string)
    requires Run(states, actions) && m < i < |states| && IsLastCompletion(states, actions, m, i, id)
    ensures var pc := states[m].actors[actions[m].actor].pc;
            && LastPut(states, actions, i, id, Closed).Some?
            && LastPut(states, actions, i, id, Closed).value.closing == Put(Some(pc.completion.closing))
  {
    assert Steps(states, actions, i - 1);
    if m + 1 < i {
      LastCompletion(states, actions, i - 1, m, id);
    }
  }

  /** The closing columns are empty until a completion of this very call is written, and hold
      what the last such completion said. */
  lemma ClosingComesFromCompletion(states: seq<State>, actions: seq<Action>, i: nat, id: string)
    requires Run(states, actions) && i < |states| && id in states[i].t.calls
    ensures !CompletedBetween(states, actions, 0, i, id) ==> states[i].t.calls[id].closing.None?
    ensures forall m :: 0 <= m < i && IsLastCompletion(states, actions, m, i, id) ==>
              states[i].t.calls[id].closing == Some(states[m].actors[actions[m].actor].pc.completion.closing)
  {
    LastWriterWins(states, actions, i, id, Closed);
    if !CompletedBetween(states, actions, 0, i, id) {
      NoCompletionYet(states, actions, i, id);
    }
    forall m | 0 <= m < i && IsLastCompletion(states, actions, m, i, id)
      ensures states[i].t.calls[id].closing == Some(states[m].actors[actions[m].actor].pc.completion.closing)
    {
      LastCompletion(states, actions, i, m, id);
    }
  }

  /** The last of the first i actions to write this call was a completion. */
  ghost predicate CompletedLast(states: seq<State>, actions: seq<Action>, i: nat, id: string)
    requires Run(states, actions) && i < |states|
  {
    i > 0
    && (assert Steps(states, actions, i - 1);
        if WritesOf(states[i - 1], actions[i - 1], id).Some? then actions[i - 1].CompleteCall?
        else CompletedLast(states, actions, i - 1, id))
  }

  lemma {:induction false} LastStatus(states: seq<State>, actions: seq<Action>, i: nat, id: string)
    requires Run(states, actions) && i < |states|
    ensures var last := LastPut(states, actions, i, id, Label);
            last.Some? ==> last.value.status == if CompletedLast(states, actions, i, id) then "completed" else "active"
  {
    if i > 0 {
      LastStatus(states, actions, i - 1, id);
      assert Steps(states, actions, i - 1);
    }
  }

  /** A call is "completed" exactly when the last tool that wrote it was a completion, and
      "active" otherwise. */
  lemma StatusSaysLastTool(states: seq<State>, actions: seq<Action>, i: nat, id: string)
    requires Run(states, actions) && i < |states| && id in states[i].t.calls
    ensures states[i].t.calls[id].status == if CompletedLast(states, actions, i, id) then "completed" else "active"
  {
    LastWriterWins(states, actions, i, id, Label);
    LastStatus(states, actions, i, id);
  }

  /** Right after a tool call, the call row carries what the tool was given. */
  lemma CallStoresRequest(states: seq<State>, actions: seq<Action>, i: nat)
    requires Run(states, actions) && i < |actions|
    ensures actions[i].CompleteCall? ==>
              var request, calls := PcAt(states, actions, i).completion, states[i + 1].t.calls;
              && request.sarvamCallId in calls
              && var call := calls[request.sarvamCallId];
              && call.status == "completed" && call.leadId == request.leadId
              && call.summary == request.summary && call.closing == Some(request.closing)
    ensures actions[i].Schedule? && actions[i].schedule.callbackTime.Some? ==>
              var request, calls := actions[i].schedule, states[i + 1].t.calls;
              && request.sarvamCallId in calls
              && var call := calls[request.sarvamCallId];
              && call.status == "active" && call.leadId == request.leadId
              && call.direction == INITIAL && call.summary == request.summary
    ensures actions[i].Capture? ==>
              var calls := states[i + 1].t.calls;
              && actions[i].sarvamCallId in calls
              && var call := calls[actions[i].sarvamCallId];
              && call.status == "active" && call.leadId == actions[i].leadId
              && call.direction == INITIAL && call.summary == actions[i].summary
  {
    assert Steps(states, actions, i);
    match actions[i]
    case CompleteCall(_, _) => StepWrites(states[i], actions[i], PcAt(states, actions, i).completion.sarvamCallId);
    case Schedule(request) => StepWrites(states[i], actions[i], request.sarvamCallId);
    case Capture(id, _, _) => StepWrites(states[i], actions[i], id);
    case _ =>
  }

  /** The upserts that write INITIAL over the label: schedule and the high-intent tool always,
      and a completion that did not see CALLBACK when it read the call. */
  predicate Relabels(s: State, action: Action, id: string)
    requires Enabled(s, action)
  {
    match action
    case Schedule(request) => request.sarvamCallId == id && request.callbackTime.Some?
    case Capture(sarvamCallId, _, _) => sarvamCallId == id
    case CompleteCall(a, _) =>
      s.actors[a].pc.completion.sarvamCallId == id && s.actors[a].pc.seen != Some(CALLBACK)
    case _ => false
  }

  /** A call labelled CALLBACK keeps its label exactly as long as neither schedule nor the
      high-intent tool is called for it, nor a completion written that had read it before it
      was labelled. */
  lemma DirectionKeptExactly(s: State, action: Action, id: string)
    requires Enabled(s, action) && id in s.t.calls && s.t.calls[id].direction == CALLBACK
    ensures id in Apply(s, action).t.calls
    ensures Apply(s, action).t.calls[id].direction == CALLBACK <==> !Relabels(s, action, id)
  {
    StepWrites(s, action, id);
  }

  /** Neither schedule nor the high-intent tool writes this call between states i and j. */
  ghost predicate Spared(actions: seq<Action>, i: nat, j: nat, id: string)
    requires j <= |actions|
  {
    forall m :: i <= m < j ==>
      && (actions[m].Schedule? && actions[m].schedule.callbackTime.Some? ==> actions[m].schedule.sarvamCallId != id)
      && (actions[m].Capture? ==> actions[m].sarvamCallId != id)
  }

  /** A dial is recorded under its call id only once. */
  lemma LinkedIsNotRecorded(states: seq<State>, actions: seq<Action>, i: nat, id: string, k: nat)
    requires Run(states, actions) && i < |actions| && LinksTo(states[i].t.calls, id, k) && actions[i].RecordDial?
    requires Placed(PcAt(states, actions, i).result)
    ensures PcAt(states, actions, i).result.callId != Some(id)
  {
    var pc := PcAt(states, actions, i);
    RecordAt(states, actions, i);
    TablesAt(states, actions, i);
    MintedIdIsUnlinked(states[i].t, pc.row, pc.sarvamCallId);
  }

  /** While a linked call is spared, only its completions write its label. */
  lemma LabelStep(states: seq<State>, actions: seq<Action>, i: nat, id: string, k: nat)
    requires Run(states, actions) && i < |actions| && LinksTo(states[i].t.calls, id, k)
    requires Spared(actions, i, i + 1, id)
    ensures id in states[i + 1].t.calls
    ensures states[i + 1].t.calls[id].direction == CALLBACK
       <==> if Completes(states[i], actions[i], id) then PcAt(states, actions, i).seen == Some(CALLBACK)
            else states[i].t.calls[id].direction == CALLBACK
  {
    assert Steps(states, actions, i);
    StepWrites(states[i], actions[i], id);
    if actions[i].RecordDial? && Placed(PcAt(states, actions, i).result) {
      LinkedIsNotRecorded(states, actions, i, id, k);
    }
  }

  /** That completion, if there was one since state i, had seen CALLBACK when it read the call. */
  ghost predicate LastSawCallback(states: seq<State>, actions: seq<Action>, i: nat, j: nat, id: string)
    requires Run(states, actions) && j <= |actions|
  {
    forall m :: i <= m < j && IsLastCompletion(states, actions, m, j, id) ==>
      PcAt(states, actions, m).seen == Some(CALLBACK)
  }

  lemma LastSawNext(states: seq<State>, actions: seq<Action>, i: nat, j: nat, id: string)
    requires Run(states, actions) && i <= j < |actions|
    ensures LastSawCallback(states, actions, i, j + 1, id)
       <==> if Completes(states[j], actions[j], id) then PcAt(states, actions, j).seen == Some(CALLBACK)
            else LastSawCallback(states, actions, i, j, id)
  {
    assert IsLastCompletion(states, actions, j, j + 1, id) <==> Completes(states[j], actions[j], id);
    forall m | i <= m < j
      ensures IsLastCompletion(states, actions, m, j + 1, id)
         <==> IsLastCompletion(states, actions, m, j, id) && !Completes(states[j], actions[j], id)
    {
    }
  }

  lemma {:induction false} LabelWhileSpared(states: seq<State>, actions: seq<Action>,
                                            i: nat, j: nat, id: string, k: nat)
    requires Run(states, actions) && i <= j < |states| && LinksTo(states[i].t.calls, id, k)
    requires states[i].t.calls[id].direction == CALLBACK && Spared(actions, i, j, id)
    ensures id in states[j].t.calls
    ensures states[j].t.calls[id].direction == CALLBACK <==> LastSawCallback(states, actions, i, j, id)
  {
    if i < j {
      LabelWhileSpared(states, actions, i, j - 1, id, k);
      LinkIsPermanent(states, actions, i, j - 1, id, k);
      LabelStep(states, actions, j - 1, id, k);
      LastSawNext(states, actions, i, j - 1, id);
    }
  }

  /** After its dial is recorded at step i, a call that schedule and the high-intent tool spare
      is labelled CALLBACK exactly when the last completion written for it since then had seen
      CALLBACK when it read the call, or none was written. */
  lemma LabelKeptExactly(states: seq<State>, actions: seq<Action>, i: nat, j: nat)
    requires Run(states, actions) && i < j < |states| && actions[i].RecordDial?
    requires Placed(PcAt(states, actions, i).result)
    requires Spared(actions, i + 1, j, PcAt(states, actions, i).sarvamCallId)
    ensures var id := PcAt(states, actions, i).sarvamCallId;
            && id in states[j].t.calls
            && (states[j].t.calls[id].direction == CALLBACK <==> LastSawCallback(states, actions, i + 1, j, id))
  {
    var pc := PcAt(states, actions, i);
    RecordLinks(states, actions, i);
    RecordAt(states, actions, i);
    LabelWhileSpared(states, actions, i + 1, j, pc.sarvamCallId, pc.row.id);
  }
}
