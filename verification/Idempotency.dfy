/** InMemoryIdempotencyStore: its three locked sections as methods, and every
    interleaving of run_once callers, shared tasks and awaiters over them. */
module Idempotency {
  import Schema

  /** The two fields; a task is named by the order it was created in. */
  datatype Store = Store(completed: set<string>, inFlight: map<string, nat>)

  datatype Entry = AlreadyDone | Await(task: nat, isOwner: bool)

  /** The section before the await: join the task in flight or create one. */
  function Enter(s: Store, key: string, next: nat): (Store, Entry) {
    if key in s.completed then (s, AlreadyDone)
    else if key in s.inFlight then (s, Await(s.inFlight[key], false))
    else (s.(inFlight := s.inFlight[key := next]), Await(next, true))
  }

  function Evict(s: Store, key: string, task: nat): Store {
    if key in s.inFlight && s.inFlight[key] == task then s.(inFlight := s.inFlight - {key}) else s
  }

  /** The section after the await returned. */
  function Finish(s: Store, key: string, task: nat): Store {
    Evict(s.(completed := s.completed + {key}), key, task)
  }

  class InMemoryIdempotencyStore {
    var completed: set<string>
    var inFlight: map<string, nat>

    constructor ()
      ensures Value() == Store({}, map[])
    {
      completed, inFlight := {}, map[];
    }

    function Value(): Store
      reads this
    {
      Store(completed, inFlight)
    }

    method EnterSection(key: string, next: nat) returns (entry: Entry)
      modifies this
      ensures (Value(), entry) == Enter(old(Value()), key, next)
      ensures entry.Await? ==> key in inFlight && inFlight[key] == entry.task && key !in completed
    {
      if key in completed {
        return AlreadyDone;
      }
      if key in inFlight {
        return Await(inFlight[key], false);
      }
      inFlight := inFlight[key := next];
      return Await(next, true);
    }

    method FailedSection(key: string, task: nat)
      modifies this
      ensures Value() == Evict(old(Value()), key, task)
      ensures completed == old(completed) && !(key in inFlight && inFlight[key] == task)
    {
      if key in inFlight && inFlight[key] == task {
        inFlight := inFlight - {key};
      }
    }

    method SucceededSection(key: string, task: nat)
      modifies this
      ensures Value() == Finish(old(Value()), key, task)
      ensures key in completed && !(key in inFlight && inFlight[key] == task)
    {
      completed := completed + {key};
      if key in inFlight && inFlight[key] == task {
        inFlight := inFlight - {key};
      }
    }
  }

  // ------------------------------------------------------- interleavings

  datatype TaskState = Running | Succeeded | Raised

  datatype Task = Task(key: string, creator: nat, state: TaskState)

  /** A caller of run_once: awaiting a task, or returned with its already_sent flag
      and the task whose result came with it, or having re-raised. */
  datatype Caller =
    | Awaiting(key: string, task: nat, isOwner: bool)
    | Returned(key: string, alreadySent: bool, result: Schema.Option<nat>)
    | ReRaised(key: string)

  datatype World = World(store: Store, tasks: seq<Task>, callers: map<nat, Caller>)

  const START := World(Store({}, map[]), [], map[])

  /** Settle is the operation of a task ending; Resume is a caller's await of a settled
      task returning or raising, with the locked section that follows. Callers of one
      task resume in any order. Callers are not cancelled. */
  datatype Move =
    | Call(caller: nat, key: string)
    | Settle(task: nat, success: bool)
    | Resume(caller: nat)

  predicate Enabled(w: World, move: Move) {
    match move
    case Call(c, _) => c !in w.callers
    case Settle(task, _) => task < |w.tasks| && w.tasks[task].state == Running
    case Resume(c) =>
      && c in w.callers && w.callers[c].Awaiting?
      && w.callers[c].task < |w.tasks| && w.tasks[w.callers[c].task].state != Running
  }

  function Apply(w: World, move: Move): World
    requires Enabled(w, move)
  {
    match move
    case Call(c, key) =>
      var (store, entry) := Enter(w.store, key, |w.tasks|);
      (match entry
       case AlreadyDone => w.(callers := w.callers[c := Returned(key, true, Schema.None)])
       case Await(task, isOwner) =>
         World(store,
               if isOwner then w.tasks + [Task(key, c, Running)] else w.tasks,
               w.callers[c := Awaiting(key, task, isOwner)]))
    case Settle(task, success) =>
      w.(tasks := w.tasks[task := w.tasks[task].(state := if success then Succeeded else Raised)])
    case Resume(c) =>
      var me := w.callers[c];
      if w.tasks[me.task].state == Succeeded then
        w.(store := Finish(w.store, me.key, me.task),
           callers := w.callers[c := Returned(me.key, !me.isOwner, Schema.Some(me.task))])
      else
        w.(store := Evict(w.store, me.key, me.task), callers := w.callers[c := ReRaised(me.key)])
  }

  ghost predicate Run(worlds: seq<World>, moves: seq<Move>) {
    && |worlds| == |moves| + 1
    && worlds[0] == START
    && forall i :: 0 <= i < |moves| ==> Enabled(worlds[i], moves[i]) && worlds[i + 1] == Apply(worlds[i], moves[i])
  }

  // ------------------------------------------------------------ invariant

  predicate LiveTask(w: World, task: nat, key: string) {
    task < |w.tasks| && w.tasks[task].key == key && w.tasks[task].state != Raised
  }

  predicate Delivered(w: World, key: string) {
    exists task :: 0 <= task < |w.tasks| && w.tasks[task].key == key && w.tasks[task].state == Succeeded
  }

  predicate Current(w: World, task: nat)
    requires task < |w.tasks|
  {
    w.tasks[task].key in w.store.inFlight && w.store.inFlight[w.tasks[task].key] == task
  }

  /** A task that runs is the one in flight; one that succeeded is in flight or completed. */
  ghost predicate TasksInv(w: World) {
    && (forall task: nat :: task < |w.tasks| && w.tasks[task].state == Running ==>
          w.tasks[task].key !in w.store.completed && Current(w, task))
    && (forall task: nat :: task < |w.tasks| && w.tasks[task].state == Succeeded ==>
          w.tasks[task].key in w.store.completed || Current(w, task))
    && (forall a: nat, b: nat, key :: LiveTask(w, a, key) && LiveTask(w, b, key) ==> a == b)
  }

  ghost predicate CompletedInv(w: World) {
    && (forall key :: key in w.store.completed ==> Delivered(w, key))
    && (forall c :: c in w.callers && w.callers[c].Returned? ==> Delivered(w, w.callers[c].key))
  }

  /** Whoever awaits, awaits a task for its key. */
  ghost predicate AwaitsInv(w: World) {
    forall c :: c in w.callers && w.callers[c].Awaiting? ==>
      var me := w.callers[c];
      && me.task < |w.tasks| && w.tasks[me.task].key == me.key
      && (me.isOwner <==> w.tasks[me.task].creator == c)
  }

  /** A task in flight is still awaited by its creator. */
  ghost predicate InFlightInv(w: World) {
    forall key :: key in w.store.inFlight ==>
      var task := w.store.inFlight[key];
      && task < |w.tasks| && w.tasks[task].key == key
      && w.tasks[task].creator in w.callers
      && w.callers[w.tasks[task].creator] == Awaiting(key, task, true)
  }

  /** The creator of a task that succeeded awaits it or was told it sent. */
  ghost predicate CreatorsInv(w: World) {
    && (forall task: nat :: task < |w.tasks| ==> w.tasks[task].creator in w.callers)
    && (forall a: nat, b: nat :: a < |w.tasks| && b < |w.tasks| && w.tasks[a].creator == w.tasks[b].creator ==> a == b)
    && (forall task: nat :: task < |w.tasks| ==>
          var c := w.callers[w.tasks[task].creator];
          || c == Awaiting(w.tasks[task].key, task, true)
          || (w.tasks[task].state == Succeeded && c == Returned(w.tasks[task].key, false, Schema.Some(task)))
          || (w.tasks[task].state == Raised && c == ReRaised(w.tasks[task].key)))
  }

  predicate IsCreator(w: World, c: nat, task: int) {
    && c in w.callers && w.callers[c].Returned?
    && 0 <= task < |w.tasks| && w.tasks[task] == Task(w.callers[c].key, c, Succeeded)
  }

  /** already_sent = False was only told to the creator of a task that succeeded. */
  ghost predicate AnswersInv(w: World) {
    forall c :: c in w.callers && w.callers[c].Returned? && !w.callers[c].alreadySent ==>
      w.callers[c].result.Some? && exists task :: IsCreator(w, c, task)
  }

  ghost predicate Inv(w: World) {
    TasksInv(w) && CompletedInv(w) && AwaitsInv(w) && InFlightInv(w) && CreatorsInv(w) && AnswersInv(w)
  }

  /** Tasks never change key or creator, and only leave Running. */
  predicate TasksGrow(w: World, u: World) {
    && |w.tasks| <= |u.tasks|
    && forall task :: 0 <= task < |w.tasks| ==>
         && u.tasks[task].key == w.tasks[task].key && u.tasks[task].creator == w.tasks[task].creator
         && (w.tasks[task].state != Running ==> u.tasks[task].state == w.tasks[task].state)
  }

  lemma DeliveredGrows(w: World, u: World, key: string)
    requires TasksGrow(w, u) && Delivered(w, key)
    ensures Delivered(u, key)
  {
    var task :| 0 <= task < |w.tasks| && w.tasks[task].key == key && w.tasks[task].state == Succeeded;
    assert u.tasks[task].key == key && u.tasks[task].state == Succeeded;
  }

  lemma MoveGrowsTasks(w: World, move: Move)
    requires Enabled(w, move)
    ensures TasksGrow(w, Apply(w, move))
  {
  }

  lemma LiveStaysUnique(w: World, move: Move)
    requires TasksInv(w) && InFlightInv(w) && Enabled(w, move)
    ensures var u := Apply(w, move); forall a: nat, b: nat, key :: LiveTask(u, a, key) && LiveTask(u, b, key) ==> a == b
  {
    var u := Apply(w, move);
    forall a: nat, b: nat, key | LiveTask(u, a, key) && LiveTask(u, b, key) ensures a == b {
      assert a < |w.tasks| ==> LiveTask(w, a, key);
      assert b < |w.tasks| ==> LiveTask(w, b, key);
    }
  }

  lemma ResumeKeepsTasks(w: World, c: nat)
    requires TasksInv(w) && AwaitsInv(w) && Enabled(w, Resume(c))
    ensures TasksInv(Apply(w, Resume(c)))
  {
    var u := Apply(w, Resume(c));
    var me := w.callers[c];
    assert forall a: nat, key :: LiveTask(u, a, key) <==> LiveTask(w, a, key);
    forall task: nat | task < |u.tasks| && u.tasks[task].state == Running
      ensures u.tasks[task].key !in u.store.completed && Current(u, task)
    {
      assert Current(w, task);
      assert LiveTask(w, me.task, me.key) && u.tasks[task].key == me.key ==> LiveTask(w, task, me.key);
    }
  }

  lemma MoveKeepsTasks(w: World, move: Move)
    requires TasksInv(w) && AwaitsInv(w) && InFlightInv(w) && Enabled(w, move)
    ensures TasksInv(Apply(w, move))
  {
    LiveStaysUnique(w, move);
    match move
    case Call(_, _) =>
    case Settle(_, _) =>
    case Resume(c) => ResumeKeepsTasks(w, c);
  }

  lemma MoveKeepsCompleted(w: World, move: Move)
    requires CompletedInv(w) && AwaitsInv(w) && Enabled(w, move)
    ensures CompletedInv(Apply(w, move))
  {
    var u := Apply(w, move);
    MoveGrowsTasks(w, move);
    forall key | Delivered(w, key) ensures Delivered(u, key) {
      DeliveredGrows(w, u, key);
    }
    if move.Resume? && w.tasks[w.callers[move.caller].task].state == Succeeded {
      assert Delivered(u, w.callers[move.caller].key);
    }
  }

  lemma MoveKeepsAwaits(w: World, move: Move)
    requires AwaitsInv(w) && InFlightInv(w) && CreatorsInv(w) && Enabled(w, move)
    ensures AwaitsInv(Apply(w, move))
  {
    match move
    case Call(_, _) =>
    case Settle(_, _) =>
    case Resume(_) =>
  }

  lemma CallKeepsInFlight(w: World, c: nat, key: string)
    requires InFlightInv(w) && Enabled(w, Call(c, key))
    ensures InFlightInv(Apply(w, Call(c, key)))
  {
  }

  lemma ResumeKeepsInFlight(w: World, c: nat)
    requires AwaitsInv(w) && InFlightInv(w) && Enabled(w, Resume(c))
    ensures InFlightInv(Apply(w, Resume(c)))
  {
  }

  lemma MoveKeepsInFlight(w: World, move: Move)
    requires AwaitsInv(w) && InFlightInv(w) && Enabled(w, move)
    ensures InFlightInv(Apply(w, move))
  {
    match move
    case Call(c, key) => CallKeepsInFlight(w, c, key);
    case Settle(_, _) =>
    case Resume(c) => ResumeKeepsInFlight(w, c);
  }

  lemma CallKeepsCreators(w: World, c: nat, key: string)
    requires CreatorsInv(w) && Enabled(w, Call(c, key))
    ensures CreatorsInv(Apply(w, Call(c, key)))
  {
    var u := Apply(w, Call(c, key));
    assert forall task: nat :: task < |w.tasks| ==> u.tasks[task] == w.tasks[task];
  }

  lemma ResumeKeepsCreators(w: World, c: nat)
    requires AwaitsInv(w) && CreatorsInv(w) && Enabled(w, Resume(c))
    ensures CreatorsInv(Apply(w, Resume(c)))
  {
  }

  lemma MoveKeepsCreators(w: World, move: Move)
    requires AwaitsInv(w) && CreatorsInv(w) && Enabled(w, move)
    ensures CreatorsInv(Apply(w, move))
  {
    match move
    case Call(c, key) => CallKeepsCreators(w, c, key);
    case Settle(_, _) =>
    case Resume(c) => ResumeKeepsCreators(w, c);
  }

  lemma MoveKeepsAnswers(w: World, move: Move)
    requires AwaitsInv(w) && AnswersInv(w) && Enabled(w, move)
    ensures AnswersInv(Apply(w, move))
  {
    var u := Apply(w, move);
    MoveGrowsTasks(w, move);
    forall c | c in u.callers && u.callers[c].Returned? && !u.callers[c].alreadySent
      ensures u.callers[c].result.Some? && exists task :: IsCreator(u, c, task)
    {
      if move.Resume? && c == move.caller {
        assert IsCreator(u, c, w.callers[c].task);
      } else {
        var task :| IsCreator(w, c, task);
        assert IsCreator(u, c, task);
      }
    }
  }

  lemma {:induction false} RunKeepsInv(worlds: seq<World>, moves: seq<Move>, i: nat)
    requires Run(worlds, moves) && i < |worlds|
    ensures Inv(worlds[i])
  {
    if i > 0 {
      RunKeepsInv(worlds, moves, i - 1);
      MoveKeepsTasks(worlds[i - 1], moves[i - 1]);
      MoveKeepsCompleted(worlds[i - 1], moves[i - 1]);
      MoveKeepsAwaits(worlds[i - 1], moves[i - 1]);
      MoveKeepsInFlight(worlds[i - 1], moves[i - 1]);
      MoveKeepsCreators(worlds[i - 1], moves[i - 1]);
      MoveKeepsAnswers(worlds[i - 1], moves[i - 1]);
    }
  }

  // ------------------------------------------------------------- theorems

  lemma TaskPersists(worlds: seq<World>, moves: seq<Move>, i: nat, task: nat)
    requires Run(worlds, moves) && i < |moves| && task < |worlds[i].tasks|
    ensures task < |worlds[i + 1].tasks|
    ensures worlds[i + 1].tasks[task].key == worlds[i].tasks[task].key
    ensures worlds[i].tasks[task].state != Running ==> worlds[i + 1].tasks[task] == worlds[i].tasks[task]
  {
    MoveGrowsTasks(worlds[i], moves[i]);
  }

  /** An operation for a key starts only after every earlier one for it has raised. So two
      never overlap, at most one succeeds, and after a success none is started. */
  lemma {:induction false} OperationsNeverOverlap(worlds: seq<World>, moves: seq<Move>, i: nat, a: nat, b: nat)
    requires Run(worlds, moves) && i < |worlds| && a < b < |worlds[i].tasks|
    requires worlds[i].tasks[a].key == worlds[i].tasks[b].key
    ensures worlds[i].tasks[a].state == Raised
  {
    if i > 0 {
      var w := worlds[i - 1];
      if b < |w.tasks| {
        TaskPersists(worlds, moves, i - 1, a);
        TaskPersists(worlds, moves, i - 1, b);
        OperationsNeverOverlap(worlds, moves, i - 1, a, b);
      } else {
        RunKeepsInv(worlds, moves, i);
        assert w.tasks == worlds[i].tasks[..b];
        assert LiveTask(worlds[i], b, worlds[i].tasks[b].key);
        assert !LiveTask(worlds[i], a, worlds[i].tasks[b].key);
      }
    }
  }

  /** already_sent = False is told to the creator of the operation that succeeded, to
      nobody else, and never twice for a key. */
  lemma OnlyTheCreatorSends(worlds: seq<World>, moves: seq<Move>, i: nat, c: nat)
    requires Run(worlds, moves) && i < |worlds| && c in worlds[i].callers && worlds[i].callers[c].Returned?
    ensures !worlds[i].callers[c].alreadySent <==> exists task :: IsCreator(worlds[i], c, task)
    ensures !worlds[i].callers[c].alreadySent ==>
              forall d ::
                (&& d in worlds[i].callers && worlds[i].callers[d].Returned?
                 && worlds[i].callers[d].key == worlds[i].callers[c].key
                 && !worlds[i].callers[d].alreadySent)
                ==> d == c
  {
    RunKeepsInv(worlds, moves, i);
    var w := worlds[i];
    if !w.callers[c].alreadySent {
      var task :| IsCreator(w, c, task);
      forall d | d in w.callers && w.callers[d].Returned?
               && w.callers[d].key == w.callers[c].key && !w.callers[d].alreadySent
        ensures d == c
      {
        var other :| IsCreator(w, d, other);
        assert LiveTask(w, task, w.callers[c].key) && LiveTask(w, other, w.callers[c].key);
      }
    }
  }

  /** What run_once owes a caller: nothing more while it awaits a task; the result of that task,
      and whether somebody else created it, once it succeeded; the exception once it raised. */
  predicate Owed(w: World, c: nat, key: string, task: nat, isOwner: bool) {
    && c in w.callers && task < |w.tasks|
    && match w.callers[c]
       case Awaiting(k, t, o) => k == key && t == task && o == isOwner
       case Returned(k, alreadySent, result) =>
         k == key && w.tasks[task].state == Succeeded && alreadySent == !isOwner && result == Schema.Some(task)
       case ReRaised(k) => k == key && w.tasks[task].state == Raised
  }

  /** Every awaiter of a task is answered by that very task, in whatever order they resume. */
  lemma {:induction false} AwaiterGetsItsTask(worlds: seq<World>, moves: seq<Move>, i: nat, j: nat, c: nat)
    requires Run(worlds, moves) && i <= j < |worlds| && c in worlds[i].callers && worlds[i].callers[c].Awaiting?
    ensures var me := worlds[i].callers[c]; Owed(worlds[j], c, me.key, me.task, me.isOwner)
  {
    if i == j {
      RunKeepsInv(worlds, moves, i);
    } else {
      AwaiterGetsItsTask(worlds, moves, i, j - 1, c);
      TaskPersists(worlds, moves, j - 1, worlds[i].callers[c].task);
    }
  }

  /** A call is answered at once, with no result, exactly when its key is completed; otherwise
      it awaits the task in flight, or the one it creates when there is none. */
  lemma CallAnswersOrAwaits(worlds: seq<World>, moves: seq<Move>, i: nat)
    requires Run(worlds, moves) && i < |moves| && moves[i].Call?
    ensures var w, u, c, key := worlds[i], worlds[i + 1], moves[i].caller, moves[i].key;
            && c in u.callers
            && (key in w.store.completed <==> u.callers[c] == Returned(key, true, Schema.None))
            && (key !in w.store.completed && key in w.store.inFlight ==>
                  u.callers[c] == Awaiting(key, w.store.inFlight[key], false) && u.tasks == w.tasks)
            && (key !in w.store.completed && key !in w.store.inFlight ==>
                  && u.callers[c] == Awaiting(key, |w.tasks|, true)
                  && u.tasks == w.tasks + [Task(key, c, Running)]
                  && u.store.inFlight == w.store.inFlight[key := |w.tasks|])
  {
  }

  /** The atomic object: the keys that were sent. */
  function Sent(w: World): set<string> {
    set task | 0 <= task < |w.tasks| && w.tasks[task].state == Succeeded :: w.tasks[task].key
  }

  lemma SentIsDelivered(w: World, key: string)
    ensures key in Sent(w) <==> Delivered(w, key)
  {
    if Delivered(w, key) {
      var task :| 0 <= task < |w.tasks| && w.tasks[task].key == key && w.tasks[task].state == Succeeded;
      assert w.tasks[task].key in Sent(w);
    }
  }

  /** run_once refines an atomic object that sends each key once: an operation's success is
      the one step that sends, of a key not yet sent; every other move changes nothing; and
      a caller is answered only about a key that has been sent. */
  lemma RefinesSendOnce(worlds: seq<World>, moves: seq<Move>, i: nat)
    requires Run(worlds, moves) && i < |moves|
    ensures var w, u, move := worlds[i], worlds[i + 1], moves[i];
            && (if move.Settle? && move.success
                then w.tasks[move.task].key !in Sent(w) && Sent(u) == Sent(w) + {w.tasks[move.task].key}
                else Sent(u) == Sent(w))
            && (forall c :: c in u.callers && u.callers[c].Returned? ==> u.callers[c].key in Sent(u))
  {
    var w, u, move := worlds[i], worlds[i + 1], moves[i];
    RunKeepsInv(worlds, moves, i);
    RunKeepsInv(worlds, moves, i + 1);
    forall c | c in u.callers && u.callers[c].Returned? ensures u.callers[c].key in Sent(u) {
      SentIsDelivered(u, u.callers[c].key);
    }
    if move.Settle? && move.success {
      SettleSendsNewKey(w, move.task);
    } else {
      forall key ensures key in Sent(u) <==> key in Sent(w) {
        SentIsDelivered(w, key);
        SentIsDelivered(u, key);
        SilentMove(w, move, key);
      }
    }
  }

  lemma SettleSendsNewKey(w: World, task: nat)
    requires TasksInv(w) && Enabled(w, Settle(task, true))
    ensures w.tasks[task].key !in Sent(w)
    ensures Sent(Apply(w, Settle(task, true))) == Sent(w) + {w.tasks[task].key}
  {
    var u := Apply(w, Settle(task, true));
    var sent := w.tasks[task].key;
    assert LiveTask(w, task, sent);
    forall t: nat | t < |w.tasks| && w.tasks[t].state == Succeeded ensures w.tasks[t].key != sent {
      assert LiveTask(w, t, w.tasks[t].key);
    }
    forall key ensures key in Sent(u) <==> key in Sent(w) + {sent} {
      if key in Sent(w) {
        var t :| 0 <= t < |w.tasks| && w.tasks[t].state == Succeeded && w.tasks[t].key == key;
        assert u.tasks[t].key in Sent(u);
      }
      assert u.tasks[task].key in Sent(u);
    }
  }

  lemma SilentMove(w: World, move: Move, key: string)
    requires Enabled(w, move) && !(move.Settle? && move.success)
    ensures Delivered(Apply(w, move), key) <==> Delivered(w, key)
  {
    MoveGrowsTasks(w, move);
    var u := Apply(w, move);
    if Delivered(w, key) {
      DeliveredGrows(w, u, key);
    }
    if Delivered(u, key) {
      var task :| 0 <= task < |u.tasks| && u.tasks[task].key == key && u.tasks[task].state == Succeeded;
      assert task < |w.tasks| && w.tasks[task] == u.tasks[task];
    }
  }

  /** Nothing leaks: a task in flight is awaited, so when no call is pending the in-flight
      map is empty and the completed set is exactly the keys that were sent. */
  lemma NothingLeaks(worlds: seq<World>, moves: seq<Move>, i: nat)
    requires Run(worlds, moves) && i < |worlds|
    ensures var w := worlds[i];
            && (forall key :: key in w.store.inFlight ==>
                  exists c :: c in w.callers && w.callers[c] == Awaiting(key, w.store.inFlight[key], true))
            && w.store.completed <= Sent(w)
            && ((forall c :: c in w.callers ==> !w.callers[c].Awaiting?) ==>
                  w.store.inFlight == map[] && w.store.completed == Sent(w))
  {
    RunKeepsInv(worlds, moves, i);
    var w := worlds[i];
    forall key | key in w.store.completed ensures key in Sent(w) {
      SentIsDelivered(w, key);
    }
    if forall c :: c in w.callers ==> !w.callers[c].Awaiting? {
      assert w.store.inFlight.Keys == {};
      forall task: nat | task < |w.tasks| && w.tasks[task].state == Succeeded
        ensures w.tasks[task].key in w.store.completed
      {
        assert w.tasks[task].key in w.store.completed || Current(w, task);
      }
    }
  }

  /** Only an awaiter of the very task that is in flight, once it has ended, evicts it: a late
      awaiter of a failed task never removes the newer one. */
  lemma OnlyOwnAwaiterEvicts(worlds: seq<World>, moves: seq<Move>, i: nat, key: string)
    requires Run(worlds, moves) && i < |moves| && key in worlds[i].store.inFlight
    requires !(key in worlds[i + 1].store.inFlight
               && worlds[i + 1].store.inFlight[key] == worlds[i].store.inFlight[key])
    ensures moves[i].Resume?
    ensures worlds[i].callers[moves[i].caller] ==
              Awaiting(key, worlds[i].store.inFlight[key], worlds[i].callers[moves[i].caller].isOwner)
    ensures worlds[i].store.inFlight[key] < |worlds[i].tasks|
    ensures worlds[i].tasks[worlds[i].store.inFlight[key]].state != Running
  {
    RunKeepsInv(worlds, moves, i);
  }
}
