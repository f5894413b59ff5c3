/** What the outcome of a call means. In every run, careful or not, a call that is about to report an outcome
    has made the step that justifies it: a stop that reports success has itself set the running row to
    stopped, a start that does has seen or published a worker, and every error has its cause. */
module SupervisorOutcomes {
  import opened Common
  import opened SamplingWorker
  import opened Supervisor
  import opened SupervisorInvariant
  import opened SupervisorCleanUp
  import opened SupervisorSafety
  import opened SupervisorLocks
  import Store = SessionStore

  /** The session call t is busy with. */
  function Subject(s: State, t: Handle): Id
    requires t in s.calls && s.calls[t].cur < |s.calls[t].ids|
  {
    s.calls[t].ids[s.calls[t].cur]
  }

  // ----- The stop's own write -----

  /** Exactly the running row of the session is set to stopped. */
  predicate StopsRow(s: State, s': State, id: Id) {
    RowRuns(s, id) && s'.rows == s.rows[id := s.rows[id].(status := Store.Stopped)]
  }

  /** A stop that gets to the store, with or without having ended a worker, leaves the row absent or not
      running, reports what it found, and touches no other row. */
  lemma StopWrites(s: State, t: Handle)
    requires Enabled(s, CallStep(t)) && s.calls[t].pc.StopStore?
    ensures var s' := Apply(s, CallStep(t)); var id := Subject(s, t);
            && !RowRuns(s', id) && t in s'.calls
            && (RowRuns(s, id) ==> StopsRow(s, s', id))
            && (!RowRuns(s, id) ==> s'.rows == s.rows)
            && (s.calls[t].kind == Stopping ==> s'.calls[t].pc == Unlock(if RowRuns(s, id) then Ok else ErrNotRunning))
  {
  }

  /** A stop tells the owned worker to end and then waits for it; without one it goes to the row. */
  lemma StopCancels(s: State, t: Handle)
    requires Enabled(s, CallStep(t)) && s.calls[t].pc == StopPick && MapOk(s)
    ensures var s' := Apply(s, CallStep(t)); var id := Subject(s, t);
            && t in s'.calls && s'.workers == s.workers
            && (id in s.workers ==> s'.calls[t].pc == StopWait(s.workers[id]) && s'.heap.Keys == s.heap.Keys
                                    && s'.heap[s.workers[id]].canceled)
            && (id !in s.workers ==> s'.calls[t].pc == StopRead && s'.heap == s.heap)
  {
    var id := Subject(s, t);
    assert Apply(s, CallStep(t)) == StopPickStep(s, t, id);
    if id in s.workers {
      PickedCanceled(s, t, id);
    }
  }

  lemma PickedCanceled(s: State, t: Handle, id: Id)
    requires t in s.calls && id in s.workers && s.workers[id] in s.heap
    ensures var s' := StopPickStep(s, t, id);
            && t in s'.calls && s'.workers == s.workers && s'.calls[t].pc == StopWait(s.workers[id])
            && s'.heap.Keys == s.heap.Keys && s'.heap[s.workers[id]].canceled
  {
  }

  // ----- Causes -----

  /** The step of call t from s to s' is a reason to report the outcome. */
  ghost predicate Causes(s: State, step: Step, s': State, t: Handle, outcome: Outcome)
    requires t in s.calls && s.calls[t].cur < |s.calls[t].ids|
  {
    var c, id := s.calls[t], Subject(s, t);
    match outcome
    case Ok =>
      if Starts(c.kind) then id in s'.workers
      else if c.kind == Stopping then StopsRow(s, s', id)
      else c.ids[|c.ids| - 1] !in s'.rows
    case ErrNotRunning => step == CallStep(t) && !RowRuns(s, id) && !IsDeletion(c.kind)
    case ErrNotFound => step == CallStep(t) && id !in s.rows && (c.kind.DeletingMany? ==> c.pc == StopRead)
    case ErrClosed => s.closing
    case ErrOther => step == CallFails(t) || s.rootCanceled || (c.pc.FlushWait? && !Answered(s.core, c.pc.barrier, true))
    case ErrStop(Republished(w)) => id in s'.workers && s'.workers[id] == w
    case ErrStop(RecoveryPending(w)) => w in s'.heap && s'.heap[w].recovery.Some?
    case ErrStop(FoundStale(read)) => !RowRuns(s, id) && read == (if id in s.rows then Some(s.rows[id].status) else None)
    case ErrRestore => step == CallFails(t) || ShuttingDown(s)
    case ErrCreate => CleansUp(c.pc)
  }

  /** Which kinds of call get where. */
  predicate Fits(c: Call) {
    && c.cur < |c.ids| && c.held <= |c.ids|
    && match c.pc
       case CheckMap(restoring) => !restoring ==> Starts(c.kind)
       case ReadRow(restoring) => !restoring ==> Starts(c.kind)
       case Preparing(_, restoring) => !restoring ==> Starts(c.kind)
       case Publishing(_, restoring) => !restoring ==> Starts(c.kind)
       case StopPick | StopWait(_) | StopDelayed(_) | StopRead | StopStore(_) => !Starts(c.kind)
       case DeleteRead | FlushSend | FlushWait(_) | DeleteSamples | DeleteRows(_) => IsDeletion(c.kind)
       case _ => true
  }

  /** The call keeps its kind and its ids, and a new outcome has its cause. */
  ghost predicate MovesFitly(s: State, step: Step, s': State, t: Handle)
    requires t in s.calls && Fits(s.calls[t])
  {
    t in s'.calls ==>
      && Fits(s'.calls[t]) && s'.calls[t].kind == s.calls[t].kind && s'.calls[t].ids == s.calls[t].ids
      && (s'.calls[t].pc.Unlock? ==>
            s.calls[t].pc == s'.calls[t].pc || Causes(s, step, s', t, s'.calls[t].pc.outcome))
  }

  lemma GotoFitly(s: State, step: Step, t: Handle, pc: Pc)
    requires t in s.calls && Fits(s.calls[t]) && Fits(s.calls[t].(pc := pc))
    requires pc.Unlock? ==> Causes(s, step, Goto(s, t, pc), t, pc.outcome)
    ensures MovesFitly(s, step, Goto(s, t, pc), t)
  {
  }

  lemma CheckMapFitly(s: State, t: Handle, restoring: bool)
    requires t in s.calls && Fits(s.calls[t]) && s.calls[t].pc == CheckMap(restoring)
    ensures MovesFitly(s, CallStep(t), Goto(s, t, AfterCheckMap(s, Subject(s, t), restoring)), t)
  {
    GotoFitly(s, CallStep(t), t, AfterCheckMap(s, Subject(s, t), restoring));
  }

  lemma ReadRowFitly(s: State, t: Handle, restoring: bool)
    requires t in s.calls && Fits(s.calls[t]) && s.calls[t].pc == ReadRow(restoring)
    ensures MovesFitly(s, CallStep(t), Goto(s, t, AfterReadRow(s.rows, Subject(s, t), restoring)), t)
  {
    GotoFitly(s, CallStep(t), t, AfterReadRow(s.rows, Subject(s, t), restoring));
  }

  lemma PreparingFitly(s: State, t: Handle, value: Store.Row, restoring: bool)
    requires t in s.calls && Fits(s.calls[t]) && s.calls[t].pc == Preparing(value, restoring)
    ensures MovesFitly(s, CallStep(t), PreparingStep(s, t, Subject(s, t), value, restoring), t)
  {
  }

  lemma InsertedFitly(s: State, t: Handle, prepared: Prepared, restoring: bool)
    requires t in s.calls && Fits(s.calls[t]) && s.calls[t].pc == Publishing(prepared, restoring)
    requires !ShuttingDown(s) && Subject(s, t) !in s.workers
    ensures MovesFitly(s, CallStep(t), PublishStep(s, t, Subject(s, t), prepared, restoring), t)
  {
  }

  lemma PublishFitly(s: State, t: Handle, prepared: Prepared, restoring: bool)
    requires t in s.calls && Fits(s.calls[t]) && s.calls[t].pc == Publishing(prepared, restoring)
    ensures MovesFitly(s, CallStep(t), PublishStep(s, t, Subject(s, t), prepared, restoring), t)
  {
    if s.closing {
      GotoFitly(s, CallStep(t), t, StartFailed(restoring, ErrClosed));
    } else if s.rootCanceled {
      GotoFitly(s, CallStep(t), t, StartFailed(restoring, ErrOther));
    } else if Subject(s, t) in s.workers {
      GotoFitly(s, CallStep(t), t, AfterCheckMap(s, Subject(s, t), restoring));
    } else {
      InsertedFitly(s, t, prepared, restoring);
    }
  }

  lemma PickedFitly(s: State, s': State, t: Handle, w: Handle)
    requires t in s.calls && Fits(s.calls[t]) && s.calls[t].pc == StopPick
    requires s' == s.(calls := s.calls[t := s.calls[t].(pc := StopWait(w))], heap := s'.heap)
    ensures MovesFitly(s, CallStep(t), s', t)
  {
  }

  lemma StopPickFitly(s: State, t: Handle)
    requires t in s.calls && Fits(s.calls[t]) && s.calls[t].pc == StopPick
    ensures MovesFitly(s, CallStep(t), StopPickStep(s, t, Subject(s, t)), t)
  {
    var id := Subject(s, t);
    if id in s.workers && s.workers[id] in s.heap {
      PickedFitly(s, StopPickStep(s, t, id), t, s.workers[id]);
    } else {
      GotoFitly(s, CallStep(t), t, StopRead);
    }
  }

  lemma ScheduledFitly(s: State, t: Handle, w: Handle)
    requires t in s.calls && t < s.next && w in s.heap && Fits(s.calls[t]) && s.calls[t].pc == StopDelayed(w)
    requires s.heap[w].recovery.None? && !ShuttingDown(s)
    ensures MovesFitly(s, CallStep(t), ScheduleStep(s, t, w), t)
  {
  }

  lemma DelayFitly(s: State, t: Handle, w: Handle)
    requires t in s.calls && t < s.next && w in s.heap && Fits(s.calls[t]) && s.calls[t].pc == StopDelayed(w)
    ensures MovesFitly(s, CallStep(t), ScheduleStep(s, t, w), t)
  {
    if s.heap[w].recovery.Some? {
      GotoFitly(s, CallStep(t), t, Unlock(ErrStop(RecoveryPending(w))));
    } else if ShuttingDown(s) {
      GotoFitly(s, CallStep(t), t, Unlock(ErrRestore));
    } else {
      ScheduledFitly(s, t, w);
    }
  }

  lemma StopReadFitly(s: State, t: Handle)
    requires t in s.calls && Fits(s.calls[t]) && s.calls[t].pc == StopRead
    ensures MovesFitly(s, CallStep(t), SetCall(s, t, AfterStopRead(s.rows, s.calls[t], Subject(s, t))), t)
  {
  }

  lemma StopStoreFitly(s: State, t: Handle)
    requires t in s.calls && Fits(s.calls[t]) && s.calls[t].pc.StopStore?
    ensures MovesFitly(s, CallStep(t), StopStoreStep(s, t, Subject(s, t)), t)
  {
  }

  lemma DeleteReadFitly(s: State, t: Handle)
    requires t in s.calls && Fits(s.calls[t]) && s.calls[t].pc == DeleteRead
    ensures MovesFitly(s, CallStep(t), SetCall(s, t, AfterDeleteRead(s.rows, s.calls[t], Subject(s, t))), t)
  {
  }

  lemma DeleteRowFitly(s: State, t: Handle, count: nat)
    requires t in s.calls && Fits(s.calls[t]) && s.calls[t].pc == DeleteRows(count) && count < |s.calls[t].ids|
    ensures MovesFitly(s, CallStep(t), DeleteRowStep(s, t, count), t)
  {
  }

  lemma PurgeFitly(s: State, t: Handle)
    requires t in s.calls && Fits(s.calls[t]) && s.calls[t].pc == DeleteSamples
    ensures MovesFitly(s, CallStep(t), PurgeStep(s, t), t)
  {
  }

  lemma FlushSendFitly(s: State, t: Handle)
    requires t in s.calls && Fits(s.calls[t]) && s.calls[t].pc == FlushSend
    ensures MovesFitly(s, CallStep(t), FlushSendStep(s, t), t)
  {
  }

  lemma AcquireFitly(s: State, t: Handle)
    requires t in s.calls && Fits(s.calls[t]) && s.calls[t].pc == Acquire && s.calls[t].held < |s.calls[t].ids|
    ensures MovesFitly(s, CallStep(t), AcquireStep(s, t), t)
  {
    if s.closing {
      GotoFitly(s, CallStep(t), t, Unlock(ErrClosed));
    }
  }

  lemma ReleaseFitly(s: State, s': State, t: Handle)
    requires t in s.calls && Fits(s.calls[t]) && 0 < s.calls[t].held
    requires s' == s.(calls := s.calls[t := s.calls[t].(held := s.calls[t].held - 1)], operations := s'.operations)
    ensures MovesFitly(s, CallStep(t), s', t)
  {
  }

  lemma RetryFitly(s: State, t: Handle)
    requires t in s.calls && Fits(s.calls[t])
    ensures MovesFitly(s, CallStep(t), Goto(s, t, if s.calls[t].kind.Creating? then CleanStop else Acquire), t)
  {
    GotoFitly(s, CallStep(t), t, if s.calls[t].kind.Creating? then CleanStop else Acquire);
  }

  lemma UnlockFitly(s: State, t: Handle, outcome: Outcome)
    requires t in s.calls && Fits(s.calls[t]) && s.calls[t].pc == Unlock(outcome)
    ensures MovesFitly(s, CallStep(t), UnlockStep(s, t, outcome), t)
  {
    if 0 < s.calls[t].held {
      Releases(s, t, outcome);
      ReleaseFitly(s, UnlockStep(s, t, outcome), t);
    } else {
      UnlockedFitly(s, t, outcome);
    }
  }

  lemma UnlockedFitly(s: State, t: Handle, outcome: Outcome)
    requires t in s.calls && Fits(s.calls[t]) && s.calls[t].held == 0
    ensures MovesFitly(s, CallStep(t), UnlockStep(s, t, outcome), t)
  {
    if MayEnd(s, s.calls[t].kind, outcome) {
      Ends(s, t, outcome);
    } else {
      Retries(s, t, outcome);
      RetryFitly(s, t);
    }
  }

  lemma CleanStopFitly(s: State, t: Handle)
    requires t in s.calls && Fits(s.calls[t]) && s.calls[t].pc == CleanStop
    ensures MovesFitly(s, CallStep(t), CleanStopStep(s, t, Subject(s, t)), t)
  {
  }

  lemma CleanDeleteFitly(s: State, t: Handle)
    requires t in s.calls && Fits(s.calls[t]) && s.calls[t].pc == CleanDelete
    ensures MovesFitly(s, CallStep(t), CleanDeleteStep(s, t, Subject(s, t)), t)
  {
  }

  lemma AdvanceMovesFitly(s: State, t: Handle)
    requires CanStep(s, t) && Fits(s.calls[t]) && t < s.next
    ensures MovesFitly(s, CallStep(t), Advance(s, t), t)
  {
    match s.calls[t].pc
    case AwaitExit => GotoFitly(s, CallStep(t), t, Acquire);
    case Acquire => AcquireFitly(s, t);
    case CheckMap(restoring) => CheckMapFitly(s, t, restoring);
    case ReadRow(restoring) => ReadRowFitly(s, t, restoring);
    case Preparing(value, restoring) => PreparingFitly(s, t, value, restoring);
    case Publishing(prepared, restoring) => PublishFitly(s, t, prepared, restoring);
    case StopPick => StopPickFitly(s, t);
    case StopWait(w) => GotoFitly(s, CallStep(t), t, StopStore(Some(w)));
    case StopDelayed(w) => DelayFitly(s, t, w);
    case StopRead => StopReadFitly(s, t);
    case StopStore(_) => StopStoreFitly(s, t);
    case DeleteRead => DeleteReadFitly(s, t);
    case FlushSend => FlushSendFitly(s, t);
    case FlushWait(b) => GotoFitly(s, CallStep(t), t, if Answered(s.core, b, true) then DeleteSamples else Unlock(ErrOther));
    case DeleteSamples => PurgeFitly(s, t);
    case DeleteRows(count) => DeleteRowFitly(s, t, count);
    case Unlock(outcome) => UnlockFitly(s, t, outcome);
    case CleanStop => CleanStopFitly(s, t);
    case CleanDelete => CleanDeleteFitly(s, t);
  }

  lemma FailMovesFitly(s: State, t: Handle)
    requires CanFail(s, t) && Fits(s.calls[t])
    ensures MovesFitly(s, CallFails(t), Fail(s, t), t)
  {
    GotoFitly(s, CallFails(t), t, AfterFailure(s.heap, s.calls[t].pc));
  }

  // ----- The other calls -----

  /** The step is not one of call t. */
  predicate Elsewhere(step: Step, t: Handle) { step != CallStep(t) && step != CallFails(t) }

  lemma AdvanceLeaves(s: State, u: Handle, t: Handle)
    requires CanStep(s, u) && u != t && t < s.next
    ensures t in Advance(s, u).calls <==> t in s.calls
    ensures t in s.calls ==> Advance(s, u).calls[t] == s.calls[t]
  {
    if OnlyMoves(s.calls[u].pc) {
      MovingMoves(s, u);
    } else if Keeps(s.calls[u].pc) {
      AdvanceMoves(s, u);
    } else {
      match s.calls[u].pc
      case Acquire =>
      case StopDelayed(w) => DelayLeaves(s, u, w, t);
      case Unlock(outcome) => UnlockLeaves(s, u, outcome, t);
    }
  }

  lemma DelayLeaves(s: State, u: Handle, w: Handle, t: Handle)
    requires u in s.calls && w in s.heap && u != t && t < s.next
    ensures t in ScheduleStep(s, u, w).calls <==> t in s.calls
    ensures t in s.calls ==> ScheduleStep(s, u, w).calls[t] == s.calls[t]
  {
    if s.heap[w].recovery.None? && !ShuttingDown(s) {
      ScheduledCalls(s, u, w);
    } else {
      DelayOver(s, u, w);
    }
  }

  /** No recovery is scheduled. */
  lemma DelayOver(s: State, u: Handle, w: Handle)
    requires u in s.calls && w in s.heap && (s.heap[w].recovery.Some? || ShuttingDown(s))
    ensures ScheduleStep(s, u, w) == Goto(s, u, Unlock(if s.heap[w].recovery.Some? then ErrStop(RecoveryPending(w)) else ErrRestore))
  {
  }

  /** The recovery that a delayed stop schedules. */
  lemma ScheduledCalls(s: State, u: Handle, w: Handle)
    requires u in s.calls && w in s.heap && s.heap[w].recovery.None? && !ShuttingDown(s)
    ensures var r := ScheduleStep(s, u, w);
            && r == s.(calls := r.calls, heap := r.heap, next := s.next + 1)
            && r.calls == s.calls[u := s.calls[u].(pc := Unlock(ErrStop(RecoveryPending(w))))]
                                 [s.next := Call(Recovering(w), [s.heap[w].session], 0, 0, AwaitExit)]
  {
  }

  lemma UnlockLeaves(s: State, u: Handle, outcome: Outcome, t: Handle)
    requires u in s.calls && s.calls[u].held <= |s.calls[u].ids| && u != t
    ensures t in UnlockStep(s, u, outcome).calls <==> t in s.calls
    ensures t in s.calls ==> UnlockStep(s, u, outcome).calls[t] == s.calls[t]
  {
    UnlockedCalls(s, u, outcome);
  }

  lemma UnlockedCalls(s: State, u: Handle, outcome: Outcome)
    requires u in s.calls && s.calls[u].held <= |s.calls[u].ids|
    ensures var r := UnlockStep(s, u, outcome).calls;
            if u in r then r == s.calls[u := r[u]] else r == s.calls - {u}
  {
    if 0 < s.calls[u].held {
      Releases(s, u, outcome);
    } else {
      FreedCalls(s, u, outcome);
    }
  }

  lemma FreedCalls(s: State, u: Handle, outcome: Outcome)
    requires u in s.calls && s.calls[u].held == 0
    ensures var r := UnlockStep(s, u, outcome).calls;
            if u in r then r == s.calls[u := r[u]] else r == s.calls - {u}
  {
    if MayEnd(s, s.calls[u].kind, outcome) {
      Ends(s, u, outcome);
    } else {
      Retries(s, u, outcome);
    }
  }

  /** The call without a lock may return this outcome. */
  predicate MayEnd(s: State, kind: Kind, outcome: Outcome) {
    && (kind.Recovering? ==> ShuttingDown(s) || outcome in {Ok, ErrNotRunning, ErrNotFound, ErrClosed})
    && (kind.Creating? ==> outcome in {Ok, ErrCreate})
  }

  lemma Releases(s: State, u: Handle, outcome: Outcome)
    requires u in s.calls && 0 < s.calls[u].held <= |s.calls[u].ids|
    ensures var r := UnlockStep(s, u, outcome);
            && r == s.(calls := s.calls[u := s.calls[u].(held := s.calls[u].held - 1)], operations := r.operations)
            && r.operations.Keys <= s.operations.Keys
  {
  }

  lemma Ends(s: State, u: Handle, outcome: Outcome)
    requires u in s.calls && s.calls[u].held == 0 && MayEnd(s, s.calls[u].kind, outcome)
    ensures UnlockStep(s, u, outcome) == s.(calls := s.calls - {u}, deleted := UnlockStep(s, u, outcome).deleted)
  {
  }

  lemma Retries(s: State, u: Handle, outcome: Outcome)
    requires u in s.calls && s.calls[u].held == 0 && !MayEnd(s, s.calls[u].kind, outcome)
    ensures UnlockStep(s, u, outcome) == Goto(s, u, if s.calls[u].kind.Creating? then CleanStop else Acquire)
  {
  }

  /** The steps of the environment that begin no call. */
  predicate Outside(step: Step) { !WorkerStep(step) && !CallerStep(step) && !step.Create? && !step.Crash? }

  lemma OutsideLeaves(s: State, step: Step)
    requires Enabled(s, step) && Outside(step)
    ensures Apply(s, step).calls == s.calls && Apply(s, step).operations == s.operations && Apply(s, step).workers == s.workers
    ensures !step.ReenableRow? ==> Apply(s, step).rows == s.rows
  {
  }

  lemma CreatedAlone(s: State, id: Id, row: Store.Row)
    ensures Begins(s, CreateStep(s, id, row, true))
  {
    assert CreateStep(s, id, row, true).calls == s.calls[s.next := Call(Creating, [id], 0, 0, Acquire)];
  }

  lemma CreatedInRun(s: State, id: Id, row: Store.Row)
    ensures Begins(s, CreateStep(s, id, row, false))
  {
  }

  lemma CreateCalls(s: State, step: Step)
    requires Enabled(s, step) && step.Create?
    ensures Begins(s, Apply(s, step))
  {
    match step
    case Create(id, maxSamples, maxDuration, startedAt, alone) =>
      var row := Store.Row(Store.Running, 0, 0, maxSamples, maxDuration, Some(startedAt), 0, 0, map[]);
      if alone {
        CreatedAlone(s, id, row);
      } else {
        CreatedInRun(s, id, row);
      }
  }

  lemma BeginCalls(s: State, step: Step)
    requires Enabled(s, step) && step.Begin?
    ensures Apply(s, step).calls == s.calls[s.next := Call(step.kind, step.ids, 0, 0, Acquire)] && step.ids != []
    ensures Apply(s, step).operations == s.operations && Apply(s, step).workers == s.workers
  {
  }

  lemma OthersLeave(s: State, step: Step, s': State, t: Handle)
    requires Goes(s, step, s') && Elsewhere(step, t) && t < s.next && !step.Crash?
    ensures t in s'.calls <==> t in s.calls
    ensures t in s.calls ==> s'.calls[t] == s.calls[t]
  {
    if WorkerStep(step) {
      WorkerKeepsNames(s, step);
    } else if Outside(step) {
      OutsideLeaves(s, step);
    } else if step.CallStep? {
      AdvanceLeaves(s, step.t, t);
    } else if step.CallFails? {
      FailCalls(s, step.t);
    } else {
      Beginning(s, step);
    }
  }

  lemma FailCalls(s: State, u: Handle)
    requires CanFail(s, u)
    ensures Fail(s, u).calls == s.calls[u := Fail(s, u).calls[u]] && Fail(s, u).calls.Keys == s.calls.Keys
    ensures Fail(s, u).operations == s.operations && Fail(s, u).workers == s.workers && Fail(s, u).rows == s.rows
  {
  }

  /** A call begins: somebody's, or that of a request that creates a session. */
  predicate Begins(s: State, s': State) {
    && s'.operations == s.operations && s'.workers == s.workers
    && (s'.calls == s.calls || (s.next in s'.calls && s'.calls == s.calls[s.next := s'.calls[s.next]] && Begun(s'.calls[s.next])))
  }

  predicate Begun(c: Call) {
    c.pc == Acquire && c.held == 0 && c.cur == 0 && c.ids != []
  }

  lemma Beginning(s: State, step: Step)
    requires Enabled(s, step) && (step.Create? || step.Begin?)
    ensures Begins(s, Apply(s, step))
  {
    if step.Create? {
      CreateCalls(s, step);
    } else {
      BeginCalls(s, step);
    }
  }

  /** A call that was not there before is at its beginning. */
  lemma NewCallFits(s: State, step: Step, s': State, t: Handle)
    requires Goes(s, step, s') && t !in s.calls && t in s'.calls
    ensures Fits(s'.calls[t]) && (s'.calls[t].pc == Acquire || s'.calls[t].pc == AwaitExit)
  {
    if WorkerStep(step) {
      WorkerKeepsNames(s, step);
    } else if Outside(step) {
      OutsideLeaves(s, step);
    } else if step.CallStep? {
      NewFromAdvance(s, step.t, t);
    } else if step.CallFails? {
      FailCalls(s, step.t);
    } else if !step.Crash? {
      Beginning(s, step);
    }
  }

  lemma NewFromAdvance(s: State, u: Handle, t: Handle)
    requires CanStep(s, u) && t !in s.calls && t in Advance(s, u).calls
    ensures Fits(Advance(s, u).calls[t]) && Advance(s, u).calls[t].pc == AwaitExit
  {
    if OnlyMoves(s.calls[u].pc) {
      MovingMoves(s, u);
    } else if Keeps(s.calls[u].pc) {
      AdvanceMoves(s, u);
    } else {
      match s.calls[u].pc
      case Acquire => AcquiredCalls(s, u);
      case StopDelayed(w) => NewFromDelay(s, u, w, t);
      case Unlock(outcome) => UnlockedCalls(s, u, outcome);
    }
  }

  lemma AcquiredCalls(s: State, u: Handle)
    requires u in s.calls && s.calls[u].held < |s.calls[u].ids|
    ensures u in AcquireStep(s, u).calls && AcquireStep(s, u).calls == s.calls[u := AcquireStep(s, u).calls[u]]
    ensures AcquireStep(s, u).workers == s.workers && AcquireStep(s, u).rows == s.rows && (s.closing ==> AcquireStep(s, u).operations == s.operations)
  {
  }

  lemma NewestEntry(calls: map<Handle, Call>, u: Handle, moved: Call, next: Handle, begun: Call, t: Handle)
    requires u in calls && t !in calls && t in calls[u := moved][next := begun]
    ensures calls[u := moved][next := begun][t] == begun
  {
  }

  lemma NewFromDelay(s: State, u: Handle, w: Handle, t: Handle)
    requires u in s.calls && w in s.heap && t !in s.calls && t in ScheduleStep(s, u, w).calls
    ensures ScheduleStep(s, u, w).calls[t] == Call(Recovering(w), [s.heap[w].session], 0, 0, AwaitExit)
  {
    if s.heap[w].recovery.None? && !ShuttingDown(s) {
      ScheduledCalls(s, u, w);
      NewestEntry(s.calls, u, s.calls[u].(pc := Unlock(ErrStop(RecoveryPending(w)))), s.next,
                  Call(Recovering(w), [s.heap[w].session], 0, 0, AwaitExit), t);
    } else {
      DelayOver(s, u, w);
      assert false;
    }
  }

  // ----- Runs -----

  /** Step j of the run was a step of this very call, and a cause of the outcome. */
  ghost predicate CausedAt(states: seq<State>, steps: seq<Step>, j: nat, t: Handle, c: Call, outcome: Outcome)
    requires |states| == |steps| + 1
  {
    && j < |steps| && t in states[j].calls && states[j].calls[t].cur < |states[j].calls[t].ids|
    && !Elsewhere(steps[j], t) && states[j].calls[t].kind == c.kind && states[j].calls[t].ids == c.ids
    && Causes(states[j], steps[j], states[j + 1], t, outcome)
  }

  ghost predicate Explained(states: seq<State>, steps: seq<Step>, i: nat, t: Handle)
    requires |states| == |steps| + 1 && i < |states| && t in states[i].calls
  {
    var c := states[i].calls[t];
    && Fits(c)
    && (c.pc.Unlock? ==> exists j :: 0 <= j < i && CausedAt(states, steps, j, t, c, c.pc.outcome))
  }

  lemma OwnStepExplained(states: seq<State>, steps: seq<Step>, i: nat, t: Handle)
    requires IsRun(states, steps) && i < |steps| && StepAt(states, steps, i) && !Elsewhere(steps[i], t)
    requires t in states[i].calls && t in states[i + 1].calls && Explained(states, steps, i, t)
    ensures Explained(states, steps, i + 1, t)
  {
    RunKeepsLocks(states, steps, i);
    assert HoldsInOrder(states[i], t, states[i].calls[t]);
    if steps[i].CallStep? {
      AdvanceMovesFitly(states[i], t);
    } else {
      FailMovesFitly(states[i], t);
    }
    var c := states[i + 1].calls[t];
    if c.pc.Unlock? {
      if states[i].calls[t].pc == c.pc {
        var j :| 0 <= j < i && CausedAt(states, steps, j, t, states[i].calls[t], c.pc.outcome);
        assert CausedAt(states, steps, j, t, c, c.pc.outcome);
      } else {
        assert CausedAt(states, steps, i, t, c, c.pc.outcome);
      }
    }
  }

  lemma {:induction false} RunExplains(states: seq<State>, steps: seq<Step>, i: nat, t: Handle)
    requires IsRun(states, steps) && i < |states| && t in states[i].calls
    ensures Explained(states, steps, i, t)
  {
    assert i > 0;
    assert StepAt(states, steps, i - 1);
    if t !in states[i - 1].calls {
      NewCallFits(states[i - 1], steps[i - 1], states[i], t);
    } else {
      RunExplains(states, steps, i - 1, t);
      if Elsewhere(steps[i - 1], t) {
        OtherStepExplained(states, steps, i - 1, t);
      } else {
        OwnStepExplained(states, steps, i - 1, t);
      }
    }
  }

  lemma OtherStepExplained(states: seq<State>, steps: seq<Step>, i: nat, t: Handle)
    requires IsRun(states, steps) && i < |steps| && StepAt(states, steps, i) && Elsewhere(steps[i], t)
    requires t in states[i].calls && t in states[i + 1].calls && Explained(states, steps, i, t)
    ensures Explained(states, steps, i + 1, t)
  {
    RunKeepsLocks(states, steps, i);
    assert HoldsInOrder(states[i], t, states[i].calls[t]);
    OthersLeave(states[i], steps[i], states[i + 1], t);
    var c := states[i].calls[t];
    if c.pc.Unlock? {
      var j :| 0 <= j < i && CausedAt(states, steps, j, t, c, c.pc.outcome);
      assert 0 <= j < i + 1;
    }
  }

  /** In every run: a call that is about to report an outcome, or gives its locks back to do so, has
      itself made a step that is the cause of that outcome. */
  lemma OutcomeHasCause(states: seq<State>, steps: seq<Step>, i: nat, t: Handle) returns (j: nat)
    requires IsRun(states, steps) && i < |states| && t in states[i].calls && states[i].calls[t].pc.Unlock?
    ensures j < i && CausedAt(states, steps, j, t, states[i].calls[t], states[i].calls[t].pc.outcome)
  {
    RunExplains(states, steps, i, t);
    j :| 0 <= j < i && CausedAt(states, steps, j, t, states[i].calls[t], states[i].calls[t].pc.outcome);
  }

  /** A stop reports success only after it has set the running row to stopped itself. */
  lemma StopOkMeansStopped(states: seq<State>, steps: seq<Step>, i: nat, t: Handle) returns (j: nat)
    requires IsRun(states, steps) && i < |states| && t in states[i].calls
    requires states[i].calls[t].kind == Stopping && states[i].calls[t].pc == Unlock(Ok)
    ensures j < i && !Elsewhere(steps[j], t) && t in states[j].calls && states[j].calls[t].ids == states[i].calls[t].ids
    ensures states[j].calls[t].cur < |states[j].calls[t].ids| && StopsRow(states[j], states[j + 1], Subject(states[j], t))
  {
    j := OutcomeHasCause(states, steps, i, t);
  }

  // ----- When a call returns, and what shutting down stops -----

  /** A call is over only when it has given all locks back. A recovery does not give up before it or
      somebody else has settled the session, unless the process ends; a request that could not start its
      session cleans up first. */
  lemma CallEnds(s: State, t: Handle)
    requires CanStep(s, t)
    ensures t !in Advance(s, t).calls <==>
              s.calls[t].pc.Unlock? && s.calls[t].held == 0 && MayEnd(s, s.calls[t].kind, s.calls[t].pc.outcome)
    ensures s.calls[t].pc.Unlock? && s.calls[t].held == 0 && t in Advance(s, t).calls ==>
              Advance(s, t).calls[t].pc == if s.calls[t].kind.Creating? then CleanStop else Acquire
  {
    if OnlyMoves(s.calls[t].pc) {
      MovingMoves(s, t);
    } else if Keeps(s.calls[t].pc) {
      AdvanceMoves(s, t);
    } else {
      match s.calls[t].pc
      case Acquire => AcquiredCalls(s, t);
      case StopDelayed(w) => DelayStays(s, t, w);
      case Unlock(outcome) => UnlockEnds(s, t, outcome);
    }
  }

  lemma DelayStays(s: State, t: Handle, w: Handle)
    requires t in s.calls && w in s.heap
    ensures t in ScheduleStep(s, t, w).calls
  {
    if s.heap[w].recovery.None? && !ShuttingDown(s) {
      ScheduledCalls(s, t, w);
    } else {
      DelayOver(s, t, w);
    }
  }

  lemma UnlockEnds(s: State, t: Handle, outcome: Outcome)
    requires t in s.calls && s.calls[t].held <= |s.calls[t].ids|
    ensures var r := UnlockStep(s, t, outcome).calls; var c := s.calls[t];
            && (t !in r <==> c.held == 0 && MayEnd(s, c.kind, outcome))
            && (c.held == 0 && t in r ==> r[t].pc == if c.kind.Creating? then CleanStop else Acquire)
  {
    if 0 < s.calls[t].held {
      Releases(s, t, outcome);
    } else {
      UnlockedEnds(s, t, outcome);
    }
  }

  lemma UnlockedEnds(s: State, t: Handle, outcome: Outcome)
    requires t in s.calls && s.calls[t].held == 0
    ensures var r := UnlockStep(s, t, outcome).calls; var c := s.calls[t];
            && (t !in r <==> MayEnd(s, c.kind, outcome))
            && (t in r ==> r[t].pc == if c.kind.Creating? then CleanStop else Acquire)
  {
    if MayEnd(s, s.calls[t].kind, outcome) {
      Ends(s, t, outcome);
      assert t !in UnlockStep(s, t, outcome).calls;
    } else {
      Retries(s, t, outcome);
    }
  }

  /** Once the supervisor closes, no call gets a lock; once it closes or its context ends, no session gets
      a worker. */
  lemma ShutdownAdmitsNobody(s: State, step: Step, s': State)
    requires Goes(s, step, s')
    ensures s.closing ==> s'.operations.Keys <= s.operations.Keys
    ensures ShuttingDown(s) ==> s'.workers.Keys <= s.workers.Keys
  {
    if WorkerStep(step) {
      WorkerKeepsNames(s, step);
    } else if Outside(step) {
      OutsideLeaves(s, step);
    } else if step.CallStep? {
      CallAdmitsNobody(s, step.t);
    } else if step.CallFails? {
      FailCalls(s, step.t);
    } else if !step.Crash? {
      Beginning(s, step);
    }
  }

  lemma CallAdmitsNobody(s: State, t: Handle)
    requires CanStep(s, t)
    ensures s.closing ==> Advance(s, t).operations.Keys <= s.operations.Keys
    ensures ShuttingDown(s) ==> Advance(s, t).workers.Keys <= s.workers.Keys
  {
    if OnlyMoves(s.calls[t].pc) {
      MovingMoves(s, t);
    } else if Keeps(s.calls[t].pc) {
      AdvanceMoves(s, t);
    } else {
      match s.calls[t].pc
      case Acquire => AcquiredCalls(s, t);
      case StopDelayed(w) => DelayKeepsMap(s, t, w);
      case Unlock(outcome) => UnlockKeepsMap(s, t, outcome);
    }
  }

  lemma DelayKeepsMap(s: State, t: Handle, w: Handle)
    requires t in s.calls && w in s.heap
    ensures ScheduleStep(s, t, w).workers == s.workers && ScheduleStep(s, t, w).operations == s.operations
  {
    if s.heap[w].recovery.None? && !ShuttingDown(s) {
      ScheduledCalls(s, t, w);
    } else {
      DelayOver(s, t, w);
    }
  }

  lemma UnlockKeepsMap(s: State, t: Handle, outcome: Outcome)
    requires t in s.calls && s.calls[t].held <= |s.calls[t].ids|
    ensures UnlockStep(s, t, outcome).workers == s.workers
    ensures UnlockStep(s, t, outcome).operations.Keys <= s.operations.Keys
  {
    if 0 < s.calls[t].held {
      Releases(s, t, outcome);
    } else if MayEnd(s, s.calls[t].kind, outcome) {
      Ends(s, t, outcome);
    } else {
      Retries(s, t, outcome);
    }
  }
}
