/** The main results about the lifecycle protocol, for every run of every number of calls, workers
    and sessions. */
module SupervisorSafety {
  import opened Common
  import Samples
  import opened SamplingWorker
  import opened Supervisor
  import opened SupervisorInvariant
  import Store = SessionStore
  import Writer = SampleWriter
  import Calls = SupervisorCalls
  import Effects = SupervisorEffects
  import Deletes = SupervisorDeletes
  import Environment = SupervisorEnvironment
  import Workers = SupervisorWorkers
  import opened SupervisorCleanUp

  lemma RestoreKeeps(s: State, t: Handle, source: Option<Handle>)
    requires Inv(s) && t in s.calls && s.calls[t].pc == StopStore(source)
    ensures Inv(Goto(s, t, Restore(s.heap, source)))
  {
    Calls.CallClaims(s, t);
    if source.Some? {
      Calls.MapClaims(s);
      assert WorkerOk(s, source.value, s.heap[source.value]);
    }
    Calls.GotoKeeps(s, t, Restore(s.heap, source));
  }

  /** A stop that stops waiting for its worker finds the recovery, if any, still waiting as well. */
  lemma DelayPcOk(s: State, c: Call, w: Handle)
    requires CallsOk(s) && RecoveriesWait(s) && c.cur < |c.ids| && c.pc == StopWait(w) && PcOk(s, c) && s.heap[w].pc != Exited
    ensures PcOk(s, c.(pc := StopDelayed(w)))
  {
    assert RecoveryWaits(s, w);
    if s.heap[w].recovery.Some? && !ShuttingDown(s) {
      assert CallOk(s, s.heap[w].recovery.value, s.calls[s.heap[w].recovery.value]);
    }
  }

  lemma DelayKeeps(s: State, t: Handle, w: Handle)
    requires Inv(s) && t in s.calls && s.calls[t].pc == StopWait(w) && w in s.heap && s.heap[w].pc != Exited
    ensures Inv(Goto(s, t, StopDelayed(w)))
  {
    Calls.CallClaims(s, t);
    DelayPcOk(s, s.calls[t], w);
    Calls.GotoKeeps(s, t, StopDelayed(w));
  }

  /** The failures that end a call in its body. */
  predicate EndsOnFailure(pc: Pc) {
    pc.DeleteRead? || pc.FlushSend? || pc.FlushWait? || pc.DeleteSamples? || pc.DeleteRows?
  }

  lemma EndingFailKeeps(s: State, t: Handle)
    requires Inv(s) && CanFail(s, t) && EndsOnFailure(s.calls[t].pc)
    ensures Inv(Fail(s, t))
  {
    Calls.CallClaims(s, t);
    assert Fail(s, t) == Goto(s, t, Unlock(ErrOther));
    assert s.calls[t].kind != Stopping;
    Calls.GiveUpKeeps(s, t, ErrOther);
  }

  lemma ReadFailKeeps(s: State, t: Handle, restoring: bool)
    requires Inv(s) && t in s.calls
    requires s.calls[t].pc == ReadRow(restoring) || (s.calls[t].pc.Preparing? && s.calls[t].pc.restoring == restoring)
    ensures Inv(Goto(s, t, StartFailed(restoring, ErrOther)))
  {
    Calls.CallClaims(s, t);
    Calls.GiveUpKeeps(s, t, if restoring then ErrRestore else ErrOther);
  }

  lemma StopReadFailKeeps(s: State, t: Handle)
    requires Inv(s) && t in s.calls && s.calls[t].pc == StopRead
    ensures Inv(Goto(s, t, CheckMap(true)))
  {
    Calls.CallClaims(s, t);
    Calls.GotoKeeps(s, t, CheckMap(true));
  }

  lemma FailKeeps(s: State, t: Handle)
    requires Inv(s) && CanFail(s, t)
    ensures Inv(Fail(s, t))
  {
    if EndsOnFailure(s.calls[t].pc) {
      EndingFailKeeps(s, t);
    } else {
      match s.calls[t].pc
      case AwaitExit => Effects.AwaitExitKeeps(s, t, Unlock(ErrOther));
      case Acquire => Effects.AbandonKeeps(s, t, ErrOther);
      case ReadRow(restoring) => ReadFailKeeps(s, t, restoring);
      case Preparing(_, restoring) => ReadFailKeeps(s, t, restoring);
      case StopWait(w) => DelayKeeps(s, t, w);
      case StopRead => StopReadFailKeeps(s, t);
      case StopStore(source) => RestoreKeeps(s, t, source);
      case CleanStop => FailedCleanUpKeepsInv(s, t);
      case CleanDelete => FailedCleanUpKeepsInv(s, t);
    }
  }

  lemma AdvanceKeeps(s: State, t: Handle)
    requires Inv(s) && CanStep(s, t) && !CleansUp(s.calls[t].pc)
    ensures Inv(Advance(s, t))
  {
    var c := s.calls[t];
    var id := c.ids[c.cur];
    match c.pc
    case AwaitExit => Effects.AwaitExitKeeps(s, t, Acquire);
    case Acquire => Effects.AcquireKeeps(s, t);
    case CheckMap(restoring) => Calls.CheckMapKeeps(s, t, id, restoring);
    case ReadRow(restoring) => Calls.ReadRowKeeps(s, t, id, restoring);
    case Preparing(value, restoring) => Calls.PreparingKeeps(s, t, id, value, restoring);
    case Publishing(p, restoring) => Deletes.PublishKeeps(s, t, id, p, restoring);
    case StopPick => Deletes.StopPickKeeps(s, t, id);
    case StopWait(w) => Calls.StopWaitKeeps(s, t, w);
    case StopDelayed(w) => Deletes.ScheduleKeeps(s, t, w);
    case StopRead => Calls.StopReadKeeps(s, t, id);
    case StopStore(_) => Deletes.StopStoreKeeps(s, t, id);
    case DeleteRead => Calls.DeleteReadKeeps(s, t, id);
    case FlushSend => Deletes.FlushSendKeeps(s, t);
    case FlushWait(b) =>
      if Answered(s.core, b, true) {
        Calls.FlushWaitKeeps(s, t, b);
      } else {
        Calls.CallClaims(s, t);
        Calls.GiveUpKeeps(s, t, ErrOther);
      }
    case DeleteSamples => Deletes.DeleteSamplesKeeps(s, t);
    case DeleteRows(count) => Deletes.DeleteRowKeeps(s, t, count);
    case Unlock(outcome) => Effects.UnlockKeeps(s, t, outcome);
  }

  predicate WorkerStep(step: Step) {
    step.WorkerTop? || step.WorkerTick? || step.WorkerEnqueue? || step.WorkerRest? || step.WorkerFinish?
    || step.WorkerRemove? || step.WorkerExit?
  }

  predicate CallerStep(step: Step) { step.Begin? || step.CallStep? || step.CallFails? }

  lemma WorkerStepKeepsInv(s: State, step: Step)
    requires Inv(s) && Enabled(s, step) && WorkerStep(step)
    ensures Inv(Apply(s, step))
  {
    match step
    case WorkerTop(w) => Workers.TopKeeps(s, w);
    case WorkerTick(w, sample, saved) => Workers.TickKeeps(s, w, sample, saved);
    case WorkerEnqueue(w, accepting) => Workers.EnqueueKeeps(s, w, s.heap[w].pc.event, accepting);
    case WorkerRest(w) => Workers.RestKeeps(s, w, s.heap[w].pc.persisted);
    case WorkerFinish(w, reached) => Workers.FinishKeeps(s, w, reached);
    case WorkerRemove(w) => Workers.RemoveKeeps(s, w);
    case WorkerExit(w) => Workers.ExitKeeps(s, w);
  }

  /** The action is no clean-up, or one under the guard. */
  ghost predicate Careful(s: State, step: Step)
    requires Enabled(s, step)
  {
    step.CallStep? && CleansUp(s.calls[step.t].pc) ==> Harmless(s, s.calls[step.t].ids[s.calls[step.t].cur])
  }

  lemma CallerStepKeepsInv(s: State, step: Step)
    requires Inv(s) && Enabled(s, step) && CallerStep(step)
    ensures Inv(Apply(s, step)) <==> Careful(s, step)
  {
    match step
    case Begin(kind, ids) => Effects.BeginKeeps(s, kind, ids);
    case CallStep(t) =>
      if CleansUp(s.calls[t].pc) {
        CleanUpKeepsInv(s, t);
      } else {
        AdvanceKeeps(s, t);
      }
    case CallFails(t) => FailKeeps(s, t);
  }

  lemma CreateKeeps(s: State, id: Id, row: Store.Row, alone: bool)
    requires Inv(s) && id !in s.named
    requires row.ips == map[] && row.distinctIPs == 0 && row.samplesTaken == 0 && row.sequenceOffset == 0
    requires row.maxSamples.Some? ==> 0 <= row.maxSamples.value
    ensures Inv(CreateStep(s, id, row, alone))
  {
    var created := CreateStep(s, id, row, false);
    Environment.CreatedKeeps(s, created, id, row);
    if alone {
      CreatorKeeps(created, id);
    }
  }

  /** The creating request goes on to start its session. */
  lemma CreatorKeeps(s: State, id: Id)
    requires Inv(s) && id in s.named
    ensures Inv(WithCreator(s, id))
  {
    assert s.named + (set x | x in [id]) == s.named;
    Effects.BegunInv(s, WithCreator(s, id), Creating, [id]);
  }

  predicate QuietStep(step: Step) { step.AdvanceClock? || step.CancelRoot? || step.Close? }

  lemma QuietStepKeepsInv(s: State, step: Step)
    requires Inv(s) && QuietStep(step)
    ensures Inv(Apply(s, step))
  {
    Environment.QuietStepKeeps(s, Apply(s, step));
  }

  lemma OutsideStepKeepsInv(s: State, step: Step)
    requires Inv(s) && Enabled(s, step) && !WorkerStep(step) && !CallerStep(step) && !QuietStep(step)
    ensures Inv(Apply(s, step))
  {
    match step
    case Create(id, maxSamples, maxDuration, startedAt, alone) =>
      CreateKeeps(s, id, Store.Row(Store.Running, 0, 0, maxSamples, maxDuration, Some(startedAt), 0, 0, map[]), alone);
    case ReenableRow(id) => Environment.ReenableKeeps(s, id);
    case Crash => Environment.CrashKeeps(s);
    case WriterReceive(sent, landed) => Environment.ReceiveKeeps(s, Apply(s, step), sent, landed);
    case WriterTick(sent, landed) => Environment.FlushKeeps(s, Apply(s, step), sent, landed);
  }

  /** Every action of every actor keeps the protocol's invariant, except exactly a clean-up that acts on
      a running row while somebody owns the session. */
  lemma StepKeepsInv(s: State, step: Step)
    requires Inv(s) && Enabled(s, step)
    ensures Inv(Apply(s, step)) <==> Careful(s, step)
  {
    if WorkerStep(step) {
      WorkerStepKeepsInv(s, step);
    } else if CallerStep(step) {
      CallerStepKeepsInv(s, step);
    } else if QuietStep(step) {
      QuietStepKeepsInv(s, step);
    } else {
      OutsideStepKeepsInv(s, step);
    }
  }

  // ----- Runs -----

  ghost predicate Goes(s: State, step: Step, s': State) {
    Enabled(s, step) && s' == Apply(s, step)
  }

  ghost predicate StepAt(states: seq<State>, steps: seq<Step>, i: nat)
    requires i + 1 < |states| && i < |steps|
  {
    Goes(states[i], steps[i], states[i + 1])
  }

  /** A run: any number of actions from an empty system, crashes and restarts included. */
  ghost predicate IsRun(states: seq<State>, steps: seq<Step>) {
    && |states| == |steps| + 1 && Init(states[0])
    && forall i {:trigger StepAt(states, steps, i)} | 0 <= i < |steps| :: StepAt(states, steps, i)
  }

  ghost predicate CarefulAt(states: seq<State>, steps: seq<Step>, i: nat)
    requires IsRun(states, steps) && i < |steps|
  {
    assert StepAt(states, steps, i);
    Careful(states[i], steps[i])
  }

  /** A run in which clean-ups stop or delete a running row only while nobody owns its session. */
  ghost predicate IsCarefulRun(states: seq<State>, steps: seq<Step>) {
    IsRun(states, steps) && forall i {:trigger CarefulAt(states, steps, i)} | 0 <= i < |steps| :: CarefulAt(states, steps, i)
  }

  lemma GoesKeepsInv(s: State, step: Step, s': State)
    requires Inv(s) && Goes(s, step, s')
    ensures Inv(s') <==> Careful(s, step)
  {
    StepKeepsInv(s, step);
  }

  lemma {:induction false} RunKeepsInv(states: seq<State>, steps: seq<Step>, i: nat)
    requires IsCarefulRun(states, steps) && i < |states|
    ensures Inv(states[i])
  {
    if i == 0 {
      InitInv(states[0]);
    } else {
      RunKeepsInv(states, steps, i - 1);
      assert StepAt(states, steps, i - 1) && CarefulAt(states, steps, i - 1);
      GoesKeepsInv(states[i - 1], steps[i - 1], states[i]);
    }
  }

  /** The protocol's invariant holds throughout a run if and only if the run's clean-ups are careful. */
  lemma InvariantExactlyWhenCareful(states: seq<State>, steps: seq<Step>)
    requires IsRun(states, steps)
    ensures (forall i | 0 <= i < |states| :: Inv(states[i])) <==> IsCarefulRun(states, steps)
  {
    if IsCarefulRun(states, steps) {
      forall i | 0 <= i < |states| ensures Inv(states[i]) {
        RunKeepsInv(states, steps, i);
      }
    } else {
      var i :| 0 <= i < |steps| && !CarefulAt(states, steps, i);
      assert StepAt(states, steps, i);
      if Inv(states[i]) {
        GoesKeepsInv(states[i], steps[i], states[i + 1]);
      }
    }
  }

  // ----- What every action keeps, careful or not -----

  /** Handles and ids are fresh when they are given out. */
  predicate Bounded(s: State) {
    && (forall h | h in s.heap :: h < s.next)
    && s.rows.Keys <= s.named && s.ticks.Keys <= s.named
  }

  // ----- What an action leaves alone -----

  /** A call adds no event to the channel or the batch, and stored samples only disappear by session. */
  ghost predicate SamplesCalm(s: State, s': State) {
    && s'.core.batch == s.core.batch
    && (s'.core.queue == s.core.queue
        || exists b :: s'.core.queue == s.core.queue + [Writer.BarrierCommand(b)])
    && (s'.stored == s.stored || exists ids :: s'.stored == Without(s.stored, ids))
  }

  /** The writer's channel may have got a command; nothing is stored or taken from the channel. */
  ghost predicate AtMostOffers(s: State, s': State) {
    && s'.stored == s.stored && s'.batchSize == s.batchSize
    && (s'.core == s.core || exists command :: s'.core == Writer.Offer(s.core, command, s.capacity).0)
  }

  /** What every action of a call leaves behind, whichever it is. */
  ghost predicate Calm(s: State, s': State) {
    && s'.ticks == s.ticks && s.deleted <= s'.deleted && s'.now == s.now
    && SamplesCalm(s, s')
    && s'.named == s.named && s.next <= s'.next && s'.rows.Keys <= s.rows.Keys
    && (forall h | h in s'.heap && h !in s.heap :: s'.heap[h].pc == Top && h < s'.next)
    && (forall h | h in s.heap :: h in s'.heap && s'.heap[h].prepared == s.heap[h].prepared && s'.heap[h].pc == s.heap[h].pc
                                 && s'.heap[h].session == s.heap[h].session)
  }

  lemma SetCallCalm(s: State, t: Handle, c: Call)
    ensures Calm(s, SetCall(s, t, c))
  {
  }

  /** The first and last actions of a call move locks and record what it deleted. */
  lemma LockCalm(s: State, calls: map<Handle, Call>, operations: map<Id, Handle>, deleted: set<Id>)
    requires s.deleted <= deleted
    ensures Calm(s, s.(calls := calls, operations := operations, deleted := deleted))
  {
  }

  predicate OnlyMoves(pc: Pc) {
    pc.AwaitExit? || pc.CheckMap? || pc.ReadRow? || pc.StopWait? || pc.StopRead? || pc.DeleteRead? || pc.FlushWait?
  }

  /** The call's next place, where the call itself is all that changes. */
  function Moved(s: State, t: Handle): Call
    requires CanStep(s, t) && OnlyMoves(s.calls[t].pc)
  {
    var c := s.calls[t];
    var id := c.ids[c.cur];
    match c.pc
    case AwaitExit => c.(pc := Acquire)
    case CheckMap(restoring) => c.(pc := AfterCheckMap(s, id, restoring))
    case ReadRow(restoring) => c.(pc := AfterReadRow(s.rows, id, restoring))
    case StopWait(w) => c.(pc := StopStore(Some(w)))
    case StopRead => AfterStopRead(s.rows, c, id)
    case DeleteRead => AfterDeleteRead(s.rows, c, id)
    case FlushWait(b) => c.(pc := if Answered(s.core, b, true) then DeleteSamples else Unlock(ErrOther))
  }

  lemma MovingCalm(s: State, t: Handle)
    requires CanStep(s, t) && OnlyMoves(s.calls[t].pc)
    ensures Calm(s, Advance(s, t))
  {
    assert Advance(s, t) == SetCall(s, t, Moved(s, t));
    SetCallCalm(s, t, Moved(s, t));
  }

  lemma AcquireCalm(s: State, t: Handle)
    requires CanStep(s, t) && s.calls[t].pc.Acquire?
    ensures Calm(s, Advance(s, t))
  {
    var s' := Advance(s, t);
    assert s' == s.(calls := s'.calls, operations := s'.operations, deleted := s.deleted);
    LockCalm(s, s'.calls, s'.operations, s.deleted);
  }

  lemma PreparingCalm(s: State, t: Handle)
    requires CanStep(s, t) && s.calls[t].pc.Preparing?
    ensures Calm(s, Advance(s, t))
  {
  }

  lemma PublishCalm(s: State, t: Handle)
    requires Bounded(s) && CanStep(s, t) && s.calls[t].pc.Publishing?
    ensures Calm(s, Advance(s, t))
  {
    if s.closing {
    } else if s.rootCanceled {
    } else if s.calls[t].ids[s.calls[t].cur] in s.workers {
    } else {
    }
  }

  lemma CanceledCalm(s: State, s': State, t: Handle, w: Handle)
    requires t in s.calls && w in s.heap && Deletes.Cancels(s, s', t, w)
    ensures Calm(s, s')
  {
  }

  lemma StopPickCalm(s: State, t: Handle)
    requires CanStep(s, t) && s.calls[t].pc.StopPick?
    ensures Calm(s, Advance(s, t))
  {
    var id := s.calls[t].ids[s.calls[t].cur];
    if id in s.workers && s.workers[id] in s.heap {
      CanceledCalm(s, StopPickStep(s, t, id), t, s.workers[id]);
    } else {
      SetCallCalm(s, t, s.calls[t].(pc := StopRead));
    }
  }

  lemma StopStoreCalm(s: State, t: Handle)
    requires CanStep(s, t) && s.calls[t].pc.StopStore?
    ensures Calm(s, Advance(s, t))
  {
  }

  lemma ScheduledCalm(s: State, s': State, t: Handle, w: Handle)
    requires t in s.calls && w in s.heap && Deletes.Schedules(s, s', t, w)
    ensures Calm(s, s')
  {
  }

  lemma ScheduleCalm(s: State, t: Handle)
    requires CanStep(s, t) && s.calls[t].pc.StopDelayed?
    ensures Calm(s, Advance(s, t))
  {
    var w := s.calls[t].pc.worker;
    if s.heap[w].recovery.Some? {
      SetCallCalm(s, t, s.calls[t].(pc := Unlock(ErrStop(RecoveryPending(w)))));
    } else if ShuttingDown(s) {
      SetCallCalm(s, t, s.calls[t].(pc := Unlock(ErrRestore)));
    } else {
      ScheduledCalm(s, ScheduleStep(s, t, w), t, w);
    }
  }

  lemma FlushSendCalm(s: State, t: Handle)
    requires CanStep(s, t) && s.calls[t].pc.FlushSend?
    ensures Calm(s, Advance(s, t))
  {
  }

  lemma DeleteSamplesCalm(s: State, t: Handle)
    requires CanStep(s, t) && s.calls[t].pc.DeleteSamples?
    ensures Calm(s, Advance(s, t))
  {
  }

  lemma DeleteRowCalm(s: State, t: Handle)
    requires CanStep(s, t) && s.calls[t].pc.DeleteRows?
    ensures Calm(s, Advance(s, t))
  {
  }

  lemma ReleaseCalm(s: State, t: Handle, outcome: Outcome)
    requires t in s.calls && 0 < s.calls[t].held <= |s.calls[t].ids|
    ensures Calm(s, UnlockStep(s, t, outcome))
  {
    var s' := UnlockStep(s, t, outcome);
    assert s' == s.(calls := s'.calls, operations := s'.operations, deleted := s.deleted);
    LockCalm(s, s'.calls, s'.operations, s.deleted);
  }

  lemma ReturnCalm(s: State, t: Handle, outcome: Outcome)
    requires t in s.calls && s.calls[t].held == 0
    ensures Calm(s, UnlockStep(s, t, outcome))
  {
    var c := s.calls[t];
    if c.kind.Recovering? && !ShuttingDown(s) && outcome !in {Ok, ErrNotRunning, ErrNotFound, ErrClosed} {
      SetCallCalm(s, t, c.(pc := Acquire));
    } else if c.kind.Creating? && outcome !in {Ok, ErrCreate} {
      SetCallCalm(s, t, c.(pc := CleanStop));
    } else {
      LockCalm(s, s.calls - {t}, s.operations,
               if IsDeletion(c.kind) && outcome == Ok then s.deleted + (set id | id in c.ids) else s.deleted);
    }
  }

  lemma UnlockCalm(s: State, t: Handle)
    requires CanStep(s, t) && s.calls[t].pc.Unlock?
    ensures Calm(s, Advance(s, t))
  {
    if 0 < s.calls[t].held {
      ReleaseCalm(s, t, s.calls[t].pc.outcome);
    } else {
      ReturnCalm(s, t, s.calls[t].pc.outcome);
    }
  }

  lemma CleanedCalm(s: State, s': State, t: Handle, id: Id, pc: Pc)
    requires t in s.calls && Cleans(s, s', t, id, pc)
    ensures Calm(s, s')
  {
  }

  lemma CleanUpCalm(s: State, t: Handle)
    requires CanStep(s, t) && CleansUp(s.calls[t].pc)
    ensures Calm(s, Advance(s, t))
  {
    var id := s.calls[t].ids[s.calls[t].cur];
    if s.calls[t].pc.CleanStop? {
      CleanStopIs(s, t, id);
      CleanedCalm(s, CleanStopStep(s, t, id), t, id, if RowRuns(s, id) then Unlock(ErrCreate) else CleanDelete);
    } else {
      CleanDeleteIs(s, t, id);
      CleanedCalm(s, CleanDeleteStep(s, t, id), t, id, Unlock(ErrCreate));
    }
  }

  lemma AdvanceCalm(s: State, t: Handle)
    requires Bounded(s) && CanStep(s, t)
    ensures Calm(s, Advance(s, t))
  {
    if OnlyMoves(s.calls[t].pc) {
      MovingCalm(s, t);
    } else {
      match s.calls[t].pc
      case Acquire => AcquireCalm(s, t);
      case Preparing(_, _) => PreparingCalm(s, t);
      case Publishing(_, _) => PublishCalm(s, t);
      case StopPick => StopPickCalm(s, t);
      case StopDelayed(_) => ScheduleCalm(s, t);
      case StopStore(_) => StopStoreCalm(s, t);
      case FlushSend => FlushSendCalm(s, t);
      case DeleteSamples => DeleteSamplesCalm(s, t);
      case DeleteRows(_) => DeleteRowCalm(s, t);
      case Unlock(_) => UnlockCalm(s, t);
      case CleanStop => CleanUpCalm(s, t);
      case CleanDelete => CleanUpCalm(s, t);
    }
  }

  /** What every action but a crash passes on: deletions and committed ticks are remembered, and a
      capped idle worker stays capped and idle until its goroutine ends. */
  ghost predicate Passes(s: State, s': State) {
    && s.deleted <= s'.deleted
    && (forall id :: TicksOf(s, id) <= TicksOf(s', id))
    && (forall h | h in s.heap :: h in s'.heap && (Idle(s.heap[h], s.now) ==> Idle(s'.heap[h], s'.now) || !Attached(s'.heap[h])))
  }

  lemma GoPasses(s: State, w: Handle, pc: WorkerPc)
    requires w in s.heap
    requires Idle(s.heap[w], s.now) ==> pc == Top || pc == Finishing || pc == Returned || pc == Removed || pc == Exited
    ensures Passes(s, GoWorker(s, w, pc))
  {
  }

  lemma TopPasses(s: State, w: Handle)
    requires w in s.heap && s.heap[w].pc == Top
    ensures Passes(s, TopStep(s, w))
  {
    if Halted(s, s.heap[w]) {
      GoPasses(s, w, Returned);
    } else if CapReached(s.heap[w].prepared, s.now) {
      GoPasses(s, w, Finishing);
    } else {
      GoPasses(s, w, Ticking);
    }
  }

  lemma RestPasses(s: State, w: Handle, persisted: bool)
    requires w in s.heap && s.heap[w].pc == Resting(persisted)
    ensures Passes(s, RestStep(s, w, persisted))
  {
    if Halted(s, s.heap[w]) {
      GoPasses(s, w, Returned);
    } else if persisted && CapReached(s.heap[w].prepared, s.now) {
      GoPasses(s, w, Finishing);
    } else {
      GoPasses(s, w, Top);
    }
  }

  lemma RemovePasses(s: State, w: Handle)
    requires w in s.heap
    ensures Passes(s, RemoveStep(s, w))
  {
    var id := s.heap[w].session;
    GoPasses(s, w, Removed);
    if id in s.workers && s.workers[id] == w {} else {}
  }

  lemma TickPasses(s: State, w: Handle, sample: Samples.Sample, saved: bool)
    requires w in s.heap && s.heap[w].pc == Ticking
    ensures Passes(s, TickStep(s, w, sample, saved))
  {
    var worker := s.heap[w];
    var rows := Store.SaveTick(s.rows, worker.session, NextSnapshot(worker.prepared, sample), sample.ipHits);
    if !saved || rows.None? {
      GoPasses(s, w, Resting(false));
    } else {
      var p := AfterTick(worker.prepared, sample);
      var moved := SetWorker(s, w, worker.(prepared := p, pc := Enqueueing(TickEvent(worker.prepared, sample))));
      assert Passes(s, moved);
      if worker.session in s.rows {
        CommitPasses(s, moved, worker.session, Committed(worker.prepared, sample), rows.value);
      }
    }
  }

  lemma CommitPasses(s: State, moved: State, id: Id, tick: Tick, rows: Store.Table)
    requires Passes(s, moved) && moved.ticks == s.ticks
    ensures Passes(s, moved.(rows := rows, ticks := s.ticks[id := TicksOf(s, id) + [tick]]))
  {
  }

  lemma EnqueuePasses(s: State, w: Handle, event: Writer.Event, accepting: bool)
    requires w in s.heap && s.heap[w].pc == Enqueueing(event)
    ensures Passes(s, EnqueueStep(s, w, event, accepting))
  {
    if accepting && Writer.ValidEvent(event) {} else {}
  }

  lemma FinishedPasses(s: State, w: Handle, rows: Store.Table)
    requires w in s.heap
    ensures Passes(s, SetWorker(s, w, s.heap[w].(pc := Returned, finishedRow := true)).(rows := rows))
  {
  }

  lemma FinishPasses(s: State, w: Handle, reached: bool)
    requires w in s.heap && s.heap[w].pc == Finishing
    ensures Passes(s, FinishStep(s, w, reached))
  {
    var worker := s.heap[w];
    if reached && Store.Finish(s.rows, worker.session).1.Done? {
      FinishedPasses(s, w, Store.Finish(s.rows, worker.session).0);
    } else if Halted(s, worker) {
      GoPasses(s, w, Returned);
    } else {
      StillPasses(s, s);
    }
  }

  /** Actions that neither touch workers nor history. */
  lemma StillPasses(s: State, s': State)
    requires s'.heap == s.heap && s'.ticks == s.ticks && s'.deleted == s.deleted && s.now <= s'.now
    ensures Passes(s, s')
  {
  }

  lemma CreatePasses(s: State, s': State, id: Id)
    requires Bounded(s) && id !in s.named
    requires s' == s.(rows := s'.rows, ticks := s.ticks[id := []], named := s'.named, calls := s'.calls, next := s'.next)
    ensures Passes(s, s')
  {
    assert TicksOf(s, id) == [];
  }

  lemma WorkerStepPasses(s: State, step: Step)
    requires Enabled(s, step) && WorkerStep(step)
    ensures Passes(s, Apply(s, step))
  {
    match step
    case WorkerEnqueue(w, accepting) => EnqueuePasses(s, w, s.heap[w].pc.event, accepting);
    case WorkerFinish(w, reached) => FinishPasses(s, w, reached);
    case WorkerTop(w) => TopPasses(s, w);
    case WorkerTick(w, sample, saved) => TickPasses(s, w, sample, saved);
    case WorkerRest(w) => RestPasses(s, w, s.heap[w].pc.persisted);
    case WorkerRemove(w) => RemovePasses(s, w);
    case WorkerExit(w) => GoPasses(s, w, Exited);
  }

  lemma CalmPasses(s: State, s': State)
    requires Calm(s, s')
    ensures Passes(s, s')
  {
  }

  lemma StepPasses(s: State, step: Step)
    requires Bounded(s) && Enabled(s, step) && !step.Crash?
    ensures Passes(s, Apply(s, step))
  {
    if WorkerStep(step) {
      WorkerStepPasses(s, step);
    } else {
      match step
      case Create(id, _, _, _, _) => CreatePasses(s, Apply(s, step), id);
      case CallStep(t) =>
        AdvanceCalm(s, t);
        CalmPasses(s, Advance(s, t));
      case CallFails(t) =>
        SetCallCalm(s, t, s.calls[t].(pc := AfterFailure(s.heap, s.calls[t].pc)));
        CalmPasses(s, Fail(s, t));
      case ReenableRow(_) => StillPasses(s, Apply(s, step));
      case AdvanceClock(_) => StillPasses(s, Apply(s, step));
      case CancelRoot => StillPasses(s, Apply(s, step));
      case Close => StillPasses(s, Apply(s, step));
      case WriterReceive(_, _) => StillPasses(s, Apply(s, step));
      case WriterTick(_, _) => StillPasses(s, Apply(s, step));
      case Begin(_, _) => StillPasses(s, Apply(s, step));
    }
  }

  /** No handle, id, row or map entry is new, and no call or lock changes. */
  ghost predicate NamesKept(s: State, s': State) {
    && s'.workers.Keys <= s.workers.Keys && AtMostOffers(s, s')
    && s'.heap.Keys == s.heap.Keys && s'.rows.Keys == s.rows.Keys && s'.ticks.Keys <= s.ticks.Keys + s.rows.Keys
    && s'.named == s.named && s'.next == s.next && s'.calls == s.calls && s'.operations == s.operations
  }

  lemma GoKeepsNames(s: State, w: Handle, pc: WorkerPc)
    requires w in s.heap
    ensures NamesKept(s, GoWorker(s, w, pc))
  {
  }

  lemma TickKeepsNames(s: State, w: Handle, sample: Samples.Sample, saved: bool)
    requires w in s.heap
    ensures NamesKept(s, TickStep(s, w, sample, saved))
  {
    var worker := s.heap[w];
    var snapshot := NextSnapshot(worker.prepared, sample);
    if !saved || Store.SaveTick(s.rows, worker.session, snapshot, sample.ipHits).None? {
      GoKeepsNames(s, w, Resting(false));
    } else {
      SavedNames(s.rows, worker.session, snapshot, sample.ipHits);
      var moved := SetWorker(s, w, worker.(prepared := AfterTick(worker.prepared, sample),
                                           pc := Enqueueing(TickEvent(worker.prepared, sample))));
      assert NamesKept(s, moved);
      if worker.session in s.rows {
        CommitKeepsNames(s, moved, worker.session, TicksOf(s, worker.session) + [Committed(worker.prepared, sample)],
                         Store.SaveTick(s.rows, worker.session, snapshot, sample.ipHits).value);
      }
    }
  }

  lemma CommitKeepsNames(s: State, moved: State, id: Id, ticks: seq<Tick>, rows: Store.Table)
    requires NamesKept(s, moved) && id in s.rows && rows.Keys == s.rows.Keys
    ensures NamesKept(s, moved.(rows := rows, ticks := s.ticks[id := ticks]))
  {
  }

  lemma SavedNames(rows: Store.Table, id: Id, snapshot: Store.Snapshot, hits: map<Ip, nat>)
    ensures Store.SaveTick(rows, id, snapshot, hits).Some? ==> Store.SaveTick(rows, id, snapshot, hits).value.Keys == rows.Keys
  {
  }

  lemma TopKeepsNames(s: State, w: Handle)
    requires w in s.heap
    ensures NamesKept(s, TopStep(s, w))
  {
    var worker := s.heap[w];
    GoKeepsNames(s, w, if Halted(s, worker) then Returned else if CapReached(worker.prepared, s.now) then Finishing else Ticking);
  }

  lemma RestKeepsNames(s: State, w: Handle, persisted: bool)
    requires w in s.heap
    ensures NamesKept(s, RestStep(s, w, persisted))
  {
    var worker := s.heap[w];
    GoKeepsNames(s, w, if Halted(s, worker) then Returned
                       else if persisted && CapReached(worker.prepared, s.now) then Finishing else Top);
  }

  lemma FinishKeepsNames(s: State, w: Handle, reached: bool)
    requires w in s.heap
    ensures NamesKept(s, FinishStep(s, w, reached))
  {
    var worker := s.heap[w];
    if reached && Store.Finish(s.rows, worker.session).1.Done? {
      assert NamesKept(s, SetWorker(s, w, worker.(pc := Returned, finishedRow := true)));
    } else if Halted(s, worker) {
      GoKeepsNames(s, w, Returned);
    }
  }

  lemma EnqueueKeepsNames(s: State, w: Handle, event: Writer.Event, accepting: bool)
    requires w in s.heap
    ensures NamesKept(s, EnqueueStep(s, w, event, accepting))
  {
    GoKeepsNames(s, w, Resting(true));
    if accepting && Writer.ValidEvent(event) {
      var command := Writer.EventCommand(event);
      assert EnqueueStep(s, w, event, accepting).core == Writer.Offer(s.core, command, s.capacity).0;
    }
  }

  lemma WorkerKeepsNames(s: State, step: Step)
    requires Enabled(s, step) && WorkerStep(step)
    ensures NamesKept(s, Apply(s, step))
  {
    match step
    case WorkerTick(w, sample, saved) => TickKeepsNames(s, w, sample, saved);
    case WorkerFinish(w, reached) => FinishKeepsNames(s, w, reached);
    case WorkerTop(w) => TopKeepsNames(s, w);
    case WorkerRest(w) => RestKeepsNames(s, w, s.heap[w].pc.persisted);
    case WorkerEnqueue(w, accepting) => EnqueueKeepsNames(s, w, s.heap[w].pc.event, accepting);
    case WorkerRemove(w) => GoKeepsNames(s, w, Removed);
    case WorkerExit(w) => GoKeepsNames(s, w, Exited);
  }

  lemma CreateBounded(s: State, id: Id, row: Store.Row, alone: bool)
    requires Bounded(s)
    ensures Bounded(CreateStep(s, id, row, alone))
  {
  }

  lemma CalmBounded(s: State, s': State)
    requires Bounded(s) && Calm(s, s')
    ensures Bounded(s')
  {
  }

  lemma CallBounded(s: State, step: Step)
    requires Bounded(s) && Enabled(s, step) && CallerStep(step)
    ensures Bounded(Apply(s, step))
  {
    match step
    case CallStep(t) =>
      AdvanceCalm(s, t);
      CalmBounded(s, Advance(s, t));
    case CallFails(t) =>
      SetCallCalm(s, t, s.calls[t].(pc := AfterFailure(s.heap, s.calls[t].pc)));
      CalmBounded(s, Fail(s, t));
    case Begin(_, _) =>
  }

  lemma FewerBounded(s: State, s': State)
    requires Bounded(s) && s'.heap.Keys <= s.heap.Keys && s'.rows.Keys == s.rows.Keys && s'.ticks == s.ticks
    requires s'.named == s.named && s'.next == s.next
    ensures Bounded(s')
  {
  }

  lemma ReenabledKeys(rows: Store.Table, id: Id, at: int)
    ensures Store.Reenable(rows, id, at).0.Keys == rows.Keys
  {
  }

  lemma EnvironmentBounded(s: State, step: Step)
    requires Bounded(s) && Enabled(s, step) && !WorkerStep(step) && !CallerStep(step) && !step.Create?
    ensures Bounded(Apply(s, step))
  {
    if step.ReenableRow? {
      ReenabledKeys(s.rows, step.id, s.now);
    }
    FewerBounded(s, Apply(s, step));
  }

  lemma StepBounded(s: State, step: Step, s': State)
    requires Bounded(s) && Goes(s, step, s')
    ensures Bounded(s')
  {
    if WorkerStep(step) {
      WorkerKeepsNames(s, step);
    } else if CallerStep(step) {
      CallBounded(s, step);
    } else if step.Create? {
      CreateBounded(s, step.id, s'.rows[step.id], step.alone);
    } else {
      EnvironmentBounded(s, step);
    }
  }

  lemma {:induction false} RunIsBounded(states: seq<State>, steps: seq<Step>, i: nat)
    requires IsRun(states, steps) && i < |states|
    ensures Bounded(states[i])
  {
    if i > 0 {
      RunIsBounded(states, steps, i - 1);
      assert StepAt(states, steps, i - 1);
      StepBounded(states[i - 1], steps[i - 1], states[i]);
    }
  }

  lemma StepKeepsHistory(s: State, step: Step, s': State)
    requires Bounded(s) && Goes(s, step, s')
    ensures s.deleted <= s'.deleted
    ensures forall id :: TicksOf(s, id) <= TicksOf(s', id)
  {
    if !step.Crash? {
      StepPasses(s, step);
    }
  }

  /** Deletions and committed ticks are never taken back, not even by a crash. */
  lemma RunStepKeepsHistory(states: seq<State>, steps: seq<Step>, i: nat)
    requires IsRun(states, steps) && i < |steps|
    ensures states[i].deleted <= states[i + 1].deleted
    ensures forall id :: TicksOf(states[i], id) <= TicksOf(states[i + 1], id)
  {
    RunIsBounded(states, steps, i);
    assert StepAt(states, steps, i);
    StepKeepsHistory(states[i], steps[i], states[i + 1]);
  }

  // ----- Deletion -----

  /** Nothing of the session is left, and nothing can bring a sample back: no row, no sample stored,
      batched or queued, no worker that can tick, no call about to publish one that could. */
  predicate Gone(s: State, id: Id) {
    && id !in s.rows
    && NoneStored(s, [id]) && NoneQueued(s.core, [id])
    && Quiet(s, id)
    && (forall h | h in s.heap && s.heap[h].session == id && Attached(s.heap[h]) :: Idle(s.heap[h], s.now))
    && (forall t | t in s.calls && s.calls[t].pc.Publishing? && s.calls[t].pc.prepared.session == id ::
          CapReached(s.calls[t].pc.prepared, s.now))
  }

  /** A session without a row is gone, unless a clean-up deleted the row under its samples. */
  lemma MissingIsGone(s: State, id: Id)
    requires Inv(s) && id !in s.rows && id !in s.orphans
    ensures Gone(s, id)
  {
    Calls.RestingRowQuiet(s, id);
    forall h | h in s.heap && s.heap[h].session == id && Attached(s.heap[h]) ensures Idle(s.heap[h], s.now) {
      assert WorkerOk(s, h, s.heap[h]);
    }
    forall t | t in s.calls && s.calls[t].pc.Publishing? && s.calls[t].pc.prepared.session == id
      ensures CapReached(s.calls[t].pc.prepared, s.now)
    {
      assert CallOk(s, t, s.calls[t]);
    }
  }

  lemma {:induction false} DeletedStays(states: seq<State>, steps: seq<Step>, i: nat, j: nat)
    requires IsRun(states, steps) && i <= j < |states|
    ensures states[i].deleted <= states[j].deleted
    decreases j
  {
    if i < j {
      DeletedStays(states, steps, i, j - 1);
      RunStepKeepsHistory(states, steps, j - 1);
    }
  }

  /** Deletion never resurrects samples: once Delete or DeleteSessions has returned nil for a session,
      the session is gone in that state and in every later one, as long as clean-ups are careful. */
  lemma DeletionIsFinal(states: seq<State>, steps: seq<Step>, i: nat, j: nat, id: Id)
    requires IsCarefulRun(states, steps) && i <= j < |states| && id in states[i].deleted
    ensures Gone(states[j], id)
  {
    DeletedStays(states, steps, i, j);
    RunKeepsInv(states, steps, j);
    MissingIsGone(states[j], id);
  }

  /** The returning action of a deletion with result nil records exactly its ids, and already then
      every one of them is gone. */
  lemma DeletionReturns(s: State, t: Handle)
    requires Inv(s) && CanStep(s, t) && IsDeletion(s.calls[t].kind)
    requires s.calls[t].pc == Unlock(Ok) && s.calls[t].held == 0
    ensures Advance(s, t).deleted == s.deleted + (set id | id in s.calls[t].ids)
    ensures forall id | id in s.calls[t].ids :: Gone(s, id)
  {
    assert CallOk(s, t, s.calls[t]);
    forall id | id in s.calls[t].ids ensures Gone(s, id) {
      var k :| 0 <= k < |s.calls[t].ids| && s.calls[t].ids[k] == id;
      MissingIsGone(s, id);
    }
  }

  /** Once the barrier of a deletion is answered, no event of its sessions is queued or batched any more. */
  lemma AnsweredBarrierClears(s: State, t: Handle, b: nat)
    requires Inv(s) && t in s.calls && s.calls[t].pc == FlushWait(b)
    requires Answered(s.core, b, true) || Answered(s.core, b, false)
    ensures NoneQueued(s.core, s.calls[t].ids)
  {
    assert CallOk(s, t, s.calls[t]);
  }

  // ----- Numbering and inventory -----

  /** At every moment of every run the lifetime counter of a session is the number of its committed
      ticks, the k-th of which carries number k, and the cap is respected. */
  lemma LifetimeNumbering(states: seq<State>, steps: seq<Step>, i: nat, id: Id)
    requires IsCarefulRun(states, steps) && i < |states| && id in states[i].rows && Countable(TicksOf(states[i], id))
    ensures var row, ticks := states[i].rows[id], TicksOf(states[i], id);
            && row.sequenceOffset + row.samplesTaken == |ticks|
            && (forall k | 0 <= k < |ticks| :: ticks[k].sequence == k + 1)
            && (row.maxSamples.Some? ==> row.samplesTaken <= row.maxSamples.value)
  {
    RunKeepsInv(states, steps, i);
    assert RowAgrees(states[i].rows[id], states[i].ticks[id]);
  }

  /** distinct_ips counts the inventory rows, the hit counts add up to every successful probe ever
      recorded, and the new addresses of all ticks add up to the inventory. */
  lemma InventoryNeverDrifts(states: seq<State>, steps: seq<Step>, i: nat, id: Id)
    requires IsCarefulRun(states, steps) && i < |states| && id in states[i].rows
    ensures var row, ticks := states[i].rows[id], TicksOf(states[i], id);
            && row.distinctIPs == ToInt32(|row.ips|)
            && row.ips.Keys == AddressesOf(ticks)
            && Sum<Ip>(row.ips) == TotalHits(ticks)
            && TotalNew(ticks) == |row.ips|
  {
    RunKeepsInv(states, steps, i);
    assert RowAgrees(states[i].rows[id], states[i].ticks[id]);
  }

  /** Committed ticks are never taken back, not even by a crash or by deletion. */
  lemma {:induction false} HistoryIsPrefix(states: seq<State>, steps: seq<Step>, i: nat, j: nat, id: Id)
    requires IsRun(states, steps) && i <= j < |states|
    ensures TicksOf(states[i], id) <= TicksOf(states[j], id)
    decreases j
  {
    if i < j {
      HistoryIsPrefix(states, steps, i, j - 1, id);
      RunStepKeepsHistory(states, steps, j - 1);
    }
  }

  // ----- Ownership -----

  /** The goroutine is inside Run. */
  predicate InRun(w: Worker) { Attached(w) && w.pc != Returned }

  /** At most one goroutine runs for a session, no PreparedWorker is run by two goroutines, and every
      goroutine inside Run is synced with its running row or capped and outside a tick. */
  lemma SingleSyncedOwner(s: State, g: Handle, h: Handle)
    requires Inv(s) && g in s.heap && h in s.heap && InRun(s.heap[g]) && InRun(s.heap[h])
    ensures s.heap[g].session == s.heap[h].session ==> g == h
    ensures s.heap[g].prepared.identity == s.heap[h].prepared.identity ==> g == h
    ensures InSync(s, s.heap[g].prepared) || Idle(s.heap[g], s.now)
  {
    assert WorkerOk(s, g, s.heap[g]) && WorkerOk(s, h, s.heap[h]);
  }

  /** A capped idle worker never ticks again: until its goroutine ends it stays capped and idle. */
  lemma IdleForever(s: State, step: Step, h: Handle)
    requires Bounded(s) && Enabled(s, step) && h in s.heap && Idle(s.heap[h], s.now) && !step.Crash?
    ensures h in Apply(s, step).heap
    ensures Idle(Apply(s, step).heap[h], Apply(s, step).now) || !Attached(Apply(s, step).heap[h])
  {
    StepPasses(s, step);
  }

  /** Who owns the session of a failed stop, in so many words. */
  predicate StillOwned(s: State, id: Id, ownership: Ownership) {
    match ownership
    case Republished(w) =>
      w in s.heap && s.heap[w].session == id
      && ((id in s.workers && s.workers[id] == w) || s.rootCanceled || s.heap[w].finishedRow)
    case RecoveryPending(w) =>
      ShuttingDown(s) || exists r | r in s.calls :: s.calls[r].kind == Recovering(w) && s.calls[r].ids == [id] && s.calls[r].held == 0
    case FoundStale(read) => read != Some(Store.Running)
  }

  /** A stop that held the lock and failed reports either that restoring failed, or how the session is
      owned: by the worker it put back (which can only have left by finishing its row or with the
      process), or by a recovery that still waits for this very lock. */
  lemma FailedStopKeepsOwnership(s: State, t: Handle)
    requires Inv(s) && t in s.calls && s.calls[t].kind == Stopping
    requires s.calls[t].pc.Unlock? && s.calls[t].held == |s.calls[t].ids|
    ensures var outcome := s.calls[t].pc.outcome;
            outcome == Ok || outcome == ErrNotRunning || outcome == ErrNotFound || outcome == ErrRestore
            || (outcome.ErrStop? && |s.calls[t].ids| == 1 && StillOwned(s, s.calls[t].ids[0], outcome.ownership))
  {
    assert CallOk(s, t, s.calls[t]);
    var outcome := s.calls[t].pc.outcome;
    if outcome.ErrStop? {
      match outcome.ownership
      case Republished(w) => assert WorkerOk(s, w, s.heap[w]);
      case RecoveryPending(w) =>
        if !ShuttingDown(s) {
          var r := s.heap[w].recovery.value;
          assert CallOk(s, r, s.calls[r]);
        }
      case FoundStale(_) =>
    }
  }
}
