/** From the writer's answers to ClickHouse: a batch that the log calls sent is stored, event by event, and
    stays stored until its session is purged. So a barrier answered nil says that everything accepted since
    the barrier before it is in ClickHouse. */
module Delivery {
  import opened Common
  import opened Supervisor
  import opened SupervisorSafety
  import opened SupervisorLocks
  import opened SupervisorOutcomes
  import Store = SessionStore
  import Writer = SampleWriter

  // ----- One step -----

  /** Entry k of the log is a batch. */
  predicate BatchAt(log: seq<Writer.LogEntry>, k: nat) {
    k < |log| && log[k].BatchHandled?
  }

  /** ClickHouse got exactly the batches the log grew by, in order, if they landed, and otherwise nothing. */
  ghost predicate StoredFollowsLog(s: State, s': State, sent: bool, landed: bool) {
    && s.core.log <= s'.core.log
    && (forall k | |s.core.log| <= k && BatchAt(s'.core.log, k) ::
          && s'.core.log[k].sent == sent
          && s'.stored == s.stored + (if landed then s'.core.log[k].events else []))
    && ((forall k | |s.core.log| <= k :: !BatchAt(s'.core.log, k)) ==> s'.stored == s.stored)
  }

  lemma OneBatch(s: State, s': State, sent: bool, landed: bool)
    requires s'.core.log == s.core.log + [Writer.BatchHandled(s.core.batch, sent)] || s'.core.log == s.core.log
    requires s'.stored == s.stored + (if landed && s'.core.log != s.core.log then s.core.batch else [])
    ensures StoredFollowsLog(s, s', sent, landed)
  {
    assert s'.core.log != s.core.log ==> BatchAt(s'.core.log, |s.core.log|);
    assert s.stored + [] == s.stored;
  }

  /** Whenever the writer's ticker runs, what is logged as handed over is what is stored. */
  lemma TickerStores(s: State, sent: bool, landed: bool)
    requires Enabled(s, WriterTick(sent, landed))
    ensures StoredFollowsLog(s, Apply(s, WriterTick(sent, landed)), sent, landed)
  {
    var s' := Apply(s, WriterTick(sent, landed));
    assert s.stored + [] == s.stored;
    OneBatch(s, s', sent, landed);
  }

  lemma EventStores(s: State, sent: bool, landed: bool)
    requires Enabled(s, WriterReceive(sent, landed)) && s.core.queue[0].EventCommand?
    ensures StoredFollowsLog(s, Apply(s, WriterReceive(sent, landed)), sent, landed)
  {
    var s' := Apply(s, WriterReceive(sent, landed));
    assert s.stored + [] == s.stored;
    OneBatch(s.(core := s.core.(batch := s.core.batch + [s.core.queue[0].event])), s', sent, landed);
  }

  lemma BarrierStores(s: State, sent: bool, landed: bool)
    requires Enabled(s, WriterReceive(sent, landed)) && s.core.queue[0].BarrierCommand?
    ensures StoredFollowsLog(s, Apply(s, WriterReceive(sent, landed)), sent, landed)
  {
    var s' := Apply(s, WriterReceive(sent, landed));
    var flushed := Writer.Flush(s.core, sent);
    assert s.stored + [] == s.stored;
    OneBatch(s, s'.(core := flushed), sent, landed);
    assert |s'.core.log| == |flushed.log| + 1;
    forall k | |s.core.log| <= k && BatchAt(s'.core.log, k) ensures BatchAt(flushed.log, k) {}
    forall k | |s.core.log| <= k && BatchAt(flushed.log, k) ensures BatchAt(s'.core.log, k) {}
  }

  /** One receive of the run loop stores exactly the batch it logs. */
  lemma ReceiveStores(s: State, sent: bool, landed: bool)
    requires Enabled(s, WriterReceive(sent, landed))
    ensures StoredFollowsLog(s, Apply(s, WriterReceive(sent, landed)), sent, landed)
  {
    if s.core.queue[0].EventCommand? {
      EventStores(s, sent, landed);
    } else {
      BarrierStores(s, sent, landed);
    }
  }

  // ----- All other steps -----

  predicate IsWriterStep(step: Step) { step.WriterReceive? || step.WriterTick? }

  /** The step purges the samples of the session. */
  predicate PurgesSession(s: State, step: Step, id: Id) {
    step.CallStep? && step.t in s.calls && s.calls[step.t].pc == DeleteSamples && id in s.calls[step.t].ids
  }

  lemma CallOffers(s: State, t: Handle)
    requires CanStep(s, t) && s.calls[t].pc != DeleteSamples
    ensures AtMostOffers(s, Advance(s, t))
  {
    if OnlyMoves(s.calls[t].pc) {
      MovingMoves(s, t);
    } else if Keeps(s.calls[t].pc) {
      AdvanceMoves(s, t);
    } else {
      match s.calls[t].pc
      case Acquire => AcquiredCalls(s, t);
      case StopDelayed(w) => DelayOffers(s, t, w);
      case Unlock(outcome) => UnlockOffers(s, t, outcome);
    }
  }

  lemma DelayOffers(s: State, t: Handle, w: Handle)
    requires t in s.calls && w in s.heap
    ensures AtMostOffers(s, ScheduleStep(s, t, w))
  {
    if s.heap[w].recovery.None? && !ShuttingDown(s) {
      ScheduledCalls(s, t, w);
    } else {
      DelayOver(s, t, w);
    }
  }

  lemma UnlockOffers(s: State, t: Handle, outcome: Outcome)
    requires t in s.calls && s.calls[t].held <= |s.calls[t].ids|
    ensures AtMostOffers(s, UnlockStep(s, t, outcome))
  {
    if 0 < s.calls[t].held {
      Releases(s, t, outcome);
    } else {
      UnlockedOffers(s, t, outcome);
    }
  }

  lemma UnlockedOffers(s: State, t: Handle, outcome: Outcome)
    requires t in s.calls && s.calls[t].held == 0
    ensures AtMostOffers(s, UnlockStep(s, t, outcome))
  {
    if MayEnd(s, s.calls[t].kind, outcome) {
      Ends(s, t, outcome);
    } else {
      Retries(s, t, outcome);
    }
  }

  lemma PurgeKeepsOthers(s: State, t: Handle)
    requires CanStep(s, t) && s.calls[t].pc == DeleteSamples
    ensures Advance(s, t).core == s.core && Advance(s, t).batchSize == s.batchSize
    ensures forall e | e in s.stored && e.session !in s.calls[t].ids :: e in Advance(s, t).stored
  {
    assert Advance(s, t) == PurgeStep(s, t);
  }

  lemma OutsideOffers(s: State, step: Step)
    requires Enabled(s, step) && Outside(step) && !IsWriterStep(step)
    ensures AtMostOffers(s, Apply(s, step))
  {
  }

  lemma BeginningOffers(s: State, step: Step)
    requires Enabled(s, step) && (step.Create? || step.Begin?)
    ensures AtMostOffers(s, Apply(s, step))
  {
    match step
    case Begin(_, _) =>
    case Create(id, maxSamples, maxDuration, startedAt, alone) =>
      CreatedOffers(s, id, Store.Row(Store.Running, 0, 0, maxSamples, maxDuration, Some(startedAt), 0, 0, map[]), alone);
  }

  lemma CreatedOffers(s: State, id: Id, row: Store.Row, alone: bool)
    ensures AtMostOffers(s, CreateStep(s, id, row, alone))
  {
  }

  /** The log of one process only grows, and a stored event stays stored unless its session is purged. */
  ghost predicate Accumulates(s: State, step: Step, s': State) {
    && s.core.log <= s'.core.log
    && forall e | e in s.stored && !PurgesSession(s, step, e.session) :: e in s'.stored
  }

  /** Every batch newly logged as sent is stored. */
  ghost predicate SentIsKept(s: State, s': State) {
    forall k | |s.core.log| <= k && BatchAt(s'.core.log, k) && s'.core.log[k].sent ::
      forall e | e in s'.core.log[k].events :: e in s'.stored
  }

  lemma OtherSteps(s: State, step: Step)
    requires Enabled(s, step) && !step.Crash? && !IsWriterStep(step)
    ensures Apply(s, step).core.log == s.core.log && Apply(s, step).batchSize == s.batchSize
    ensures forall e | e in s.stored && !PurgesSession(s, step, e.session) :: e in Apply(s, step).stored
    ensures AtMostOffers(s, Apply(s, step)) || Apply(s, step).core == s.core
  {
    if WorkerStep(step) {
      WorkerKeepsNames(s, step);
    } else if Outside(step) {
      OutsideOffers(s, step);
    } else if step.CallStep? {
      if s.calls[step.t].pc == DeleteSamples {
        PurgeKeepsOthers(s, step.t);
      } else {
        CallOffers(s, step.t);
      }
    } else if step.CallFails? {
      assert AtMostOffers(s, Fail(s, step.t));
    } else {
      BeginningOffers(s, step);
    }
  }

  lemma HandedOver(s: State, step: Step, s': State, sent: bool, landed: bool)
    requires StoredFollowsLog(s, s', sent, landed) && (sent ==> landed)
    ensures Accumulates(s, step, s') && SentIsKept(s, s')
  {
    if k :| |s.core.log| <= k && BatchAt(s'.core.log, k) {
      assert forall e | e in s.stored :: e in s'.stored;
    }
  }

  lemma StepDelivers(s: State, step: Step, s': State)
    requires Goes(s, step, s') && !step.Crash?
    ensures Accumulates(s, step, s') && SentIsKept(s, s')
  {
    match step
    case WriterReceive(sent, landed) =>
      ReceiveStores(s, sent, landed);
      HandedOver(s, step, s', sent, landed);
    case WriterTick(sent, landed) =>
      TickerStores(s, sent, landed);
      HandedOver(s, step, s', sent, landed);
    case _ => OtherSteps(s, step);
  }

  // ----- Runs -----

  /** Step j purged the session, after the batch at position k of the log and in the same life of the process
      as state i. */
  ghost predicate PurgedSince(states: seq<State>, steps: seq<Step>, k: nat, j: nat, i: nat, id: Id)
    requires |states| == |steps| + 1
  {
    && j < i < |states| && PurgesSession(states[j], steps[j], id) && k < |states[j].core.log|
    && forall m | j <= m < i :: !steps[m].Crash?
  }

  ghost predicate StoredOrPurged(states: seq<State>, steps: seq<Step>, k: nat, i: nat, e: Writer.Event)
    requires |states| == |steps| + 1
  {
    i < |states| && (e in states[i].stored || exists j :: 0 <= j < i && PurgedSince(states, steps, k, j, i, e.session))
  }

  ghost predicate SentAt(s: State, k: nat, e: Writer.Event) {
    BatchAt(s.core.log, k) && s.core.log[k].sent && e in s.core.log[k].events
  }

  /** In every run: each event of a batch that the log calls sent is in ClickHouse, unless its session was
      purged since. */
  lemma {:induction false} SentIsStored(states: seq<State>, steps: seq<Step>, i: nat, k: nat, e: Writer.Event)
    requires IsRun(states, steps) && i < |states| && SentAt(states[i], k, e)
    ensures StoredOrPurged(states, steps, k, i, e)
  {
    assert i > 0;
    var s, step, s' := states[i - 1], steps[i - 1], states[i];
    assert StepAt(states, steps, i - 1);
    assert !step.Crash?;
    StepDelivers(s, step, s');
    if k < |s.core.log| {
      assert s.core.log[k] == s'.core.log[k];
      SentIsStored(states, steps, i - 1, k, e);
      StillStored(states, steps, i - 1, k, e);
    }
  }

  lemma StillStored(states: seq<State>, steps: seq<Step>, i: nat, k: nat, e: Writer.Event)
    requires IsRun(states, steps) && i < |steps| && k < |states[i].core.log| && !steps[i].Crash?
    requires StoredOrPurged(states, steps, k, i, e) && Accumulates(states[i], steps[i], states[i + 1])
    ensures StoredOrPurged(states, steps, k, i + 1, e)
  {
    if e in states[i].stored {
      assert PurgesSession(states[i], steps[i], e.session) ==> PurgedSince(states, steps, k, i, i + 1, e.session);
    } else {
      var j :| 0 <= j < i && PurgedSince(states, steps, k, j, i, e.session);
      assert PurgedSince(states, steps, k, j, i + 1, e.session);
    }
  }

  lemma CoreKept(s: State, step: Step, s': State)
    requires Goes(s, step, s') && CoreOk(s)
    ensures CoreOk(s')
  {
    match step
    case WriterReceive(sent, _) => Writer.ReceiveKeepsInv(s.core, sent, s.batchSize);
    case WriterTick(sent, _) => Writer.FlushKeepsInv(s.core, sent, s.batchSize);
    case Crash => EmptyCore(s.batchSize);
    case _ => OtherCoreKept(s, step, s');
  }

  lemma EmptyCore(batchSize: nat)
    requires 0 < batchSize
    ensures Writer.Inv(Writer.EMPTY, batchSize)
  {
    assert Writer.Conserved(Writer.EMPTY);
  }

  lemma OtherCoreKept(s: State, step: Step, s': State)
    requires Goes(s, step, s') && Writer.Inv(s.core, s.batchSize) && !step.Crash? && !IsWriterStep(step)
    ensures Writer.Inv(s'.core, s'.batchSize) && s'.batchSize == s.batchSize
  {
    OtherSteps(s, step);
    if s'.core != s.core {
      var command :| s'.core == Writer.Offer(s.core, command, s.capacity).0;
      Writer.OfferKeepsInv(s.core, command, s.capacity, s.batchSize);
    }
  }

  predicate CoreOk(s: State) {
    Writer.Inv(s.core, s.batchSize) && 0 < s.batchSize
  }

  lemma InitCore(s: State)
    requires Init(s)
    ensures CoreOk(s)
  {
    EmptyCore(s.batchSize);
  }

  lemma {:induction false} RunKeepsCore(states: seq<State>, steps: seq<Step>, i: nat)
    requires IsRun(states, steps) && i < |states|
    ensures CoreOk(states[i])
  {
    if i == 0 {
      InitCore(states[0]);
    } else {
      RunKeepsCore(states, steps, i - 1);
      assert StepAt(states, steps, i - 1);
      CoreKept(states[i - 1], steps[i - 1], states[i]);
    }
  }

  /** A barrier answered nil: everything the channel accepted between the barrier before it, or the start of
      the process, and this barrier is in ClickHouse, unless its session was purged since. */
  lemma NilMeansStored(states: seq<State>, steps: seq<Step>, i: nat, start: nat, at: nat)
      returns (before: seq<Writer.Command>, events: seq<Writer.Event>, after: seq<Writer.Command>)
    requires IsRun(states, steps) && i < |states|
    requires var log := states[i].core.log;
             && start <= at < |log| && log[at].BarrierAnswered? && log[at].ok && Writer.NoBarrierIn(log, start, at)
             && (start == 0 || log[start - 1].BarrierAnswered?)
    ensures var core := states[i].core;
            && core.accepted == before + (Writer.EventCommands(events) + ([Writer.BarrierCommand(core.log[at].barrier)] + after))
            && (if start == 0 then before == []
                else before != [] && before[|before| - 1] == Writer.BarrierCommand(core.log[start - 1].barrier))
    ensures forall e | e in events :: exists k :: start <= k < at && StoredOrPurged(states, steps, k, i, e)
  {
    var core := states[i].core;
    RunKeepsCore(states, steps, i);
    Writer.BarrierMeaning(core, states[i].batchSize, start, at);
    before, events, after := Writer.UpToBarrier(core, start, at);
    forall e | e in events ensures exists k :: start <= k < at && StoredOrPurged(states, steps, k, i, e) {
      var j := Writer.FromBatch(core.log[start..at], e);
      assert core.log[start..at][j] == core.log[start + j];
      SentIsStored(states, steps, i, start + j, e);
    }
  }
}
