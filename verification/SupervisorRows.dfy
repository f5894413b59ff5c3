/** Who may change a control row, and how; and what one step of a worker does to the row, to itself and to
    the writer's channel. */
module SupervisorRows {
  import opened Common
  import opened Samples
  import opened SamplingWorker
  import opened Supervisor
  import opened SupervisorInvariant
  import opened SupervisorCleanUp
  import opened SupervisorSafety
  import opened SupervisorLocks
  import opened SupervisorOutcomes
  import Store = SessionStore
  import Writer = SampleWriter

  // ----- Changes of a row -----

  /** A new life of the session: its samples so far are folded into the offset, its caps stay, and the time
      they are measured from is now. */
  predicate NewLife(row: Store.Row, was: Store.Row, now: int) {
    && row.status == Store.Running && row.startedAt == Some(now)
    && row.samplesTaken == 0 && row.sequenceOffset == was.sequenceOffset + was.samplesTaken
    && row.maxSamples == was.maxSamples && row.maxDuration == was.maxDuration
    && row.ips == was.ips && row.distinctIPs == was.distinctIPs
  }

  /** The counters may have moved on, in the same life. */
  predicate SameLife(row: Store.Row, was: Store.Row) {
    && row.status == was.status && row.startedAt == was.startedAt && row.sequenceOffset == was.sequenceOffset
    && row.maxSamples == was.maxSamples && row.maxDuration == was.maxDuration
  }

  /** A call sets the row to stopped: a stop, a deletion that stops first, or a clean-up. */
  predicate StopsSession(s: State, step: Step, id: Id) {
    && step.CallStep? && CanStep(s, step.t) && Subject(s, step.t) == id
    && (s.calls[step.t].pc.StopStore? || s.calls[step.t].pc == CleanStop)
  }

  predicate FinishesSession(s: State, step: Step, id: Id) {
    step.WorkerFinish? && step.w in s.heap && s.heap[step.w].session == id && s.heap[step.w].pc == Finishing
  }

  predicate DeletesRow(s: State, step: Step, id: Id) {
    && step.CallStep? && CanStep(s, step.t) && id in s.calls[step.t].ids
    && (s.calls[step.t].pc.DeleteRows? || s.calls[step.t].pc == CleanDelete)
  }

  /** What a step may have done to a row that was there. */
  predicate RowMoves(s: State, step: Step, s': State, id: Id)
    requires id in s.rows
  {
    if id !in s'.rows then DeletesRow(s, step, id)
    else
      var was, row := s.rows[id], s'.rows[id];
      || row == was
      || (row == was.(status := Store.Stopped) && was.status == Store.Running && StopsSession(s, step, id))
      || (row == was.(status := Store.Finished) && was.status == Store.Running && FinishesSession(s, step, id))
      || (NewLife(row, was, s.now) && was.status != Store.Running && step == ReenableRow(id))
      || (SameLife(row, was) && step.WorkerTick? && step.w in s.heap && s.heap[step.w].session == id)
  }

  lemma SameRows(s: State, step: Step, s': State, id: Id)
    requires id in s.rows && s'.rows == s.rows
    ensures RowMoves(s, step, s', id)
  {
  }

  lemma WorkerRows(s: State, step: Step, id: Id)
    requires Enabled(s, step) && WorkerStep(step) && id in s.rows
    ensures RowMoves(s, step, Apply(s, step), id)
  {
    match step
    case WorkerTick(w, sample, saved) => TickRows(s, w, sample, saved, id);
    case WorkerFinish(w, reached) => FinishRows(s, w, reached, id);
    case _ => QuietWorkerRows(s, step);
  }

  lemma QuietWorkerRows(s: State, step: Step)
    requires Enabled(s, step) && WorkerStep(step) && !step.WorkerTick? && !step.WorkerFinish?
    ensures Apply(s, step).rows == s.rows
  {
    match step
    case WorkerTop(w) => TopGoes(s, w);
    case WorkerRest(w) => RestGoes(s, w, s.heap[w].pc.persisted);
    case WorkerEnqueue(w, accepting) => EnqueueRows(s, w, s.heap[w].pc.event, accepting);
    case WorkerRemove(w) => RemoveRows(s, w);
    case WorkerExit(w) => assert Apply(s, step) == GoWorker(s, w, Exited);
  }

  lemma EnqueueRows(s: State, w: Handle, event: Writer.Event, accepting: bool)
    requires w in s.heap
    ensures EnqueueStep(s, w, event, accepting).rows == s.rows
  {
  }

  lemma RemoveRows(s: State, w: Handle)
    requires w in s.heap
    ensures RemoveStep(s, w).rows == s.rows
  {
    var id := s.heap[w].session;
    if id in s.workers && s.workers[id] == w {
      assert RemoveStep(s, w) == GoWorker(s, w, Removed).(workers := s.workers - {id});
    }
  }

  lemma TopGoes(s: State, w: Handle)
    requires w in s.heap
    ensures TopStep(s, w) == GoWorker(s, w, if Halted(s, s.heap[w]) then Returned
                                            else if Due(s.heap[w].prepared, s.now) then Ticking else Finishing)
  {
  }

  lemma RestGoes(s: State, w: Handle, persisted: bool)
    requires w in s.heap
    ensures RestStep(s, w, persisted) == GoWorker(s, w, if Halted(s, s.heap[w]) then Returned
                                                        else if persisted && !Due(s.heap[w].prepared, s.now) then Finishing else Top)
  {
  }

  /** The caps leave room for a tick. */
  predicate Due(p: Prepared, now: int) {
    && (p.maxSamples.Some? ==> p.sequence < p.maxSamples.value)
    && (p.maxDuration.Some? && p.startedAt.Some? ==> now < p.startedAt.value + p.maxDuration.value)
  }

  lemma TickRows(s: State, w: Handle, sample: Sample, saved: bool, id: Id)
    requires w in s.heap && s.heap[w].pc == Ticking && id in s.rows
    ensures RowMoves(s, WorkerTick(w, sample, saved), TickStep(s, w, sample, saved), id)
  {
    var worker := s.heap[w];
    var rows := Store.SaveTick(s.rows, worker.session, NextSnapshot(worker.prepared, sample), sample.ipHits);
    if !saved || rows.None? {
      assert TickStep(s, w, sample, saved) == GoWorker(s, w, Resting(false));
    } else {
      SavedRows(s, w, sample);
    }
  }

  lemma SavedRows(s: State, w: Handle, sample: Sample)
    requires w in s.heap
    requires Store.SaveTick(s.rows, s.heap[w].session, NextSnapshot(s.heap[w].prepared, sample), sample.ipHits).Some?
    ensures var id := s.heap[w].session; var rows := TickStep(s, w, sample, true).rows;
            && rows.Keys == s.rows.Keys && (forall x | x in s.rows && x != id :: rows[x] == s.rows[x])
            && (id in s.rows ==> SameLife(rows[id], s.rows[id]))
  {
    var worker := s.heap[w];
    SavedSameLife(s.rows, worker.session, NextSnapshot(worker.prepared, sample), sample.ipHits);
    var rows := Store.SaveTick(s.rows, worker.session, NextSnapshot(worker.prepared, sample), sample.ipHits);
    assert TickStep(s, w, sample, true).rows == rows.value;
  }

  lemma SavedSameLife(rows: Store.Table, id: Id, snapshot: Store.Snapshot, hits: map<Ip, nat>)
    requires Store.SaveTick(rows, id, snapshot, hits).Some?
    ensures var r := Store.SaveTick(rows, id, snapshot, hits).value;
            && r.Keys == rows.Keys && (forall x | x in rows && x != id :: r[x] == rows[x])
            && (id in rows ==> SameLife(r[id], rows[id]))
  {
  }

  lemma FinishRows(s: State, w: Handle, reached: bool, id: Id)
    requires w in s.heap && s.heap[w].pc == Finishing && id in s.rows
    ensures RowMoves(s, WorkerFinish(w, reached), FinishStep(s, w, reached), id)
  {
    if reached && RowRuns(s, s.heap[w].session) {
      FinishWrites(s, w);
    } else {
      assert FinishStep(s, w, reached).rows == s.rows;
    }
  }

  /** A capped worker that gets to the store sets exactly its running row to finished, and ends. */
  lemma FinishWrites(s: State, w: Handle)
    requires w in s.heap && RowRuns(s, s.heap[w].session)
    ensures var s' := FinishStep(s, w, true); var id := s.heap[w].session;
            && s'.rows == s.rows[id := s.rows[id].(status := Store.Finished)]
            && s'.heap == s.heap[w := s.heap[w].(pc := Returned, finishedRow := true)]
  {
  }

  lemma CallRows(s: State, t: Handle, id: Id)
    requires CanStep(s, t) && id in s.rows
    ensures RowMoves(s, CallStep(t), Advance(s, t), id)
  {
    match s.calls[t].pc
    case StopStore(_) => StopWrites(s, t);
    case CleanStop => CleanUpRows(s, t, id);
    case CleanDelete => CleanUpRows(s, t, id);
    case DeleteRows(count) => assert Advance(s, t).rows == s.rows - {s.calls[t].ids[count]};
    case _ =>
      QuietCallRows(s, t);
      SameRows(s, CallStep(t), Advance(s, t), id);
  }

  lemma QuietCallRows(s: State, t: Handle)
    requires CanStep(s, t) && !WritesRows(s.calls[t].pc)
    ensures Advance(s, t).rows == s.rows
  {
    if OnlyMoves(s.calls[t].pc) {
      MovingMoves(s, t);
    } else if Keeps(s.calls[t].pc) {
      AdvanceMoves(s, t);
    } else {
      match s.calls[t].pc
      case Acquire => AcquiredCalls(s, t);
      case StopDelayed(w) => DelayRows(s, t, w);
      case Unlock(outcome) => UnlockRows(s, t, outcome);
    }
  }

  lemma CleanUpRows(s: State, t: Handle, id: Id)
    requires CanStep(s, t) && CleansUp(s.calls[t].pc) && id in s.rows
    ensures RowMoves(s, CallStep(t), Advance(s, t), id)
  {
    var subject := Subject(s, t);
    if s.calls[t].pc == CleanStop {
      assert Advance(s, t).rows == Store.Stop(s.rows, subject).0;
    } else {
      assert Advance(s, t).rows == s.rows - {subject};
    }
  }

  lemma DelayRows(s: State, t: Handle, w: Handle)
    requires t in s.calls && w in s.heap
    ensures ScheduleStep(s, t, w).rows == s.rows
  {
    if s.heap[w].recovery.None? && !ShuttingDown(s) {
      ScheduledCalls(s, t, w);
    } else {
      DelayOver(s, t, w);
    }
  }

  lemma UnlockRows(s: State, t: Handle, outcome: Outcome)
    requires t in s.calls && s.calls[t].held <= |s.calls[t].ids|
    ensures UnlockStep(s, t, outcome).rows == s.rows
  {
    if 0 < s.calls[t].held {
      Releases(s, t, outcome);
    } else if MayEnd(s, s.calls[t].kind, outcome) {
      Ends(s, t, outcome);
    } else {
      Retries(s, t, outcome);
    }
  }

  /** Every change of a control row has its author: only a stop or a clean-up stops it, only its capped worker
      finishes it, only a re-enable starts a new life, only a deletion or a clean-up removes it, and nothing
      but a tick of a worker of the session moves its counters. */
  lemma RowTransitions(s: State, step: Step, s': State, id: Id)
    requires Goes(s, step, s') && id in s.rows && s.rows.Keys <= s.named
    ensures RowMoves(s, step, s', id)
  {
    if WorkerStep(step) {
      WorkerRows(s, step, id);
    } else if Outside(step) {
      if step.ReenableRow? {
        ReenabledRow(s, step.id, id);
      } else {
        OutsideLeaves(s, step);
      }
    } else if step.CallStep? {
      CallRows(s, step.t, id);
    } else if step.CallFails? {
      FailCalls(s, step.t);
    } else if !step.Crash? {
      BeginningRows(s, step, id);
    }
  }

  lemma BeginningRows(s: State, step: Step, id: Id)
    requires Enabled(s, step) && (step.Create? || step.Begin?) && id in s.rows && s.rows.Keys <= s.named
    ensures id in Apply(s, step).rows && Apply(s, step).rows[id] == s.rows[id]
  {
    match step
    case Begin(_, _) =>
    case Create(created, maxSamples, maxDuration, startedAt, alone) =>
      CreatedRows(s, created, Store.Row(Store.Running, 0, 0, maxSamples, maxDuration, Some(startedAt), 0, 0, map[]), alone);
  }

  lemma CreatedRows(s: State, id: Id, row: Store.Row, alone: bool)
    ensures CreateStep(s, id, row, alone).rows == s.rows[id := row]
  {
  }

  /** A row becomes finished only by a worker of the session that has reached a cap. */
  lemma FinishedMeansCapped(s: State, step: Step, s': State, id: Id)
    requires Inv(s) && Goes(s, step, s') && RowRuns(s, id) && id in s'.rows && s'.rows[id].status == Store.Finished
    ensures step.WorkerFinish? && step.w in s.heap && s.heap[step.w].session == id && !Due(s.heap[step.w].prepared, s.now)
    ensures s'.rows[id] == s.rows[id].(status := Store.Finished)
  {
    RowTransitions(s, step, s', id);
    assert WorkerOk(s, step.w, s.heap[step.w]);
  }

  lemma ReenabledRow(s: State, reenabled: Id, id: Id)
    requires id in s.rows
    ensures RowMoves(s, ReenableRow(reenabled), Apply(s, ReenableRow(reenabled)), id)
  {
  }

  /** A re-enable of a resting row begins a new life, unless the folded counter leaves its column. */
  lemma ReenableStarts(s: State, id: Id)
    requires id in s.rows && s.rows[id].status != Store.Running
    requires -INT32_LIMIT <= s.rows[id].sequenceOffset + s.rows[id].samplesTaken < INT32_LIMIT
    ensures var s' := Apply(s, ReenableRow(id)); id in s'.rows && NewLife(s'.rows[id], s.rows[id], s.now)
  {
  }

  /** A session begins running, with nothing counted, under the caps it was created with, and is measured from
      the time it was created with; created on its own, it has a call that starts it. */
  lemma NewSession(s: State, step: Step, s': State)
    requires Goes(s, step, s') && step.Create? && s.rows.Keys <= s.named
    ensures step.id !in s.rows && s'.rows.Keys == s.rows.Keys + {step.id} && step.id in s'.named && TicksOf(s', step.id) == []
    ensures var row := s'.rows[step.id];
            && row.status == Store.Running && row.samplesTaken == row.sequenceOffset == row.probesOK == row.distinctIPs == 0
            && row.maxSamples == step.maxSamples && row.maxDuration == step.maxDuration
            && row.startedAt == Some(step.startedAt) && row.ips == map[]
    ensures step.alone ==> s.next in s'.calls && s'.calls[s.next] == Call(Creating, [step.id], 0, 0, Acquire)
  {
    match step
    case Create(id, maxSamples, maxDuration, startedAt, alone) =>
      var row := Store.Row(Store.Running, 0, 0, maxSamples, maxDuration, Some(startedAt), 0, 0, map[]);
      CreatedRows(s, id, row, alone);
      CreatedCall(s, id, row, alone);
  }

  lemma CreatedCall(s: State, id: Id, row: Store.Row, alone: bool)
    ensures var r := CreateStep(s, id, row, alone);
            && id in r.named && TicksOf(r, id) == []
            && (alone ==> s.next in r.calls && r.calls[s.next] == Call(Creating, [id], 0, 0, Acquire))
  {
  }

  /** A crash takes the memory of the process and nothing else. */
  lemma CrashKeepsDurable(s: State, s': State)
    requires Goes(s, Crash, s')
    ensures s'.rows == s.rows && s'.stored == s.stored && s'.ticks == s.ticks && s'.deleted == s.deleted && s'.now == s.now
    ensures s'.heap == map[] && s'.calls == map[] && s'.workers == map[] && s'.operations == map[] && s'.core.queue == []
  {
  }

  // ----- Steps of a worker -----

  /** The worker was told to end, or the process ends. */
  predicate Told(s: State, w: Handle)
    requires w in s.heap
  {
    s.heap[w].canceled || s.rootCanceled
  }

  /** The worker's place is all that changes. */
  predicate WorkerGets(s: State, s': State, w: Handle, pc: WorkerPc)
    requires w in s.heap
  {
    s' == s.(heap := s.heap[w := s.heap[w].(pc := pc)])
  }

  /** At the top of its loop a worker ends if it was told to, goes on to finish its row if a cap is reached,
      and otherwise, and only then, starts a tick. */
  lemma TopDecides(s: State, w: Handle, s': State)
    requires Goes(s, WorkerTop(w), s')
    ensures Told(s, w) ==> WorkerGets(s, s', w, Returned)
    ensures !Told(s, w) && Due(s.heap[w].prepared, s.now) ==> WorkerGets(s, s', w, Ticking)
    ensures !Told(s, w) && !Due(s.heap[w].prepared, s.now) ==> WorkerGets(s, s', w, Finishing)
  {
    TopGoes(s, w);
  }

  /** Between ticks as well; only a saved tick counts towards the caps. */
  lemma RestDecides(s: State, w: Handle, s': State)
    requires Goes(s, WorkerRest(w), s')
    ensures Told(s, w) ==> WorkerGets(s, s', w, Returned)
    ensures !Told(s, w) && s.heap[w].pc.persisted && !Due(s.heap[w].prepared, s.now) ==> WorkerGets(s, s', w, Finishing)
    ensures !Told(s, w) && !(s.heap[w].pc.persisted && !Due(s.heap[w].prepared, s.now)) ==> WorkerGets(s, s', w, Top)
  {
    RestGoes(s, w, s.heap[w].pc.persisted);
  }

  /** The event tells of the tick: its number, its count of new addresses and exactly the slots of the sample. */
  predicate TellsOf(e: Writer.Event, id: Id, tick: Tick, sample: Sample) {
    && e.session == id && e.sequence == tick.sequence && e.newIPs == tick.newIPs == sample.newIPs && tick.hits == sample.ipHits
    && e.probesAttempted == sample.probesAttempted && e.probeIPs == sample.probeIPs
    && e.probeRTTs == sample.probeRTTs && e.probeOK == sample.probeOK
  }

  /** Worker w has committed one tick more and is about to enqueue its event. */
  predicate Emits(s: State, s': State, w: Handle, id: Id, sample: Sample) {
    && w in s'.heap && s'.heap[w].pc.Enqueueing? && TicksOf(s', id) != []
    && TicksOf(s', id)[..|TicksOf(s', id)| - 1] == TicksOf(s, id)
    && TellsOf(s'.heap[w].pc.event, id, TicksOf(s', id)[|TicksOf(s', id)| - 1], sample)
    && Writer.ValidEvent(s'.heap[w].pc.event)
  }

  lemma CommittedEmits(s: State, w: Handle, sample: Sample)
    requires w in s.heap && s.heap[w].session in s.rows && s.heap[w].prepared.session == s.heap[w].session
    requires Tallied(sample, s.heap[w].prepared.seen)
    ensures Emits(s, TickStep(s, w, sample, true), w, s.heap[w].session, sample)
  {
    CommittedState(s, w, sample);
    EventTells(s, TickStep(s, w, sample, true), w, sample);
  }

  predicate Commits(s: State, s': State, w: Handle, sample: Sample)
    requires w in s.heap
  {
    var worker, id := s.heap[w], s.heap[w].session;
    && s'.heap == s.heap[w := worker.(prepared := AfterTick(worker.prepared, sample), pc := Enqueueing(TickEvent(worker.prepared, sample)))]
    && s'.ticks == s.ticks[id := TicksOf(s, id) + [Committed(worker.prepared, sample)]]
  }

  lemma CommittedState(s: State, w: Handle, sample: Sample)
    requires w in s.heap && s.heap[w].session in s.rows
    ensures Commits(s, TickStep(s, w, sample, true), w, sample)
  {
  }

  lemma EventTells(s: State, s': State, w: Handle, sample: Sample)
    requires w in s.heap && s.heap[w].prepared.session == s.heap[w].session && Tallied(sample, s.heap[w].prepared.seen)
    requires Commits(s, s', w, sample)
    ensures Emits(s, s', w, s.heap[w].session, sample)
  {
  }

  /** A saved tick is followed by the event that tells of it, and the event is fit for the writer. */
  lemma TickEmits(s: State, w: Handle, sample: Sample, s': State)
    requires Inv(s) && Goes(s, WorkerTick(w, sample, true), s')
    ensures Emits(s, s', w, s.heap[w].session, sample)
  {
    assert WorkerOk(s, w, s.heap[w]);
    CommittedEmits(s, w, sample);
  }

  /** The tick's row: one sample more, its successful probes, and for every address its hits. */
  predicate CountsTick(row: Store.Row, was: Store.Row, sample: Sample) {
    && row.samplesTaken == was.samplesTaken + 1 && row.probesOK == was.probesOK + sample.probesOK
    && row.ips.Keys == was.ips.Keys + sample.ipHits.Keys && row.distinctIPs == ToInt32(|row.ips|)
    && forall ip | ip in row.ips ::
         row.ips[ip] == (if ip in was.ips then was.ips[ip] else 0) + (if ip in sample.ipHits then sample.ipHits[ip] else 0)
  }

  /** A saved tick counts itself, its probes and its hits in the row it belongs to, and in no other. */
  lemma TickCounts(s: State, w: Handle, sample: Sample, s': State)
    requires Inv(s) && Goes(s, WorkerTick(w, sample, true), s') && |TicksOf(s, s.heap[w].session)| + 1 < INT32_LIMIT
    ensures var id := s.heap[w].session;
            && id in s.rows && s'.rows.Keys == s.rows.Keys && CountsTick(s'.rows[id], s.rows[id], sample)
            && forall x | x in s.rows && x != id :: s'.rows[x] == s.rows[x]
  {
    var worker := s.heap[w];
    assert WorkerOk(s, w, worker) && RowAgrees(s.rows[worker.session], TicksOf(s, worker.session));
    SavedRows(s, w, sample);
    CommittedRow(s, w, sample);
    SnapshotCounts(worker.prepared, s.rows[worker.session], TicksOf(s, worker.session), sample);
  }

  lemma CommittedRow(s: State, w: Handle, sample: Sample)
    requires w in s.heap && s.heap[w].session in s.rows
    ensures var id := s.heap[w].session;
            id in TickStep(s, w, sample, true).rows
            && TickStep(s, w, sample, true).rows[id] == SavedRow(s.heap[w].prepared, s.rows[id], sample)
  {
  }

  lemma SnapshotCounts(p: Prepared, row: Store.Row, ticks: seq<Tick>, sample: Sample)
    requires Synced(p, row, ticks) && RowAgrees(row, ticks) && |ticks| + 1 < INT32_LIMIT
    ensures CountsTick(SavedRow(p, row, sample), row, sample)
  {
    UpsertHitsKeys(row.ips, sample.ipHits);
    assert |p.seen + sample.ipHits.Keys| == |SavedRow(p, row, sample).ips.Keys|;
  }

  /** A tick that is not saved, or whose addresses the missing row rejects, leaves everything but the
      worker's place as it was. */
  lemma UnsavedTick(s: State, w: Handle, sample: Sample, saved: bool)
    requires Enabled(s, WorkerTick(w, sample, saved))
    requires !saved || (s.heap[w].session !in s.rows && sample.ipHits != map[])
    ensures Apply(s, WorkerTick(w, sample, saved)) == s.(heap := s.heap[w := s.heap[w].(pc := Resting(false))])
  {
  }

  /** The event gets into the channel if the writer accepts, the event is valid and there is room. */
  predicate Taken(s: State, e: Writer.Event, accepting: bool) {
    accepting && Writer.ValidEvent(e) && |s.core.queue| < s.capacity
  }

  /** The event of a tick is the channel's newest command, if it is taken, and otherwise it is dropped; either
      way the worker goes on. */
  lemma EnqueueOffers(s: State, w: Handle, accepting: bool, s': State)
    requires Goes(s, WorkerEnqueue(w, accepting), s')
    ensures Taken(s, s.heap[w].pc.event, accepting) ==>
              var command := Writer.EventCommand(s.heap[w].pc.event);
              s' == s.(heap := s.heap[w := s.heap[w].(pc := Resting(true))],
                       core := s.core.(queue := s.core.queue + [command], accepted := s.core.accepted + [command]))
    ensures !Taken(s, s.heap[w].pc.event, accepting) ==> WorkerGets(s, s', w, Resting(true))
  {
    if Taken(s, s.heap[w].pc.event, accepting) {
      EventTaken(s, w, s.heap[w].pc.event);
    } else {
      EventDropped(s, w, s.heap[w].pc.event, accepting);
    }
  }

  lemma EventTaken(s: State, w: Handle, e: Writer.Event)
    requires w in s.heap && Taken(s, e, true)
    ensures var command := Writer.EventCommand(e);
            EnqueueStep(s, w, e, true)
            == s.(heap := s.heap[w := s.heap[w].(pc := Resting(true))],
                  core := s.core.(queue := s.core.queue + [command], accepted := s.core.accepted + [command]))
  {
  }

  lemma EventDropped(s: State, w: Handle, e: Writer.Event, accepting: bool)
    requires w in s.heap && !Taken(s, e, accepting)
    ensures WorkerGets(s, EnqueueStep(s, w, e, accepting), w, Resting(true))
  {
  }
}
