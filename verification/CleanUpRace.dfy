/** What a careless clean-up does. Wherever one stops or deletes the row of a session with a live worker, the
    run can go on so that a deletion of the session does not last, and so that the lifetime counter runs
    ahead of the ticks. Two runs made of ordinary requests show that this can come about. */
module CleanUpRace {
  import opened Common
  import opened Samples
  import opened SamplingWorker
  import opened Supervisor
  import opened SupervisorInvariant
  import opened SupervisorSafety
  import opened Continuations
  import Store = SessionStore
  import Writer = SampleWriter

  // ----- A live worker -----

  /** A goroutine of the session that nobody told to end, that is not capped, and that is in its loop. */
  predicate Live(s: State, h: Handle, id: Id) {
    h in s.heap && var w := s.heap[h];
    && w.session == id && w.prepared.session == id && !Halted(s, w) && !CapReached(w.prepared, s.now)
    && (w.pc.Top? || w.pc.Ticking? || w.pc.Enqueueing? || w.pc.Resting?)
  }

  predicate Ready(s: State, h: Handle, id: Id) {
    Live(s, h, id) && s.heap[h].pc == Ticking
  }

  lemma GoTwice(s: State, h: Handle, first: WorkerPc, second: WorkerPc)
    requires h in s.heap
    ensures GoWorker(GoWorker(s, h, first), h, second) == GoWorker(s, h, second)
  {
    assert s.heap[h := s.heap[h].(pc := first)][h := s.heap[h].(pc := second)] == s.heap[h := s.heap[h].(pc := second)];
  }

  /** A live worker gets to its next tick. */
  lemma GetReady(s0: State, s: State, h: Handle, id: Id) returns (s': State)
    requires Reaches(s0, s) && Live(s, h, id)
    ensures Reaches(s0, s') && Ready(s', h, id) && s' == GoWorker(s, h, Ticking)
  {
    s' := GoWorker(s, h, Ticking);
    match s.heap[h].pc
    case Enqueueing(_) =>
      Then(s0, s, WorkerEnqueue(h, false));
      FromRest(s0, GoWorker(s, h, Resting(true)), h, id);
      GoTwice(s, h, Resting(true), Ticking);
    case Resting(_) => FromRest(s0, s, h, id);
    case Top => FromTop(s0, s, h, id);
    case Ticking => assert s'.heap == s.heap;
  }

  lemma FromTop(s0: State, s: State, h: Handle, id: Id)
    requires Reaches(s0, s) && Live(s, h, id) && s.heap[h].pc == Top
    ensures Reaches(s0, GoWorker(s, h, Ticking))
  {
    Then(s0, s, WorkerTop(h));
  }

  lemma FromRest(s0: State, s: State, h: Handle, id: Id)
    requires Reaches(s0, s) && Live(s, h, id) && s.heap[h].pc.Resting?
    ensures Reaches(s0, GoWorker(s, h, Ticking))
  {
    Then(s0, s, WorkerRest(h));
    FromTop(s0, GoWorker(s, h, Top), h, id);
    GoTwice(s, h, Top, Ticking);
  }

  /** A tick whose only probe failed: it hits no address. */
  const FAILED := Sample(1, 0, None, 0, false, 0, 0, 0, 0, "", [None], [0], [false], map[], "dial failed")

  lemma FailedTallied(seen: set<Ip>)
    ensures Tallied(FAILED, seen)
  {
  }

  // ----- A deletion that does not last -----

  /** The worker's tick hits no address, so nothing keeps it from being saved although the row is missing,
      and its event is on the way to ClickHouse. */
  lemma Resurrected(s0: State, s: State, h: Handle, id: Id) returns (s': State)
    requires Reaches(s0, s) && Ready(s, h, id) && id !in s.rows && s.core.queue == [] && 0 < s.capacity
    ensures Reaches(s0, s') && s'.deleted == s.deleted && h in s'.heap && s'.heap[h].session == id
    ensures s'.heap[h].pc == Resting(true) && |s'.core.queue| == 1 && EventOf(s'.core.queue[0], [id])
  {
    FailedTallied(s.heap[h].prepared.seen);
    Then(s0, s, WorkerTick(h, FAILED, true));
    var s1 := TickStep(s, h, FAILED, true);
    Then(s0, s1, WorkerEnqueue(h, true));
    s' := EnqueueStep(s1, h, s1.heap[h].pc.event, true);
  }

  /** The deletion of the session returned nil, but a sample of it is on the way to ClickHouse and a worker
      of it goes on. */
  ghost predicate Undead(s: State, id: Id) {
    && id in s.deleted && !Gone(s, id)
    && (exists i | 0 <= i < |s.core.queue| :: EventOf(s.core.queue[i], [id]))
    && (exists h | h in s.heap :: s.heap[h].session == id && Attached(s.heap[h]) && !Idle(s.heap[h], s.now))
  }

  lemma DeletionFails(s0: State, s: State, h: Handle, id: Id) returns (s': State)
    requires Reaches(s0, s) && Live(s, h, id) && Deletable(s, id)
    ensures Reaches(s0, s') && Undead(s', id)
  {
    var s1 := Deleted(s0, s, id);
    var s2 := GetReady(s0, s1, h, id);
    s' := Resurrected(s0, s2, h, id);
    assert EventOf(s'.core.queue[0], [id]);
    assert s'.heap[h].session == id && Attached(s'.heap[h]) && !Idle(s'.heap[h], s'.now);
  }

  /** Every clean-up that acts while the session has a live worker may make a deletion fail: whenever the
      session's lock is free and the supervisor is not closing, the run can go on to a state in which the
      deletion returned nil and the session is not gone. */
  lemma HarmResurrects(s: State, t: Handle, id: Id, h: Handle) returns (s': State)
    requires Inv(s) && CanStep(s, t) && CleansUp(s.calls[t].pc) && id == s.calls[t].ids[s.calls[t].cur]
    requires Live(s, h, id) && !s.closing && id !in s.operations && 0 < s.capacity
    ensures Reaches(Advance(s, t), s') && Undead(s', id)
  {
    assert CallOk(s, t, s.calls[t]) && WorkerOk(s, h, s.heap[h]);
    var s1 := Advance(s, t);
    Stay(s1);
    if s.calls[t].pc == CleanStop {
      StoppedUnder(s, t, id);
    } else {
      RemovedUnder(s, t, id);
    }
    s' := DeletionFails(s1, s1, h, id);
  }

  lemma StoppedUnder(s: State, t: Handle, id: Id)
    requires CanStep(s, t) && s.calls[t].pc == CleanStop && id == s.calls[t].ids[s.calls[t].cur]
    requires id in s.rows && s.rows[id].status == Store.Running
    ensures Advance(s, t) == Goto(s, t, Unlock(ErrCreate)).(rows := s.rows[id := s.rows[id].(status := Store.Stopped)])
  {
  }

  lemma RemovedUnder(s: State, t: Handle, id: Id)
    requires CanStep(s, t) && s.calls[t].pc == CleanDelete && id == s.calls[t].ids[s.calls[t].cur]
    ensures Advance(s, t) == Goto(s, t, Unlock(ErrCreate)).(rows := s.rows - {id}, orphans := Advance(s, t).orphans)
  {
  }

  // ----- A counter that runs ahead -----

  /** The worker's count of this life's samples is the row's, and there is room for two more. */
  predicate InStep(s: State, h: Handle, id: Id) {
    && Ready(s, h, id) && id in s.rows
    && s.heap[h].prepared.sequence == s.rows[id].samplesTaken && 0 <= s.rows[id].sequenceOffset
    && s.rows[id].sequenceOffset + s.rows[id].samplesTaken == |TicksOf(s, id)| && |TicksOf(s, id)| + 2 < INT32_LIMIT
  }

  predicate RoomForAnother(p: Prepared) {
    p.maxSamples.Some? ==> p.sequence + 1 < p.maxSamples.value
  }

  /** Worker h has saved the failed tick, one more than it had counted, and stands at pc. */
  predicate AfterSave(s: State, s': State, h: Handle, id: Id, pc: WorkerPc)
    requires h in s.heap && id in s.rows
  {
    && s' == s.(heap := s'.heap, rows := s'.rows, ticks := s'.ticks)
    && s'.heap == s.heap[h := s.heap[h].(prepared := AfterTick(s.heap[h].prepared, FAILED), pc := pc)]
    && id in s'.rows && s'.rows[id].samplesTaken == s.heap[h].prepared.sequence + 1
    && s'.rows[id].sequenceOffset == s.rows[id].sequenceOffset && s'.rows[id].status == s.rows[id].status
    && |TicksOf(s', id)| == |TicksOf(s, id)| + 1
  }

  /** A tick that is saved to the row, its event dropped. */
  lemma Saved(s0: State, s: State, h: Handle, id: Id) returns (s': State)
    requires Reaches(s0, s) && Ready(s, h, id) && id in s.rows && s.heap[h].prepared.sequence + 1 < INT32_LIMIT
    ensures Reaches(s0, s') && AfterSave(s, s', h, id, Resting(true))
  {
    FailedTallied(s.heap[h].prepared.seen);
    var s1 := Ticked(s0, s, h, FAILED);
    SavedIs(s, h, id);
    s' := EventDropped(s0, s1, h);
    DropKeepsSave(s, s1, s', h, id);
  }

  lemma DropKeepsSave(s: State, s1: State, s': State, h: Handle, id: Id)
    requires h in s.heap && id in s.rows && h in s1.heap && AfterSave(s, s1, h, id, s1.heap[h].pc)
    requires s' == s1.(heap := s1.heap[h := s1.heap[h].(pc := Resting(true))])
    ensures AfterSave(s, s', h, id, Resting(true))
  {
  }

  lemma Ticked(s0: State, s: State, h: Handle, sample: Sample) returns (s': State)
    requires Reaches(s0, s) && h in s.heap && s.heap[h].pc == Ticking && Tallied(sample, s.heap[h].prepared.seen)
    requires Enabled(s, WorkerTick(h, sample, true))
    ensures Reaches(s0, s') && s' == TickStep(s, h, sample, true)
  {
    s' := TickStep(s, h, sample, true);
    Then(s0, s, WorkerTick(h, sample, true));
  }

  /** The writer does not accept the worker's event. */
  lemma EventDropped(s0: State, s: State, h: Handle) returns (s': State)
    requires Reaches(s0, s) && h in s.heap && s.heap[h].pc.Enqueueing?
    ensures Reaches(s0, s') && s' == s.(heap := s.heap[h := s.heap[h].(pc := Resting(true))])
  {
    Then(s0, s, WorkerEnqueue(h, false));
    s' := GoWorker(s, h, Resting(true));
  }

  lemma SavedIs(s: State, h: Handle, id: Id)
    requires Ready(s, h, id) && id in s.rows && s.heap[h].prepared.sequence + 1 < INT32_LIMIT
    ensures AfterSave(s, TickStep(s, h, FAILED, true), h, id, Enqueueing(TickEvent(s.heap[h].prepared, FAILED)))
  {
  }

  lemma RefoldedRow(s0: State, s: State, id: Id) returns (s': State)
    requires Reaches(s0, s) && id in s.rows && s.rows[id].status == Store.Stopped
    requires 0 <= s.rows[id].sequenceOffset + s.rows[id].samplesTaken < INT32_LIMIT
    ensures Reaches(s0, s') && s' == s.(rows := s'.rows) && id in s'.rows
    ensures s'.rows[id].sequenceOffset == s.rows[id].sequenceOffset + s.rows[id].samplesTaken
  {
    Then(s0, s, ReenableRow(id));
    s' := Apply(s, ReenableRow(id));
  }

  /** The worker ticks on a stopped row; re-enabled, the session folds that tick into its offset, but the
      worker still counts it. */
  lemma CountsTwice(s0: State, s: State, h: Handle, id: Id) returns (s': State)
    requires Reaches(s0, s) && InStep(s, h, id) && s.rows[id].status == Store.Stopped && RoomForAnother(s.heap[h].prepared)
    ensures Reaches(s0, s') && id in s'.rows && |TicksOf(s', id)| == |TicksOf(s, id)| + 2
    ensures s'.rows[id].sequenceOffset + s'.rows[id].samplesTaken == |TicksOf(s', id)| + s.rows[id].samplesTaken + 1
  {
    var s1 := Saved(s0, s, h, id);
    var s2 := GetReady(s0, s1, h, id);
    var s3 := RefoldedRow(s0, s2, id);
    s' := Saved(s0, s3, h, id);
  }

  /** Every clean-up that stops the row of a session with a live worker may make the lifetime counter
      disagree with the ticks, as long as cap and column have room for two more samples. */
  lemma HarmMiscounts(s: State, t: Handle, id: Id, h: Handle) returns (s': State)
    requires Inv(s) && CanStep(s, t) && s.calls[t].pc == CleanStop && id == s.calls[t].ids[s.calls[t].cur]
    requires Live(s, h, id) && RoomForAnother(s.heap[h].prepared) && |TicksOf(s, id)| + 2 < INT32_LIMIT
    ensures Reaches(Advance(s, t), s') && id in s'.rows
    ensures s'.rows[id].sequenceOffset + s'.rows[id].samplesTaken > |TicksOf(s', id)|
  {
    assert WorkerOk(s, h, s.heap[h]) && RowAgrees(s.rows[id], TicksOf(s, id));
    var s1 := Advance(s, t);
    Stay(s1);
    StoppedUnder(s, t, id);
    var s2 := GetReady(s1, s1, h, id);
    s' := CountsTwice(s1, s2, h, id);
  }

  // ----- How it comes about -----

  const ID: Id := 1

  /** The request that creates the session is call 0. */
  const CREATOR: Handle := 0

  function Row(status: Store.Status): Store.Row {
    Store.Row(status, 0, 0, None, None, Some(0), 0, 0, map[])
  }

  function Before(): State {
    State(map[], [], map[], map[], {}, {}, {}, Writer.EMPTY, map[], map[], map[], map[], false, false, 0, 0, 1, 2)
  }

  /** Nothing is shutting down, nobody holds the session's lock, it has not ticked yet, and the creating
      request is at pc. */
  predicate Settled(s: State, row: Store.Row, pc: Pc) {
    && !s.closing && !s.rootCanceled && 0 < s.capacity && s.now == 0 && ID !in s.operations
    && ID in s.rows && s.rows[ID] == row && ID in s.named && TicksOf(s, ID) == []
    && At(s, CREATOR, Creating, ID, 0, pc) && CREATOR < s.next
  }

  lemma Created() returns (s: State)
    ensures Reaches(Before(), s) && Settled(s, Row(Store.Running), Acquire) && ID !in s.workers
  {
    var step := Step.Create(ID, None, None, 0, true);
    Stay(Before());
    Then(Before(), Before(), step);
    s := Apply(Before(), step);
  }

  /** Another request stops the session before it has a worker. */
  lemma Stopped(s0: State, s: State) returns (s': State)
    requires Reaches(s0, s) && Settled(s, Row(Store.Running), Acquire) && ID !in s.workers
    ensures Reaches(s0, s') && Settled(s', Row(Store.Stopped), Acquire) && ID !in s'.workers
  {
    var s1 := StopBegun(s0, s);
    var s2 := RowStopped(s0, s1, s.next);
    s' := Leave(s0, s2, s.next, Stopping, ID, Ok);
  }

  lemma StopBegun(s0: State, s: State) returns (s': State)
    requires Reaches(s0, s) && Settled(s, Row(Store.Running), Acquire) && ID !in s.workers
    ensures Reaches(s0, s')
    ensures s' == s.(calls := s.calls[s.next := Call(Stopping, [ID], 1, 0, StopStore(None))],
                     operations := s.operations[ID := s.next], next := s.next + 1)
  {
    var s1 := Enter(s0, s, Stopping, ID);
    var s2 := Move(s0, s1, s.next, StopRead);
    s' := Move(s0, s2, s.next, StopStore(None));
    assert s'.calls == s.calls[s.next := Call(Stopping, [ID], 1, 0, StopStore(None))];
  }

  lemma RowStopped(s0: State, s: State, t: Handle) returns (s': State)
    requires Reaches(s0, s) && At(s, t, Stopping, ID, 1, StopStore(None)) && ID in s.rows && s.rows[ID] == Row(Store.Running)
    ensures Reaches(s0, s')
    ensures s' == s.(rows := s.rows[ID := Row(Store.Stopped)], calls := s.calls[t := Call(Stopping, [ID], 1, 0, Unlock(Ok))])
  {
    s' := s.(rows := s.rows[ID := Row(Store.Stopped)], calls := s.calls[t := Call(Stopping, [ID], 1, 0, Unlock(Ok))]);
    Advances(s0, s, t, s');
  }

  /** The creating request finds the row not running and is about to clean up. */
  lemma Refused(s0: State, s: State) returns (s': State)
    requires Reaches(s0, s) && Settled(s, Row(Store.Stopped), Acquire) && ID !in s.workers
    ensures Reaches(s0, s') && Settled(s', Row(Store.Stopped), CleanStop) && ID !in s'.workers
  {
    var s1 := TakeLock(s0, s, CREATOR, Creating, ID);
    var s2 := Move(s0, s1, CREATOR, ReadRow(false));
    var s3 := Move(s0, s2, CREATOR, Unlock(ErrNotRunning));
    var s4 := Release(s0, s3, CREATOR, Creating, ID, ErrNotRunning);
    s' := Move(s0, s4, CREATOR, CleanStop);
  }

  /** Worker h runs, freshly prepared from a row without caps. */
  predicate Fresh(s: State, h: Handle) {
    Live(s, h, ID) && s.heap[h].prepared.sequence == 0 && s.heap[h].prepared.maxSamples == None
  }

  /** Somebody re-enables the session, which gets a worker. */
  lemma Reenabled(s0: State, s: State) returns (s': State, h: Handle)
    requires Reaches(s0, s) && Settled(s, Row(Store.Stopped), CleanStop) && ID !in s.workers
    ensures Reaches(s0, s') && Settled(s', Row(Store.Running), CleanStop) && Fresh(s', h)
  {
    var s1 := s.(rows := s.rows[ID := Row(Store.Running)]);
    Then(s0, s, ReenableRow(ID));
    var s2 := Enter(s0, s1, Starting, ID);
    s', h := Started(s0, s2, s.next);
  }

  lemma Started(s0: State, s: State, t: Handle) returns (s': State, h: Handle)
    requires Reaches(s0, s) && At(s, t, Starting, ID, 1, CheckMap(false)) && ID in s.operations && s.operations[ID] == t
    requires !s.closing && !s.rootCanceled && ID !in s.workers && ID in s.rows && s.rows[ID] == Row(Store.Running)
    ensures Reaches(s0, s') && h == s.next + 1
    ensures s' == s.(calls := s.calls - {t}, operations := s.operations - {ID}, workers := s.workers[ID := h], next := h + 1,
                     preparedFor := s.preparedFor[s.next := ID],
                     heap := s.heap[h := Worker(ID, Prepare(s.next, ID, Row(Store.Running), {}), false, Top, false, None)])
  {
    var s1 := Move(s0, s, t, ReadRow(false));
    var s2 := Move(s0, s1, t, Preparing(Row(Store.Running), false));
    var s3 := PreparingStep(s2, t, ID, Row(Store.Running), false);
    Advances(s0, s2, t, s3);
    var none: map<Ip, nat> := map[];
    assert none.Keys == {};
    s', h := Published(s0, s3, t, Prepare(s.next, ID, Row(Store.Running), {}));
    assert s'.calls == s.calls - {t};
  }

  lemma Published(s0: State, s: State, t: Handle, p: Prepared) returns (s': State, h: Handle)
    requires Reaches(s0, s) && At(s, t, Starting, ID, 1, Publishing(p, false)) && ID in s.operations && s.operations[ID] == t
    requires !s.closing && !s.rootCanceled && ID !in s.workers
    ensures Reaches(s0, s') && h == s.next
    ensures s' == s.(calls := s.calls - {t}, operations := s.operations - {ID}, workers := s.workers[ID := h], next := h + 1,
                     heap := s.heap[h := Worker(ID, p, false, Top, false, None)])
  {
    h := s.next;
    var s1 := PublishStep(s, t, ID, p, false);
    Advances(s0, s, t, s1);
    s' := Leave(s0, s1, t, Starting, ID, Ok);
    assert s'.calls == s.calls - {t};
  }

  /** While the worker runs, the creating request stops the row. */
  lemma Pulled(s0: State, s: State, h: Handle) returns (s': State)
    requires Reaches(s0, s) && Settled(s, Row(Store.Running), CleanStop) && Fresh(s, h)
    ensures Reaches(s0, s') && Settled(s', Row(Store.Stopped), Unlock(ErrCreate)) && Fresh(s', h)
  {
    s' := CleanStopStep(s, CREATOR, ID);
    Advances(s0, s, CREATOR, s');
  }

  /** A session is created, stopped, re-enabled while its creator finds it stopped, and then has its row
      stopped under its worker. */
  lemma Careless() returns (s: State, h: Handle)
    ensures Reaches(Before(), s) && Settled(s, Row(Store.Stopped), Unlock(ErrCreate)) && Fresh(s, h)
  {
    s := Created();
    s := Stopped(Before(), s);
    s := Refused(Before(), s);
    s, h := Reenabled(Before(), s);
    s := Pulled(Before(), s, h);
  }

  /** A careless clean-up makes a deletion fail: after it returned nil, the session has a sample on its
      way to ClickHouse and a worker that goes on ticking. */
  lemma CarelessCleanUpResurrects() returns (states: seq<State>, steps: seq<Step>)
    ensures IsRun(states, steps) && Undead(states[|states| - 1], ID)
  {
    var s, h := Careless();
    var s' := DeletionFails(Before(), s, h, ID);
    states, steps := RunTo(Before(), s');
  }

  /** A careless clean-up makes the lifetime counter disagree with the ticks: it says three, after two. */
  lemma CarelessCleanUpMiscounts() returns (states: seq<State>, steps: seq<Step>)
    ensures IsRun(states, steps)
    ensures var s := states[|states| - 1];
            && ID in s.rows && |TicksOf(s, ID)| == 2
            && s.rows[ID].sequenceOffset + s.rows[ID].samplesTaken == 3
  {
    var s, h := Careless();
    var s1 := GetReady(Before(), s, h, ID);
    var s' := CountsTwice(Before(), s1, h, ID);
    states, steps := RunTo(Before(), s');
  }
}
