/** Publishing, stopping and deleting: the actions of a lock holder on its own sessions. */
module SupervisorDeletes {
  import opened Common
  import opened SamplingWorker
  import opened Supervisor
  import opened SupervisorInvariant
  import opened SupervisorFrames
  import opened SupervisorCalls
  import Store = SessionStore
  import Writer = SampleWriter
  import Workers = SupervisorWorkers

  /** A lock holder's action that leaves channel, stored samples, locks and program counters alone. */
  predicate HolderFrame(s: State, s': State, t: Handle)
    requires t in s.calls
  {
    && t in s'.calls && s'.calls.Keys == s.calls.Keys && s'.core == s.core && s'.stored == s.stored
    && s'.operations == s.operations && s'.preparedFor == s.preparedFor
    && s'.calls[t].ids == s.calls[t].ids && s'.calls[t].held == s.calls[t].held && s.calls[t].pc != AwaitExit
    && s'.rows.Keys == s.rows.Keys && s'.named == s.named && s'.deleted == s.deleted && s'.orphans == s.orphans
    && (forall h | h in s.heap :: h in s'.heap && s'.heap[h].pc == s.heap[h].pc && s'.heap[h].recovery == s.heap[h].recovery)
    && (forall h | h in s'.heap && h !in s.heap :: s'.heap[h].recovery.None? && h < s'.next)
  }

  /** The other calls, when channel, stored samples and the set of rows stay. */
  lemma OthersKeptPlain(s: State, s': State, t: Handle)
    requires MapOk(s) && MapOk(s') && WorkersOk(s) && CallsOk(s) && t in s.calls && Own(s, s', t)
    requires s'.core == s.core && s'.stored == s.stored && s'.rows.Keys == s.rows.Keys
    ensures forall u | u in s.calls && u != t :: u in s'.calls && CallOk(s', u, s'.calls[u])
  {
    OthersKept(s, s', t);
  }

  lemma HolderKeeps(s: State, s': State, t: Handle)
    requires Inv(s) && t in s.calls && Own(s, s', t) && HolderFrame(s, s', t) && CallOk(s', t, s'.calls[t])
    requires MapOk(s') && WorkersOk(s') && RowsOk(s')
    ensures Inv(s')
  {
    OthersKeptPlain(s, s', t);
    HolderRecoveries(s, s', t);
    HolderTables(s, s', t);
  }

  lemma HolderRecoveries(s: State, s': State, t: Handle)
    requires RecoveriesWait(s) && t in s.calls && Own(s, s', t) && HolderFrame(s, s', t)
    ensures RecoveriesWait(s')
  {
    forall h | h in s'.heap ensures RecoveryWaits(s', h) {
      assert h in s.heap ==> RecoveryWaits(s, h);
    }
  }

  lemma HolderTables(s: State, s': State, t: Handle)
    requires HandlesOk(s) && LocksOk(s) && SamplesHaveRows(s) && t in s.calls && Own(s, s', t) && HolderFrame(s, s', t)
    ensures HandlesOk(s') && LocksOk(s') && SamplesHaveRows(s')
  {
  }

  // ----- Publishing -----

  predicate Publishes(s: State, s': State, t: Handle, id: Id, p: Prepared, pc: Pc)
    requires t in s.calls
  {
    s' == s.(calls := s.calls[t := s.calls[t].(pc := pc)],
             heap := s.heap[s.next := Worker(id, p, false, Top, false, None)],
             workers := s.workers[id := s.next], next := s.next + 1)
  }

  lemma PublishedWorkersOk(s: State, s': State, t: Handle, id: Id, p: Prepared, pc: Pc)
    requires HandlesOk(s) && MapOk(s) && WorkersOk(s) && t in s.calls && Publishes(s, s', t, id, p, pc)
    requires id !in s.workers && PreparedOk(s, p, id) && Sound(s, p)
    ensures MapOk(s') && WorkersOk(s')
  {
    assert s.next !in s.heap;
    forall h | h in s'.heap ensures WorkerOk(s', h, s'.heap[h]) {
      if h != s.next {
        assert WorkerOk(s, h, s.heap[h]);
        WorkerKept(s, s', h, s.heap[h]);
      }
    }
  }

  lemma PublishedOwn(s: State, s': State, t: Handle, id: Id, p: Prepared, pc: Pc)
    requires HandlesOk(s) && t in s.calls && CallShape(s, t, s.calls[t]) && Publishes(s, s', t, id, p, pc)
    requires s.calls[t].held == |s.calls[t].ids| && id in s.calls[t].ids && s.calls[t].pc.Publishing?
    ensures Own(s, s', t)
  {
  }

  lemma PublishedFrame(s: State, s': State, t: Handle, id: Id, p: Prepared, pc: Pc)
    requires t in s.calls && s.calls[t].pc.Publishing? && s.next !in s.heap && Publishes(s, s', t, id, p, pc)
    ensures HolderFrame(s, s', t)
  {
  }

  lemma PublishedCallOk(s: State, s': State, t: Handle, id: Id, p: Prepared, restoring: bool)
    requires HandlesOk(s) && t in s.calls && CallOk(s, t, s.calls[t]) && s.calls[t].pc == Publishing(p, restoring)
    requires id == s.calls[t].ids[s.calls[t].cur]
    requires Publishes(s, s', t, id, p, Unlock(if restoring then ErrStop(Republished(s.next)) else Ok))
    ensures CallOk(s', t, s'.calls[t])
  {
  }

  lemma RefusedKeeps(s: State, t: Handle, p: Prepared, restoring: bool, outcome: Outcome)
    requires Inv(s) && t in s.calls && s.calls[t].pc == Publishing(p, restoring)
    requires outcome == ErrClosed || outcome == ErrOther
    ensures Inv(Goto(s, t, StartFailed(restoring, outcome)))
  {
    CallClaims(s, t);
    GiveUpKeeps(s, t, if restoring then ErrRestore else outcome);
  }

  lemma PublishKeeps(s: State, t: Handle, id: Id, p: Prepared, restoring: bool)
    requires Inv(s) && t in s.calls && s.calls[t].pc == Publishing(p, restoring)
    requires s.calls[t].cur < |s.calls[t].ids| && id == s.calls[t].ids[s.calls[t].cur]
    ensures Inv(PublishStep(s, t, id, p, restoring))
  {
    if s.closing {
      RefusedKeeps(s, t, p, restoring, ErrClosed);
    } else if s.rootCanceled {
      RefusedKeeps(s, t, p, restoring, ErrOther);
    } else {
      PublishedKeeps(s, t, id, p, restoring);
    }
  }

  lemma PublishedKeeps(s: State, t: Handle, id: Id, p: Prepared, restoring: bool)
    requires Inv(s) && t in s.calls && s.calls[t].pc == Publishing(p, restoring) && !ShuttingDown(s)
    requires s.calls[t].cur < |s.calls[t].ids| && id == s.calls[t].ids[s.calls[t].cur]
    ensures Inv(PublishStep(s, t, id, p, restoring))
  {
    CallClaims(s, t);
    var pc := Unlock(if restoring then ErrStop(Republished(s.next)) else Ok);
    PublishedInv(s, PublishStep(s, t, id, p, restoring), t, id, p, restoring, pc);
  }

  lemma PublishedInv(s: State, s': State, t: Handle, id: Id, p: Prepared, restoring: bool, pc: Pc)
    requires Inv(s) && t in s.calls && CallOk(s, t, s.calls[t]) && s.calls[t].pc == Publishing(p, restoring)
    requires id == s.calls[t].ids[s.calls[t].cur] && Publishes(s, s', t, id, p, pc)
    requires pc == Unlock(if restoring then ErrStop(Republished(s.next)) else Ok)
    ensures Inv(s')
  {
    PublishedWorkersOk(s, s', t, id, p, pc);
    PublishedOwn(s, s', t, id, p, pc);
    assert s.next !in s.heap;
    PublishedFrame(s, s', t, id, p, pc);
    PublishedCallOk(s, s', t, id, p, restoring);
    Workers.RowsUntouched(s, s');
    HolderKeeps(s, s', t);
  }

  // ----- Stopping -----

  predicate Cancels(s: State, s': State, t: Handle, w: Handle)
    requires t in s.calls && w in s.heap
  {
    s' == s.(calls := s.calls[t := s.calls[t].(pc := StopWait(w))], heap := s.heap[w := s.heap[w].(canceled := true)])
  }

  lemma CanceledWorkersOk(s: State, s': State, t: Handle, w: Handle)
    requires MapOk(s) && WorkersOk(s) && t in s.calls && w in s.heap && Cancels(s, s', t, w)
    ensures MapOk(s') && WorkersOk(s')
  {
    forall h | h in s'.heap ensures WorkerOk(s', h, s'.heap[h]) {
      assert WorkerOk(s, h, s.heap[h]);
      if h != w {
        WorkerKept(s, s', h, s.heap[h]);
      }
    }
  }

  lemma CanceledCallOk(s: State, s': State, t: Handle, w: Handle, id: Id)
    requires t in s.calls && CallOk(s, t, s.calls[t]) && s.calls[t].pc == StopPick && w in s.heap && Cancels(s, s', t, w)
    requires id == s.calls[t].ids[s.calls[t].cur] && s.heap[w].session == id && Attached(s.heap[w])
    ensures CallOk(s', t, s'.calls[t])
  {
  }

  lemma CanceledOwn(s: State, s': State, t: Handle, w: Handle, id: Id)
    requires t in s.calls && CallShape(s, t, s.calls[t]) && s.calls[t].pc == StopPick && w in s.heap && Cancels(s, s', t, w)
    requires id in s.calls[t].ids && s.heap[w].session == id
    ensures Own(s, s', t) && HolderFrame(s, s', t)
  {
  }

  lemma CanceledInv(s: State, s': State, t: Handle, w: Handle, id: Id)
    requires Inv(s) && t in s.calls && CallOk(s, t, s.calls[t]) && s.calls[t].pc == StopPick
    requires id == s.calls[t].ids[s.calls[t].cur] && id in s.workers && w == s.workers[id] && Cancels(s, s', t, w)
    ensures Inv(s')
  {
    CanceledWorkersOk(s, s', t, w);
    CanceledCallOk(s, s', t, w, id);
    CanceledOwn(s, s', t, w, id);
    Workers.RowsUntouched(s, s');
    HolderKeeps(s, s', t);
  }

  lemma StopPickKeeps(s: State, t: Handle, id: Id)
    requires Inv(s) && t in s.calls && s.calls[t].pc == StopPick
    requires s.calls[t].cur < |s.calls[t].ids| && id == s.calls[t].ids[s.calls[t].cur]
    ensures Inv(StopPickStep(s, t, id))
  {
    if id in s.workers {
      assert CallOk(s, t, s.calls[t]);
      CanceledInv(s, StopPickStep(s, t, id), t, s.workers[id], id);
    } else {
      GotoKeeps(s, t, StopRead);
    }
  }

  /** The row of a session without a worker comes to rest. The call has already decided how to go on. */
  lemma RestRowKeeps(s: State, t: Handle, id: Id)
    requires Inv(s) && t in s.calls && s.calls[t].held == |s.calls[t].ids| && id in s.calls[t].ids
    requires s.calls[t].pc == DeleteRead || s.calls[t].pc == FlushSend
             || (s.calls[t].pc.Unlock? && !s.calls[t].pc.outcome.ErrStop?)
    requires id !in s.workers && id in s.rows && s.rows[id].status == Store.Running
    ensures Inv(s.(rows := s.rows[id := s.rows[id].(status := Store.Stopped)]))
  {
    var s' := s.(rows := s.rows[id := s.rows[id].(status := Store.Stopped)]);
    assert CallOk(s, t, s.calls[t]);
    RestedWorkersOk(s, s', id);
    RestedCallOk(s, s', t, id);
    RestedOwn(s, s', t, id);
    assert RowAgrees(s.rows[id], s.ticks[id]);
    RestedRowsOk(s, s', id);
    HolderKeeps(s, s', t);
  }

  lemma RestedWorkersOk(s: State, s': State, id: Id)
    requires MapOk(s) && WorkersOk(s) && id in s.rows && id !in s.workers
    requires s' == s.(rows := s.rows[id := s.rows[id].(status := Store.Stopped)])
    ensures MapOk(s') && WorkersOk(s')
  {
    forall h | h in s'.heap ensures WorkerOk(s', h, s'.heap[h]) {
      assert WorkerOk(s, h, s.heap[h]);
      WorkerKept(s, s', h, s.heap[h]);
    }
  }

  predicate Rests(s: State, s': State, id: Id)
    requires id in s.rows
  {
    s' == s.(rows := s.rows[id := s.rows[id].(status := Store.Stopped)])
  }

  lemma RestedCallOk(s: State, s': State, t: Handle, id: Id)
    requires t in s.calls && CallOk(s, t, s.calls[t]) && id in s.rows && Rests(s, s', id)
    requires s.calls[t].pc == DeleteRead || s.calls[t].pc == FlushSend
             || (s.calls[t].pc.Unlock? && !s.calls[t].pc.outcome.ErrStop?)
    ensures CallOk(s', t, s'.calls[t])
  {
  }

  lemma RestedOwn(s: State, s': State, t: Handle, id: Id)
    requires t in s.calls && s.calls[t].held == |s.calls[t].ids| && id in s.calls[t].ids && id in s.rows && Rests(s, s', id)
    requires s.calls[t].pc == DeleteRead || s.calls[t].pc == FlushSend || s.calls[t].pc.Unlock?
    requires CallShape(s, t, s.calls[t])
    ensures Own(s, s', t) && HolderFrame(s, s', t)
  {
  }

  lemma RestedRowsOk(s: State, s': State, id: Id)
    requires RowsOk(s) && id in s.rows && RowAgrees(s.rows[id], s.ticks[id])
    requires s' == s.(rows := s.rows[id := s.rows[id].(status := Store.Stopped)])
    ensures RowsOk(s')
  {
    forall x | x in s'.rows ensures RowAgrees(s'.rows[x], s'.ticks[x]) {
      assert x != id ==> RowAgrees(s.rows[x], s.ticks[x]);
    }
  }

  lemma StopMissedKeeps(s: State, t: Handle, id: Id)
    requires Inv(s) && t in s.calls && s.calls[t].pc.StopStore?
    requires s.calls[t].cur < |s.calls[t].ids| && id == s.calls[t].ids[s.calls[t].cur]
    requires id !in s.rows || s.rows[id].status != Store.Running
    ensures Inv(StopStoreStep(s, t, id))
  {
    CallClaims(s, t);
    StopReturnedKeeps(s, t, ErrNotRunning);
    assert StopStoreStep(s, t, id) == SetCall(s, t, StopReturned(s.calls[t], ErrNotRunning));
  }

  lemma StopReturnedIs(c: Call)
    requires c.held == |c.ids|
    ensures var c' := StopReturned(c, Ok);
            && c'.held == |c'.ids| && c'.ids == c.ids
            && (c'.pc == DeleteRead || c'.pc == FlushSend || c'.pc == Unlock(Ok))
  {
  }

  /** The call has decided how to go on; then the row comes to rest. */
  lemma StopDoneKeeps(s: State, t: Handle, id: Id)
    requires Inv(s) && t in s.calls && s.calls[t].pc.StopStore?
    requires s.calls[t].cur < |s.calls[t].ids| && id == s.calls[t].ids[s.calls[t].cur]
    requires id in s.rows && s.rows[id].status == Store.Running
    ensures Inv(StopStoreStep(s, t, id))
  {
    CallClaims(s, t);
    StopReturnedKeeps(s, t, Ok);
    StopReturnedIs(s.calls[t]);
    RestRowKeeps(SetCall(s, t, StopReturned(s.calls[t], Ok)), t, id);
  }

  lemma StopStoreKeeps(s: State, t: Handle, id: Id)
    requires Inv(s) && t in s.calls && s.calls[t].pc.StopStore?
    requires s.calls[t].cur < |s.calls[t].ids| && id == s.calls[t].ids[s.calls[t].cur]
    ensures Inv(StopStoreStep(s, t, id))
  {
    if id in s.rows && s.rows[id].status == Store.Running {
      StopDoneKeeps(s, t, id);
    } else {
      StopMissedKeeps(s, t, id);
    }
  }

  // ----- Recovery of a delayed stop -----

  predicate Schedules(s: State, s': State, t: Handle, w: Handle)
    requires t in s.calls && w in s.heap
  {
    s' == s.(calls := s.calls[t := s.calls[t].(pc := Unlock(ErrStop(RecoveryPending(w))))]
                             [s.next := Call(Recovering(w), [s.heap[w].session], 0, 0, AwaitExit)],
             heap := s.heap[w := s.heap[w].(recovery := Some(s.next))], next := s.next + 1)
  }

  lemma ScheduledWorkersOk(s: State, s': State, t: Handle, w: Handle)
    requires MapOk(s) && WorkersOk(s) && t in s.calls && w in s.heap && Schedules(s, s', t, w)
    ensures MapOk(s') && WorkersOk(s')
  {
    forall h | h in s'.heap ensures WorkerOk(s', h, s'.heap[h]) {
      assert WorkerOk(s, h, s.heap[h]);
      if h != w {
        WorkerKept(s, s', h, s.heap[h]);
      }
    }
  }

  lemma ScheduledCallsOk(s: State, s': State, t: Handle, w: Handle)
    requires HandlesOk(s) && t in s.calls && CallOk(s, t, s.calls[t]) && s.calls[t].pc == StopDelayed(w)
    requires w in s.heap && s.heap[w].recovery.None? && Schedules(s, s', t, w)
    ensures CallOk(s', t, s'.calls[t]) && CallOk(s', s.next, s'.calls[s.next])
  {
  }

  lemma ScheduledOwn(s: State, s': State, t: Handle, w: Handle)
    requires HandlesOk(s) && t in s.calls && CallShape(s, t, s.calls[t]) && s.calls[t].pc == StopDelayed(w) && PcOk(s, s.calls[t])
    requires w in s.heap && s.heap[w].recovery.None? && Schedules(s, s', t, w)
    ensures Own(s, s', t)
  {
  }

  lemma ScheduledKeeps(s: State, s': State, t: Handle, w: Handle)
    requires Inv(s) && t in s.calls && CallOk(s, t, s.calls[t]) && s.calls[t].pc == StopDelayed(w) && w in s.heap
    requires s.heap[w].recovery.None? && Schedules(s, s', t, w)
    ensures Inv(s')
  {
    ScheduledWorkersOk(s, s', t, w);
    ScheduledCallsOk(s, s', t, w);
    ScheduledOwn(s, s', t, w);
    OthersKeptPlain(s, s', t);
    ScheduledRecoveries(s, s', t, w);
    Workers.RowsUntouched(s, s');
    ScheduledTables(s, s', t, w);
  }

  lemma ScheduledRecoveries(s: State, s': State, t: Handle, w: Handle)
    requires HandlesOk(s) && RecoveriesWait(s) && t in s.calls && w in s.heap && s.calls[t].pc == StopDelayed(w)
    requires s.heap[w].recovery.None? && Schedules(s, s', t, w)
    ensures RecoveriesWait(s')
  {
    forall h | h in s'.heap ensures RecoveryWaits(s', h) {
      assert RecoveryWaits(s, h);
    }
  }

  lemma ScheduledTables(s: State, s': State, t: Handle, w: Handle)
    requires HandlesOk(s) && LocksOk(s) && t in s.calls && w in s.heap && Schedules(s, s', t, w)
    ensures HandlesOk(s') && LocksOk(s')
  {
  }

  lemma ScheduleKeeps(s: State, t: Handle, w: Handle)
    requires Inv(s) && t in s.calls && s.calls[t].pc == StopDelayed(w) && w in s.heap
    ensures Inv(ScheduleStep(s, t, w))
  {
    CallClaims(s, t);
    if s.heap[w].recovery.Some? {
      BodyMoveKeeps(s, t, s.calls[t].(pc := Unlock(ErrStop(RecoveryPending(w)))));
    } else if ShuttingDown(s) {
      GiveUpKeeps(s, t, ErrRestore);
    } else {
      assert CallOk(s, t, s.calls[t]);
      ScheduledKeeps(s, ScheduleStep(s, t, w), t, w);
    }
  }

  // ----- Deleting -----

  lemma FlushSendKeeps(s: State, t: Handle)
    requires Inv(s) && t in s.calls && s.calls[t].pc == FlushSend && |s.core.queue| < s.capacity
    ensures Inv(FlushSendStep(s, t))
  {
    CallClaims(s, t);
    assert CallOk(s, t, s.calls[t]);
    FlushSentInv(s, FlushSendStep(s, t), t);
  }

  predicate SendsBarrier(s: State, s': State, t: Handle)
    requires t in s.calls
  {
    s' == s.(calls := s.calls[t := s.calls[t].(pc := FlushWait(s.next))],
             core := s.core.(queue := s.core.queue + [Writer.BarrierCommand(s.next)],
                             accepted := s.core.accepted + [Writer.BarrierCommand(s.next)]),
             next := s.next + 1)
  }

  /** The barrier is behind every event of the sessions, and no new one can follow it. */
  lemma FreshFence(s: State, s': State, t: Handle)
    requires HandlesOk(s) && t in s.calls && SendsBarrier(s, s', t)
    ensures Fence(s'.core, s.next, s.calls[t].ids)
  {
    assert s'.core.queue[|s.core.queue|] == Writer.BarrierCommand(s.next);
    assert !Answered(s.core, s.next, true) && !Answered(s.core, s.next, false);
  }

  lemma FlushSentCallOk(s: State, s': State, t: Handle)
    requires HandlesOk(s) && t in s.calls && CallOk(s, t, s.calls[t]) && s.calls[t].pc == FlushSend && SendsBarrier(s, s', t)
    ensures CallOk(s', t, s'.calls[t])
  {
    FreshFence(s, s', t);
  }

  lemma FlushSentOwn(s: State, s': State, t: Handle)
    requires t in s.calls && CallShape(s, t, s.calls[t]) && s.calls[t].pc == FlushSend && SendsBarrier(s, s', t)
    ensures Own(s, s', t)
  {
  }

  lemma FlushSentOtherOk(s: State, s': State, t: Handle, u: Handle)
    requires HandlesOk(s) && MapOk(s) && MapOk(s') && WorkersOk(s) && t in s.calls && u in s.calls && u != t && Own(s, s', t)
    requires CallOk(s, t, s.calls[t]) && CallOk(s, u, s.calls[u]) && SendsBarrier(s, s', t)
    ensures CallOk(s', u, s'.calls[u])
  {
    Workers.OfferKeepsFences(s, s', Writer.BarrierCommand(s.next), s.calls[u].ids);
    OtherCallKept(s, s', t, u);
  }

  lemma FlushSentInv(s: State, s': State, t: Handle)
    requires Inv(s) && t in s.calls && CallOk(s, t, s.calls[t]) && s.calls[t].pc == FlushSend && SendsBarrier(s, s', t)
    ensures Inv(s')
  {
    FlushSentCallOk(s, s', t);
    FlushSentOwn(s, s', t);
    SharedKeepsWorkers(s, s');
    forall u | u in s.calls && u != t ensures CallOk(s', u, s'.calls[u]) {
      assert CallOk(s, u, s.calls[u]);
      FlushSentOtherOk(s, s', t, u);
    }
    FlushSentTables(s, s', t);
  }

  lemma FlushSentTables(s: State, s': State, t: Handle)
    requires HandlesOk(s) && LocksOk(s) && RecoveriesWait(s) && RowsOk(s) && SamplesHaveRows(s)
    requires t in s.calls && s.calls[t].pc == FlushSend && SendsBarrier(s, s', t)
    ensures HandlesOk(s') && LocksOk(s') && RecoveriesWait(s') && RowsOk(s') && SamplesHaveRows(s')
  {
    forall h | h in s'.heap ensures RecoveryWaits(s', h) {
      assert RecoveryWaits(s, h);
    }
    assert forall i | 0 <= i < |s.core.queue| :: s'.core.queue[i] == s.core.queue[i];
    Workers.RowsUntouched(s, s');
  }

  predicate Purges(s: State, s': State, t: Handle)
    requires t in s.calls
  {
    s' == s.(calls := s.calls[t := s.calls[t].(pc := DeleteRows(0))], stored := Without(s.stored, s.calls[t].ids),
             orphans := s.orphans - (set id | id in s.calls[t].ids))
  }

  lemma PurgedCallOk(s: State, s': State, t: Handle)
    requires t in s.calls && CallOk(s, t, s.calls[t]) && s.calls[t].pc == DeleteSamples && Purges(s, s', t)
    ensures CallOk(s', t, s'.calls[t])
  {
    assert forall i | 0 <= i < |s'.stored| :: s'.stored[i] in s'.stored;
  }

  lemma PurgedOwn(s: State, s': State, t: Handle)
    requires t in s.calls && CallShape(s, t, s.calls[t]) && s.calls[t].pc == DeleteSamples && Purges(s, s', t)
    ensures Own(s, s', t)
  {
  }

  lemma PurgeKeepsSamples(s: State, s': State, t: Handle, ids: seq<Id>)
    requires t in s.calls && Purges(s, s', t)
    ensures SamplesKept(s, s', ids) && forall b :: FenceKept(s, s', b, ids)
  {
    forall i | NoneStored(s, ids) && 0 <= i < |s'.stored| ensures s'.stored[i].session !in ids {
      assert s'.stored[i] in s'.stored;
    }
  }

  lemma DeleteSamplesKeeps(s: State, t: Handle)
    requires Inv(s) && t in s.calls && s.calls[t].pc == DeleteSamples
    ensures Inv(PurgeStep(s, t))
  {
    assert CallOk(s, t, s.calls[t]);
    PurgedInv(s, PurgeStep(s, t), t);
  }

  lemma PurgedOtherOk(s: State, s': State, t: Handle, u: Handle)
    requires MapOk(s) && MapOk(s') && WorkersOk(s) && t in s.calls && u in s.calls && u != t && Own(s, s', t)
    requires CallOk(s, t, s.calls[t]) && CallOk(s, u, s.calls[u]) && Purges(s, s', t)
    ensures CallOk(s', u, s'.calls[u])
  {
    PurgeKeepsSamples(s, s', t, s.calls[u].ids);
    OtherCallKept(s, s', t, u);
  }

  lemma PurgedInv(s: State, s': State, t: Handle)
    requires Inv(s) && t in s.calls && CallOk(s, t, s.calls[t]) && s.calls[t].pc == DeleteSamples && Purges(s, s', t)
    ensures Inv(s')
  {
    PurgedCalls(s, s', t);
    PurgedTables(s, s', t);
  }

  lemma PurgedCalls(s: State, s': State, t: Handle)
    requires MapOk(s) && WorkersOk(s) && CallsOk(s)
    requires t in s.calls && CallOk(s, t, s.calls[t]) && s.calls[t].pc == DeleteSamples && Purges(s, s', t)
    ensures MapOk(s') && WorkersOk(s') && CallsOk(s')
  {
    PurgedCallOk(s, s', t);
    PurgedOwn(s, s', t);
    SharedKeepsWorkers(s, s');
    PurgedOthersOk(s, s', t);
  }

  lemma PurgedOthersOk(s: State, s': State, t: Handle)
    requires MapOk(s) && MapOk(s') && WorkersOk(s) && CallsOk(s) && t in s.calls && Own(s, s', t) && Purges(s, s', t)
    requires CallOk(s', t, s'.calls[t])
    ensures CallsOk(s')
  {
    forall u | u in s.calls && u != t ensures CallOk(s', u, s'.calls[u]) {
      assert CallOk(s, u, s.calls[u]) && CallOk(s, t, s.calls[t]);
      PurgedOtherOk(s, s', t, u);
    }
  }

  lemma PurgedTables(s: State, s': State, t: Handle)
    requires HandlesOk(s) && LocksOk(s) && RecoveriesWait(s) && RowsOk(s) && SamplesHaveRows(s)
    requires t in s.calls && s.calls[t].pc == DeleteSamples && NoneQueued(s.core, s.calls[t].ids) && Purges(s, s', t)
    ensures HandlesOk(s') && LocksOk(s') && RecoveriesWait(s') && RowsOk(s') && SamplesHaveRows(s')
  {
    forall h | h in s'.heap ensures RecoveryWaits(s', h) {
      assert RecoveryWaits(s, h);
    }
    forall i | 0 <= i < |s'.stored| ensures MayHaveSamples(s', s'.stored[i].session) {
      assert s'.stored[i] in s'.stored;
    }
    assert forall i | 0 <= i < |s.core.queue| :: !EventOf(s.core.queue[i], s.calls[t].ids);
    Workers.RowsUntouched(s, s');
  }

  predicate Removes(s: State, s': State, t: Handle, id: Id, pc: Pc)
    requires t in s.calls
  {
    s' == s.(calls := s.calls[t := s.calls[t].(pc := pc)], rows := s.rows - {id})
  }

  lemma RemovedWorkersOk(s: State, s': State, t: Handle, id: Id, pc: Pc)
    requires MapOk(s) && WorkersOk(s) && t in s.calls && Removes(s, s', t, id, pc) && Quiet(s, id)
    ensures MapOk(s') && WorkersOk(s')
  {
    forall h | h in s'.heap ensures WorkerOk(s', h, s'.heap[h]) {
      assert WorkerOk(s, h, s.heap[h]);
      WorkerKept(s, s', h, s.heap[h]);
    }
  }

  lemma RemovedCallOk(s: State, s': State, t: Handle, count: nat, id: Id, pc: Pc)
    requires t in s.calls && CallOk(s, t, s.calls[t]) && s.calls[t].pc == DeleteRows(count)
    requires id == s.calls[t].ids[count] && Removes(s, s', t, id, pc)
    requires pc == if count + 1 == |s.calls[t].ids| then Unlock(Ok) else DeleteRows(count + 1)
    ensures CallOk(s', t, s'.calls[t])
  {
    if count + 1 == |s.calls[t].ids| {
      LastRemovedOk(s, s', t, count, id);
    } else {
      MoreRemainOk(s, s', t, count, id);
    }
  }

  lemma LastRemovedOk(s: State, s': State, t: Handle, count: nat, id: Id)
    requires t in s.calls && CallOk(s, t, s.calls[t]) && s.calls[t].pc == DeleteRows(count) && count + 1 == |s.calls[t].ids|
    requires id == s.calls[t].ids[count] && Removes(s, s', t, id, Unlock(Ok))
    ensures CallOk(s', t, s'.calls[t])
  {
  }

  lemma MoreRemainOk(s: State, s': State, t: Handle, count: nat, id: Id)
    requires t in s.calls && CallOk(s, t, s.calls[t]) && s.calls[t].pc == DeleteRows(count) && count + 1 < |s.calls[t].ids|
    requires id == s.calls[t].ids[count] && Removes(s, s', t, id, DeleteRows(count + 1))
    ensures CallOk(s', t, s'.calls[t])
  {
  }

  lemma RemovedOwn(s: State, s': State, t: Handle, id: Id, pc: Pc)
    requires t in s.calls && CallShape(s, t, s.calls[t]) && s.calls[t].pc.DeleteRows? && id in s.calls[t].ids
    requires Removes(s, s', t, id, pc)
    ensures Own(s, s', t)
  {
  }

  lemma RemovedCallsOk(s: State, s': State, t: Handle, id: Id, pc: Pc)
    requires MapOk(s) && MapOk(s') && WorkersOk(s) && CallsOk(s) && t in s.calls && Own(s, s', t)
    requires Removes(s, s', t, id, pc) && CallOk(s', t, s'.calls[t])
    ensures CallsOk(s')
  {
    OthersKept(s, s', t);
  }

  lemma RemovedTables(s: State, s': State, t: Handle, id: Id, pc: Pc)
    requires HandlesOk(s) && LocksOk(s) && RecoveriesWait(s) && RowsOk(s) && SamplesHaveRows(s)
    requires t in s.calls && s.calls[t].pc.DeleteRows? && id in s.calls[t].ids && Removes(s, s', t, id, pc)
    requires NoneQueued(s.core, s.calls[t].ids) && NoneStored(s, s.calls[t].ids)
    ensures HandlesOk(s') && LocksOk(s') && RecoveriesWait(s') && RowsOk(s') && SamplesHaveRows(s')
  {
    forall h | h in s'.heap ensures RecoveryWaits(s', h) {
      assert RecoveryWaits(s, h);
    }
    forall x | x in s'.rows ensures RowAgrees(s'.rows[x], s'.ticks[x]) {
      assert RowAgrees(s.rows[x], s.ticks[x]);
    }
    assert forall i | 0 <= i < |s.core.queue| :: !EventOf(s.core.queue[i], s.calls[t].ids);
  }

  lemma RemovedInv(s: State, s': State, t: Handle, count: nat, id: Id, pc: Pc)
    requires Inv(s) && t in s.calls && CallOk(s, t, s.calls[t]) && s.calls[t].pc == DeleteRows(count)
    requires id == s.calls[t].ids[count] && Removes(s, s', t, id, pc)
    requires pc == if count + 1 == |s.calls[t].ids| then Unlock(Ok) else DeleteRows(count + 1)
    ensures Inv(s')
  {
    assert Quiet(s, id);
    RemovedWorkersOk(s, s', t, id, pc);
    RemovedCallOk(s, s', t, count, id, pc);
    RemovedOwn(s, s', t, id, pc);
    RemovedCallsOk(s, s', t, id, pc);
    RemovedTables(s, s', t, id, pc);
  }

  lemma DeleteRowKeeps(s: State, t: Handle, count: nat)
    requires Inv(s) && t in s.calls && s.calls[t].pc == DeleteRows(count) && count < |s.calls[t].ids|
    ensures Inv(DeleteRowStep(s, t, count))
  {
    assert CallOk(s, t, s.calls[t]);
    var ids := s.calls[t].ids;
    RemovedInv(s, DeleteRowStep(s, t, count), t, count, ids[count],
               if count + 1 == |ids| then Unlock(Ok) else DeleteRows(count + 1));
  }
}
