/** Every action of a worker goroutine, of the writer goroutine and of the environment keeps the
    protocol's invariant. */
module SupervisorWorkers {
  import opened Common
  import opened Samples
  import opened SamplingWorker
  import opened Supervisor
  import opened SupervisorInvariant
  import opened SupervisorFrames
  import Store = SessionStore
  import Writer = SampleWriter

  /** Everything but worker h, its session's row and history, and the channel is untouched. */
  predicate OnlyWorker(s: State, s': State, h: Handle)
    requires h in s.heap && h in s'.heap
  {
    var id := s.heap[h].session;
    && s' == s.(heap := s'.heap, workers := s'.workers, rows := s'.rows, ticks := s'.ticks, core := s'.core)
    && s'.heap == s.heap[h := s'.heap[h]] && s'.heap[h].session == id
    && (s'.workers == s.workers
        || (id in s.workers && s.workers[id] == h && s'.workers == s.workers - {id} && !Attached(s'.heap[h])))
    && s'.rows.Keys == s.rows.Keys
    && (forall x | x in s.rows && x != id :: s'.rows[x] == s.rows[x] && TicksOf(s', x) == TicksOf(s, x))
    && (!Attached(s.heap[h]) ==> s'.rows == s.rows && s'.ticks == s.ticks)
  }

  lemma OthersKept(s: State, s': State, h: Handle)
    requires WorkersOk(s) && h in s.heap && h in s'.heap && OnlyWorker(s, s', h)
    requires WorkerOk(s', h, s'.heap[h])
    ensures WorkersOk(s')
  {
    forall g | g in s'.heap ensures WorkerOk(s', g, s'.heap[g]) {
      if g != h {
        assert WorkerOk(s, g, s.heap[g]);
        assert WorkerOk(s, h, s.heap[h]);
        WorkerKept(s, s', g, s.heap[g]);
      }
    }
  }

  lemma AttachedInMap(s: State, h: Handle)
    requires WorkersOk(s) && h in s.heap && Attached(s.heap[h])
    ensures s.heap[h].session in s.workers && s.workers[s.heap[h].session] == h
  {
    assert WorkerOk(s, h, s.heap[h]);
  }

  lemma WorkersEvolve(s: State, s': State, h: Handle, g: Handle)
    requires h in s.heap && h in s'.heap && OnlyWorker(s, s', h) && Evolves(s, s', h) && g in s.heap
    ensures g in s'.heap && Evolves(s, s', g)
    ensures RecoveryScheduled(s, g) ==> RecoveryScheduled(s', g)
  {
    assert g != h ==> s'.heap[g] == s.heap[g];
  }

  lemma SessionsKept(s: State, s': State, h: Handle, id: Id)
    requires WorkersOk(s) && h in s.heap && h in s'.heap && OnlyWorker(s, s', h) && Evolves(s, s', h)
    ensures SessionKept(s, s', id)
  {
    forall g | g in s.heap && g in s'.heap && s.heap[g].session == id
      ensures Evolves(s, s', g) && (RecoveryScheduled(s, g) ==> RecoveryScheduled(s', g))
    {
      WorkersEvolve(s, s', h, g);
    }
    if Attached(s.heap[h]) {
      AttachedInMap(s, h);
    }
  }

  predicate ChannelKept(s: State, s': State, h: Handle)
    requires h in s.heap
  {
    s'.core == s.core
    || (s.heap[h].pc.Enqueueing? && s'.core.batch == s.core.batch && s'.core.log == s.core.log
        && s'.core.queue == s.core.queue + [Writer.EventCommand(s.heap[h].pc.event)])
  }

  lemma CallKeptByWorker(s: State, s': State, h: Handle, t: Handle)
    requires MapOk(s) && WorkersOk(s) && MapOk(s') && t in s.calls && CallOk(s, t, s.calls[t])
    requires h in s.heap && h in s'.heap && OnlyWorker(s, s', h) && Evolves(s, s', h) && ChannelKept(s, s', h)
    ensures CallOk(s', t, s.calls[t])
  {
    var c := s.calls[t];
    forall i | 0 <= i < |c.ids| ensures SessionKept(s, s', c.ids[i]) {
      SessionsKept(s, s', h, c.ids[i]);
    }
    if c.held == |c.ids| && Fenced(c.pc) && s'.core != s.core {
      EnqueueKeepsFences(s, s', h, c);
    }
    CallKept(s, s', t, c);
  }

  lemma WorkerStepKeeps(s: State, s': State, h: Handle)
    requires Inv(s) && h in s.heap && h in s'.heap && OnlyWorker(s, s', h) && Evolves(s, s', h)
    requires WorkerOk(s', h, s'.heap[h]) && MapOk(s') && ChannelKept(s, s', h)
    requires RowsOk(s') && SamplesHaveRows(s') && HandlesOk(s')
    ensures Inv(s')
  {
    OthersKept(s, s', h);
    forall t | t in s'.calls ensures CallOk(s', t, s'.calls[t]) {
      CallKeptByWorker(s, s', h, t);
    }
    forall g | g in s'.heap ensures RecoveryWaits(s', g) {
      assert RecoveryWaits(s, g);
    }
  }

  lemma BusyNotQuiet(s: State, h: Handle, ids: seq<Id>)
    requires WorkersOk(s) && h in s.heap && s.heap[h].pc.Enqueueing? && AllQuiet(s, ids)
    ensures s.heap[h].session !in ids && s.heap[h].pc.event.session !in ids
  {
    AttachedInMap(s, h);
    assert WorkerOk(s, h, s.heap[h]);
    forall i | 0 <= i < |ids| ensures ids[i] != s.heap[h].session {
      assert Quiet(s, ids[i]);
    }
  }

  /** A worker that still enqueues belongs to no session being deleted. */
  lemma EnqueueKeepsFences(s: State, s': State, h: Handle, c: Call)
    requires WorkersOk(s) && h in s.heap && s.heap[h].pc.Enqueueing? && c.cur < |c.ids| && PcOk(s, c) && Fenced(c.pc)
    requires s'.core.batch == s.core.batch && s'.core.log == s.core.log && s'.stored == s.stored
    requires s'.core.queue == s.core.queue + [Writer.EventCommand(s.heap[h].pc.event)]
    ensures SamplesKept(s, s', c.ids)
    ensures c.pc.FlushWait? ==> FenceKept(s, s', c.pc.barrier, c.ids)
  {
    BusyNotQuiet(s, h, c.ids);
    OfferKeepsFences(s, s', Writer.EventCommand(s.heap[h].pc.event), c.ids);
  }

  lemma OfferKeepsFences(s: State, s': State, command: Writer.Command, ids: seq<Id>)
    requires s'.core.batch == s.core.batch && s'.core.log == s.core.log && s'.stored == s.stored
    requires s'.core.queue == s.core.queue + [command] && !EventOf(command, ids)
    ensures SamplesKept(s, s', ids)
    ensures forall b | command != Writer.BarrierCommand(b) :: FenceKept(s, s', b, ids)
  {
    var n := |s.core.queue|;
    assert s'.core.queue[n] == command;
    assert forall i | 0 <= i < n :: s'.core.queue[i] == s.core.queue[i];
  }

  // ----- Worker goroutines -----

  lemma RowsUntouched(s: State, s': State)
    requires RowsOk(s) && SamplesHaveRows(s)
    requires s'.rows == s.rows && s'.ticks == s.ticks && s'.named == s.named && s'.deleted == s.deleted && s'.orphans <= s.orphans
    ensures RowsOk(s')
    ensures s'.stored == s.stored && s'.core == s.core && s'.orphans == s.orphans ==> SamplesHaveRows(s')
  {
  }

  lemma RowChanged(s: State, s': State, id: Id)
    requires RowsOk(s) && SamplesHaveRows(s) && id in s.rows && s'.rows.Keys == s.rows.Keys
    requires s'.named == s.named && s'.deleted == s.deleted && s'.orphans == s.orphans && s'.stored == s.stored && s'.core == s.core
    requires forall x | x in s.rows && x != id :: s'.rows[x] == s.rows[x] && TicksOf(s', x) == TicksOf(s, x)
    requires RowAgrees(s'.rows[id], TicksOf(s', id)) && s'.ticks.Keys == s.ticks.Keys
    ensures RowsOk(s') && SamplesHaveRows(s')
  {
    forall x | x in s'.rows ensures x in s'.named && x in s'.ticks && RowAgrees(s'.rows[x], s'.ticks[x]) {
      assert x != id ==> RowAgrees(s.rows[x], TicksOf(s, x));
    }
  }

  /** Steps that only move the program counter: top of the loop, the test after a tick, exit. */
  lemma PcStepKeeps(s: State, h: Handle, pc: WorkerPc)
    requires Inv(s) && h in s.heap && !pc.Enqueueing?
    requires var w := s.heap[h]; var w' := w.(pc := pc);
             && (Attached(w) <==> Attached(w')) && (w.pc == Exited ==> pc == Exited)
             && (Idle(w, s.now) ==> Idle(w', s.now)) && (Attached(w) ==> Idle(w', s.now) || InSync(s, w.prepared))
             && (pc == Finishing ==> CapReached(w.prepared, s.now)) && (pc == Ticking ==> !SamplesReached(w.prepared))
             && (pc == Returned || !Attached(w') ==> w.canceled || s.rootCanceled || w.finishedRow)
    ensures Inv(GoWorker(s, h, pc))
  {
    var s' := GoWorker(s, h, pc);
    assert WorkerOk(s, h, s.heap[h]);
    assert WorkerOk(s', h, s'.heap[h]);
    RowsUntouched(s, s');
    WorkerStepKeeps(s, s', h);
  }

  lemma TopKeeps(s: State, h: Handle)
    requires Inv(s) && h in s.heap && s.heap[h].pc == Top
    ensures Inv(TopStep(s, h))
  {
    assert WorkerOk(s, h, s.heap[h]);
    var w := s.heap[h];
    PcStepKeeps(s, h, if Halted(s, w) then Returned else if CapReached(w.prepared, s.now) then Finishing else Ticking);
  }

  lemma RestKeeps(s: State, h: Handle, persisted: bool)
    requires Inv(s) && h in s.heap && s.heap[h].pc == Resting(persisted)
    ensures Inv(RestStep(s, h, persisted))
  {
    assert WorkerOk(s, h, s.heap[h]);
    var w := s.heap[h];
    PcStepKeeps(s, h, if Halted(s, w) then Returned
                      else if persisted && CapReached(w.prepared, s.now) then Finishing else Top);
  }

  lemma ExitKeeps(s: State, h: Handle)
    requires Inv(s) && h in s.heap && s.heap[h].pc == Removed
    ensures Inv(GoWorker(s, h, Exited))
  {
    assert WorkerOk(s, h, s.heap[h]);
    PcStepKeeps(s, h, Exited);
  }

  lemma RemoveKeeps(s: State, h: Handle)
    requires Inv(s) && h in s.heap && s.heap[h].pc == Returned
    ensures Inv(RemoveStep(s, h))
  {
    var s' := RemoveStep(s, h);
    AttachedInMap(s, h);
    assert WorkerOk(s, h, s.heap[h]);
    assert WorkerOk(s', h, s'.heap[h]);
    assert Sound(s', s'.heap[h].prepared);
    RowsUntouched(s, s');
    WorkerStepKeeps(s, s', h);
  }

  /** A worker that stays in the map and replaces its own row and history. */
  predicate RowStep(s: State, s': State, h: Handle, w': Worker, row: Store.Row, ticks: seq<Tick>)
    requires h in s.heap
  {
    var w := s.heap[h];
    && w.session in s.rows && w.session in s.ticks && Attached(w) && Attached(w') && w'.session == w.session
    && s' == s.(heap := s.heap[h := w'], rows := s.rows[w.session := row], ticks := s.ticks[w.session := ticks])
  }

  lemma RowStepShape(s: State, s': State, h: Handle, w': Worker, row: Store.Row, ticks: seq<Tick>)
    requires MapOk(s) && HandlesOk(s) && h in s.heap && RowStep(s, s', h, w', row, ticks)
    ensures OnlyWorker(s, s', h) && MapOk(s') && HandlesOk(s')
  {
  }

  lemma RowStepData(s: State, s': State, h: Handle, w': Worker, row: Store.Row, ticks: seq<Tick>)
    requires RowsOk(s) && SamplesHaveRows(s) && h in s.heap && RowStep(s, s', h, w', row, ticks)
    requires RowAgrees(row, ticks)
    ensures RowsOk(s') && SamplesHaveRows(s')
  {
    RowChanged(s, s', s.heap[h].session);
  }

  lemma RowStepKeeps(s: State, s': State, h: Handle, w': Worker, row: Store.Row, ticks: seq<Tick>)
    requires Inv(s) && h in s.heap && RowStep(s, s', h, w', row, ticks)
    requires RowAgrees(row, ticks) && WorkerOk(s', h, w') && Evolves(s, s', h)
    ensures Inv(s')
  {
    RowStepShape(s, s', h, w', row, ticks);
    RowStepData(s, s', h, w', row, ticks);
    WorkerStepKeeps(s, s', h);
  }

  lemma FinishKeeps(s: State, h: Handle, reached: bool)
    requires Inv(s) && h in s.heap && s.heap[h].pc == Finishing
    ensures Inv(FinishStep(s, h, reached))
  {
    var w := s.heap[h];
    assert WorkerOk(s, h, w);
    if reached && Store.Finish(s.rows, w.session).1.Done? {
      FinishedKeeps(s, h);
    } else if Halted(s, w) {
      PcStepKeeps(s, h, Returned);
    }
  }

  lemma FinishedWorkerOk(s: State, s': State, h: Handle, w': Worker)
    requires h in s.heap && s.heap[h].pc == Finishing && WorkerOk(s, h, s.heap[h])
    requires s' == s.(heap := s.heap[h := w'], rows := s'.rows, ticks := s'.ticks)
    requires w' == s.heap[h].(pc := Returned, finishedRow := true)
    ensures WorkerOk(s', h, w') && Evolves(s, s', h)
  {
  }

  lemma FinishedKeeps(s: State, h: Handle)
    requires Inv(s) && h in s.heap && s.heap[h].pc == Finishing && Store.Finish(s.rows, s.heap[h].session).1.Done?
    ensures Inv(FinishStep(s, h, true))
  {
    var w := s.heap[h];
    var id := w.session;
    var w' := w.(pc := Returned, finishedRow := true);
    var row := s.rows[id].(status := Store.Finished);
    var s' := FinishStep(s, h, true);
    assert id in s.ticks && RowAgrees(s.rows[id], s.ticks[id]);
    assert s'.ticks == s.ticks[id := s.ticks[id]];
    assert WorkerOk(s, h, w);
    FinishedWorkerOk(s, s', h, w');
    RowStepKeeps(s, s', h, w', row, s.ticks[id]);
  }

  lemma EnqueueingHasRow(s: State, h: Handle)
    requires WorkersOk(s) && h in s.heap && s.heap[h].pc.Enqueueing?
    ensures s.heap[h].pc.event.session == s.heap[h].session && s.heap[h].session in s.rows
    ensures s.rows[s.heap[h].session].status == Store.Running
  {
    assert WorkerOk(s, h, s.heap[h]);
  }

  lemma OfferKeepsData(s: State, s': State, h: Handle, event: Writer.Event)
    requires RowsOk(s) && SamplesHaveRows(s) && HandlesOk(s)
    requires h in s.heap && s.heap[h].pc == Enqueueing(event) && event.session in s.rows
    requires s' == s.(heap := s'.heap, core := s'.core) && s'.heap.Keys == s.heap.Keys
    requires s'.core == s.core || s'.core == Writer.Offer(s.core, Writer.EventCommand(event), s.capacity).0
    ensures RowsOk(s') && SamplesHaveRows(s') && HandlesOk(s') && ChannelKept(s, s', h)
  {
    RowsUntouched(s, s');
    assert forall i | 0 <= i < |s.core.queue| :: s'.core.queue[i] == s.core.queue[i];
  }

  lemma EnqueuedWorkerOk(s: State, s': State, h: Handle)
    requires h in s.heap && s.heap[h].pc.Enqueueing? && WorkerOk(s, h, s.heap[h]) && MapOk(s)
    requires s' == s.(heap := s.heap[h := s.heap[h].(pc := Resting(true))], core := s'.core)
    ensures WorkerOk(s', h, s'.heap[h]) && Evolves(s, s', h) && OnlyWorker(s, s', h) && MapOk(s')
  {
  }

  lemma EnqueueKeeps(s: State, h: Handle, event: Writer.Event, accepting: bool)
    requires Inv(s) && h in s.heap && s.heap[h].pc == Enqueueing(event)
    ensures Inv(EnqueueStep(s, h, event, accepting))
  {
    var s' := EnqueueStep(s, h, event, accepting);
    assert WorkerOk(s, h, s.heap[h]);
    EnqueueingHasRow(s, h);
    OfferKeepsData(s, s', h, event);
    EnqueuedWorkerOk(s, s', h);
    WorkerStepKeeps(s, s', h);
  }

  lemma TickedWorkerOk(s: State, s': State, h: Handle, sample: Sample)
    requires h in s.heap && s.heap[h].pc == Ticking && WorkerOk(s, h, s.heap[h])
    requires s.heap[h].session in s.rows && RowAgrees(s.rows[s.heap[h].session], TicksOf(s, s.heap[h].session))
    requires Tallied(sample, s.heap[h].prepared.seen)
    requires var id, p := s.heap[h].session, s.heap[h].prepared;
             s' == s.(heap := s.heap[h := s.heap[h].(prepared := AfterTick(p, sample), pc := Enqueueing(TickEvent(p, sample)))],
                      rows := s.rows[id := SavedRow(p, s.rows[id], sample)],
                      ticks := s.ticks[id := TicksOf(s, id) + [Committed(p, sample)]])
    ensures WorkerOk(s', h, s'.heap[h]) && Evolves(s, s', h)
    ensures RowAgrees(s'.rows[s.heap[h].session], TicksOf(s', s.heap[h].session))
  {
    var w := s.heap[h];
    TickKeepsAgreement(w.prepared, s.rows[w.session], TicksOf(s, w.session), sample);
  }

  lemma SavedKeeps(s: State, s': State, h: Handle, sample: Sample)
    requires Inv(s) && h in s.heap && s.heap[h].pc == Ticking && Tallied(sample, s.heap[h].prepared.seen)
    requires WorkerOk(s, h, s.heap[h]) && s.heap[h].session in s.rows
    requires RowAgrees(s.rows[s.heap[h].session], TicksOf(s, s.heap[h].session))
    requires s' == TickStep(s, h, sample, true)
    ensures Inv(s')
  {
    var w := s.heap[h];
    TickedWorkerOk(s, s', h, sample);
    RowStepKeeps(s, s', h, s'.heap[h], s'.rows[w.session], s'.ticks[w.session]);
  }

  lemma TickKeeps(s: State, h: Handle, sample: Sample, saved: bool)
    requires Inv(s) && h in s.heap && s.heap[h].pc == Ticking && Tallied(sample, s.heap[h].prepared.seen)
    ensures Inv(TickStep(s, h, sample, saved))
  {
    if saved {
      SavedTickKeeps(s, h, sample);
    } else {
      assert WorkerOk(s, h, s.heap[h]);
      PcStepKeeps(s, h, Resting(false));
    }
  }

  lemma SavedTickKeeps(s: State, h: Handle, sample: Sample)
    requires Inv(s) && h in s.heap && s.heap[h].pc == Ticking && Tallied(sample, s.heap[h].prepared.seen)
    ensures Inv(TickStep(s, h, sample, true))
  {
    assert WorkerOk(s, h, s.heap[h]);
    assert RowAgrees(s.rows[s.heap[h].session], TicksOf(s, s.heap[h].session));
    SavedKeeps(s, TickStep(s, h, sample, true), h, sample);
  }
}
