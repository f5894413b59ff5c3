/** The actions of lifecycle calls: what one call may touch, and why the others do not notice. */
module SupervisorCalls {
  import opened Common
  import opened SamplingWorker
  import opened Supervisor
  import opened SupervisorInvariant
  import opened SupervisorFrames
  import Store = SessionStore

  /** Rows, workers and history of sessions outside ids stay as they are. */
  predicate Outside(s: State, s': State, ids: seq<Id>) {
    && (forall id | id in s.workers && id !in ids :: id in s'.workers && s'.workers[id] == s.workers[id])
    && (forall id | id in s'.workers && id !in ids :: id in s.workers)
    && (forall id | id in s.rows && id !in ids :: id in s'.rows && s'.rows[id] == s.rows[id])
    && (forall id | id in s'.rows && id !in ids :: id in s.rows)
    && (forall h | h in s.heap && s.heap[h].session !in ids :: h in s'.heap && s'.heap[h] == s.heap[h])
    && s'.ticks == s.ticks
  }

  predicate Shared(s: State, s': State) {
    s'.rows == s.rows && s'.workers == s.workers && s'.heap == s.heap && s'.ticks == s.ticks
  }

  /** The reach of one action of call t. */
  predicate Own(s: State, s': State, t: Handle)
    requires t in s.calls
  {
    var c := s.calls[t];
    && Grows(s, s') && s'.now == s.now && s'.closing == s.closing && s'.rootCanceled == s.rootCanceled
    && (forall u | u in s.calls && u != t :: u in s'.calls && s'.calls[u] == s.calls[u])
    && (forall id | id in s.operations && s.operations[id] != t :: id in s'.operations && s'.operations[id] == s.operations[id])
    && (Shared(s, s') || (c.held == |c.ids| && Outside(s, s', c.ids)))
    && (forall h | h in s.heap && s.heap[h].recovery.Some? :: h in s'.heap && s'.heap[h].recovery == s.heap[h].recovery)
    && (c.kind.Recovering? && c.held == 0 ==>
          Pending(s', t, c.kind.worker) || ShuttingDown(s) || (c.ids != [] && c.ids[0] !in s.operations) || !Pending(s, t, c.kind.worker))
  }

  lemma LocksDisjoint(s: State, t: Handle, u: Handle, id: Id)
    requires t in s.calls && u in s.calls && t != u
    requires CallShape(s, t, s.calls[t]) && CallShape(s, u, s.calls[u])
    requires s.calls[t].held == |s.calls[t].ids| && s.calls[u].held == |s.calls[u].ids| && id in s.calls[u].ids
    ensures id !in s.calls[t].ids
  {
  }

  lemma RecoveryStays(s: State, s': State, t: Handle, u: Handle, h: Handle)
    requires t in s.calls && u in s.calls && t != u && Own(s, s', t)
    requires CallShape(s, t, s.calls[t]) && CallShape(s, u, s.calls[u]) && s.calls[u].held == |s.calls[u].ids|
    requires h in s.heap && s.heap[h].session in s.calls[u].ids && RecoveryScheduled(s, h)
    ensures RecoveryScheduled(s', h)
  {
    if !ShuttingDown(s) {
      var r := s.heap[h].recovery.value;
      if r == t {
        assert s.heap[h].session == s.calls[t].ids[0];
        assert s.heap[h].session in s.operations;
      }
    }
  }

  lemma OtherSessionKept(s: State, s': State, t: Handle, u: Handle, id: Id)
    requires t in s.calls && u in s.calls && t != u && Own(s, s', t)
    requires CallShape(s, t, s.calls[t]) && CallShape(s, u, s.calls[u]) && s.calls[u].held == |s.calls[u].ids|
    requires id in s.calls[u].ids
    ensures SessionKept(s, s', id)
  {
    if s.calls[t].held == |s.calls[t].ids| {
      LocksDisjoint(s, t, u, id);
    }
    forall h | h in s.heap && h in s'.heap && s.heap[h].session == id
      ensures Evolves(s, s', h) && (RecoveryScheduled(s, h) ==> RecoveryScheduled(s', h))
    {
      assert s'.heap[h] == s.heap[h];
      if RecoveryScheduled(s, h) {
        RecoveryStays(s, s', t, u, h);
      }
    }
  }

  lemma OtherCallKept(s: State, s': State, t: Handle, u: Handle)
    requires MapOk(s) && MapOk(s') && WorkersOk(s) && t in s.calls && u in s.calls && t != u && Own(s, s', t)
    requires CallOk(s, t, s.calls[t]) && CallOk(s, u, s.calls[u])
    requires Fenced(s.calls[u].pc) ==> SamplesKept(s, s', s.calls[u].ids)
    requires s.calls[u].pc.FlushWait? ==> FenceKept(s, s', s.calls[u].pc.barrier, s.calls[u].ids)
    requires s.calls[u].held < |s.calls[u].ids| ==> forall id | id in s.named && id !in s.rows :: id !in s'.rows
    ensures CallOk(s', u, s'.calls[u])
  {
    var c := s.calls[u];
    if c.held == |c.ids| {
      forall i | 0 <= i < |c.ids| ensures SessionKept(s, s', c.ids[i]) {
        OtherSessionKept(s, s', t, u, c.ids[i]);
      }
    }
    CallKept(s, s', u, c);
  }

  /** The others do not notice an action of call t; what remains to check is t itself. */
  lemma OthersKept(s: State, s': State, t: Handle)
    requires MapOk(s) && MapOk(s') && WorkersOk(s) && CallsOk(s) && t in s.calls && Own(s, s', t)
    requires forall u | u in s.calls && u != t && Fenced(s.calls[u].pc) :: SamplesKept(s, s', s.calls[u].ids)
    requires forall u | u in s.calls && u != t && s.calls[u].pc.FlushWait? :: FenceKept(s, s', s.calls[u].pc.barrier, s.calls[u].ids)
    requires forall id | id in s.named && id !in s.rows :: id !in s'.rows
    ensures forall u | u in s.calls && u != t :: u in s'.calls && CallOk(s', u, s'.calls[u])
  {
    forall u | u in s.calls && u != t ensures u in s'.calls && CallOk(s', u, s'.calls[u]) {
      OtherCallKept(s, s', t, u);
    }
  }

  // ----- Actions that move nothing but the call -----

  /** Only the call itself, and at most fresh names. */
  predicate Moves(s: State, s': State, t: Handle, c': Call) {
    && t in s.calls
    && s' == s.(calls := s.calls[t := c'], preparedFor := s'.preparedFor, next := s'.next)
    && s.next <= s'.next
    && c'.kind == s.calls[t].kind && c'.ids == s.calls[t].ids && c'.held == s.calls[t].held
    && (forall p | p in s.preparedFor :: p in s'.preparedFor && s'.preparedFor[p] == s.preparedFor[p])
    && (forall p | p in s'.preparedFor :: p < s'.next)
    && (s.calls[t].pc == AwaitExit && !ShuttingDown(s) ==>
          c'.pc == AwaitExit
          || (c'.kind.Recovering? && c'.kind.worker in s.heap && s.heap[c'.kind.worker].pc == Exited))
    && (c'.held == 0 && c'.kind.Recovering? && Pending(s, t, c'.kind.worker) && !ShuttingDown(s) ==>
          c'.pc == AwaitExit || c'.pc == Acquire || c'.pc == Unlock(ErrOther))
  }

  lemma MoveOwn(s: State, s': State, t: Handle, c': Call)
    requires t in s.calls && Moves(s, s', t, c')
    ensures Own(s, s', t)
  {
  }

  lemma SharedKeepsWorkers(s: State, s': State)
    requires MapOk(s) && WorkersOk(s) && Shared(s, s') && Grows(s, s')
    ensures MapOk(s') && WorkersOk(s')
  {
    forall h | h in s'.heap ensures WorkerOk(s', h, s'.heap[h]) {
      WorkerKept(s, s', h, s.heap[h]);
    }
  }

  lemma MoveKeeps(s: State, s': State, t: Handle, c': Call)
    requires Inv(s) && t in s.calls && Moves(s, s', t, c')
    requires CallOk(s', t, c')
    ensures Inv(s')
  {
    assert CallOk(s, t, s.calls[t]);
    MoveKeepsTables(s, s', t, c');
    MoveOwn(s, s', t, c');
    SharedKeepsWorkers(s, s');
    MoveKeepsCalls(s, s', t, c');
  }

  lemma MoveKeepsCalls(s: State, s': State, t: Handle, c': Call)
    requires MapOk(s) && MapOk(s') && WorkersOk(s) && CallsOk(s) && t in s.calls && Own(s, s', t)
    requires Moves(s, s', t, c') && CallOk(s', t, c')
    ensures CallsOk(s')
  {
    OthersKept(s, s', t);
  }

  lemma MoveKeepsTables(s: State, s': State, t: Handle, c': Call)
    requires HandlesOk(s) && LocksOk(s) && RecoveriesWait(s) && RowsOk(s) && SamplesHaveRows(s)
    requires t in s.calls && CallShape(s, t, s.calls[t]) && Moves(s, s', t, c')
    ensures HandlesOk(s') && LocksOk(s') && RecoveriesWait(s') && RowsOk(s') && SamplesHaveRows(s')
  {
    forall h | h in s'.heap ensures RecoveryWaits(s', h) {
      assert RecoveryWaits(s, h);
    }
  }

  lemma OwnSessionKept(s: State, s': State, t: Handle, c': Call, id: Id)
    requires t in s.calls && CallShape(s, t, s.calls[t]) && Moves(s, s', t, c') && c'.held == |c'.ids|
    ensures SessionKept(s, s', id)
  {
    forall h | h in s.heap && RecoveryScheduled(s, h) ensures RecoveryScheduled(s', h) {
      if !ShuttingDown(s) {
        assert s.heap[h].recovery.value != t;
      }
    }
  }

  lemma BodyMoveOk(s: State, s': State, t: Handle, c': Call)
    requires MapOk(s) && WorkersOk(s)
    requires t in s.calls && CallShape(s, t, s.calls[t]) && Moves(s, s', t, c')
    requires c'.held == |c'.ids| && c'.cur < |c'.ids| && PcOk(s, c')
    requires IsDeletion(c'.kind) && OnTheWay(c'.pc) ==> forall i | 0 <= i < c'.cur :: Quiet(s, c'.ids[i])
    ensures CallOk(s', t, c')
  {
    forall i | 0 <= i < |c'.ids| ensures SessionKept(s, s', c'.ids[i]) {
      OwnSessionKept(s, s', t, c', c'.ids[i]);
    }
    PcKept(s, s', c');
  }

  /** A call that holds its locks moves to c', whose claims hold in the state it leaves. */
  lemma BodyMoveKeeps(s: State, t: Handle, c': Call)
    requires Inv(s) && t in s.calls && (InBody(s.calls[t].pc) || s.calls[t].pc == Acquire)
    requires c'.kind == s.calls[t].kind && c'.ids == s.calls[t].ids && c'.held == s.calls[t].held
    requires c'.held == |c'.ids| && c'.cur < |c'.ids| && PcOk(s, c')
    requires IsDeletion(c'.kind) && OnTheWay(c'.pc) ==> forall i | 0 <= i < c'.cur :: Quiet(s, c'.ids[i])
    ensures Inv(SetCall(s, t, c'))
  {
    var s' := SetCall(s, t, c');
    assert CallOk(s, t, s.calls[t]);
    BodyMoveIs(s, s', t, c');
    BodyMoveOk(s, s', t, c');
    MoveKeeps(s, s', t, c');
  }

  lemma BodyMoveIs(s: State, s': State, t: Handle, c': Call)
    requires HandlesOk(s) && t in s.calls && CallShape(s, t, s.calls[t])
    requires InBody(s.calls[t].pc) || s.calls[t].pc == Acquire
    requires s' == SetCall(s, t, c')
    requires c'.kind == s.calls[t].kind && c'.ids == s.calls[t].ids && c'.held == s.calls[t].held == |c'.ids|
    ensures Moves(s, s', t, c')
  {
  }

  /** The call's own claims, unfolded once. */
  lemma CallClaims(s: State, t: Handle)
    requires Inv(s) && t in s.calls
    ensures CallShape(s, t, s.calls[t]) && PcOk(s, s.calls[t])
  {
    assert CallOk(s, t, s.calls[t]);
  }

  /** A call holding its locks goes to another program point. */
  lemma GotoKeeps(s: State, t: Handle, pc: Pc)
    requires Inv(s) && t in s.calls && InBody(s.calls[t].pc) && s.calls[t].cur < |s.calls[t].ids|
    requires PcOk(s, s.calls[t].(pc := pc)) && (OnTheWay(pc) ==> OnTheWay(s.calls[t].pc))
    ensures Inv(Goto(s, t, pc))
  {
    ShapeOf(s, t);
    BodyMoveKeeps(s, t, s.calls[t].(pc := pc));
  }

  lemma CheckMapKeeps(s: State, t: Handle, id: Id, restoring: bool)
    requires Inv(s) && t in s.calls && s.calls[t].pc == CheckMap(restoring)
    requires s.calls[t].cur < |s.calls[t].ids| && id == s.calls[t].ids[s.calls[t].cur]
    ensures Inv(Goto(s, t, AfterCheckMap(s, id, restoring)))
  {
    CallClaims(s, t);
    MapClaims(s);
    CheckMapPcOk(s, s.calls[t], id, restoring);
    GotoKeeps(s, t, AfterCheckMap(s, id, restoring));
  }

  lemma MapClaims(s: State)
    requires Inv(s)
    ensures MapOk(s) && WorkersOk(s) && CallsOk(s) && RowsOk(s) && HandlesOk(s)
  {
  }

  lemma CheckMapPcOk(s: State, c: Call, id: Id, restoring: bool)
    requires MapOk(s) && c.cur < |c.ids| && c.pc == CheckMap(restoring) && PcOk(s, c) && id == c.ids[c.cur]
    ensures PcOk(s, c.(pc := AfterCheckMap(s, id, restoring)))
  {
  }

  lemma ReadRowPcOk(s: State, c: Call, id: Id, restoring: bool)
    requires c.cur < |c.ids| && c.pc == ReadRow(restoring) && PcOk(s, c) && id == c.ids[c.cur]
    ensures PcOk(s, c.(pc := AfterReadRow(s.rows, id, restoring)))
  {
  }

  lemma ReadRowKeeps(s: State, t: Handle, id: Id, restoring: bool)
    requires Inv(s) && t in s.calls && s.calls[t].pc == ReadRow(restoring)
    requires s.calls[t].cur < |s.calls[t].ids| && id == s.calls[t].ids[s.calls[t].cur]
    ensures Inv(Goto(s, t, AfterReadRow(s.rows, id, restoring)))
  {
    CallClaims(s, t);
    ReadRowPcOk(s, s.calls[t], id, restoring);
    GotoKeeps(s, t, AfterReadRow(s.rows, id, restoring));
  }

  lemma StopWaitKeeps(s: State, t: Handle, w: Handle)
    requires Inv(s) && t in s.calls && s.calls[t].pc == StopWait(w) && w in s.heap && s.heap[w].pc == Exited
    ensures Inv(Goto(s, t, StopStore(Some(w))))
  {
    CallClaims(s, t);
    BodyMoveKeeps(s, t, s.calls[t].(pc := StopStore(Some(w))));
  }

  lemma ShapeOf(s: State, t: Handle)
    requires Inv(s) && t in s.calls
    ensures CallShape(s, t, s.calls[t])
  {
    assert CallOk(s, t, s.calls[t]);
  }

  /** The rest of a deletion may rely on every child dealt with so far being quiet. */
  lemma NextChildOk(s: State, c: Call)
    requires c.cur < |c.ids| && IsDeletion(c.kind) && forall i | 0 <= i <= c.cur :: Quiet(s, c.ids[i])
    ensures var c' := NextChild(c);
            && c'.kind == c.kind && c'.ids == c.ids && c'.held == c.held && c'.cur < |c'.ids| && PcOk(s, c')
            && (OnTheWay(c'.pc) ==> forall i | 0 <= i < c'.cur :: Quiet(s, c'.ids[i]))
  {
    if c.cur + 1 < |c.ids| {} else {}
  }

  lemma NextChildKeeps(s: State, t: Handle)
    requires Inv(s) && t in s.calls && InBody(s.calls[t].pc) && s.calls[t].cur < |s.calls[t].ids|
    requires IsDeletion(s.calls[t].kind) && forall i | 0 <= i <= s.calls[t].cur :: Quiet(s, s.calls[t].ids[i])
    ensures Inv(SetCall(s, t, NextChild(s.calls[t])))
  {
    ShapeOf(s, t);
    NextChildOk(s, s.calls[t]);
    BodyMoveKeeps(s, t, NextChild(s.calls[t]));
  }

  lemma StopReturnedKeeps(s: State, t: Handle, outcome: Outcome)
    requires Inv(s) && t in s.calls && OnTheWay(s.calls[t].pc) && s.calls[t].cur < |s.calls[t].ids|
    requires outcome == Ok || outcome == ErrNotRunning || outcome == ErrNotFound
    requires s.calls[t].ids[s.calls[t].cur] !in s.workers
    ensures Inv(SetCall(s, t, StopReturned(s.calls[t], outcome)))
  {
    if IsDeletion(s.calls[t].kind) && outcome != ErrNotFound {
      ShapeOf(s, t);
      NextChildKeeps(s, t);
    } else {
      GotoKeeps(s, t, Unlock(outcome));
    }
  }

  lemma StopReadKeeps(s: State, t: Handle, id: Id)
    requires Inv(s) && t in s.calls && s.calls[t].pc == StopRead
    requires s.calls[t].cur < |s.calls[t].ids| && id == s.calls[t].ids[s.calls[t].cur]
    ensures Inv(SetCall(s, t, AfterStopRead(s.rows, s.calls[t], id)))
  {
    CallClaims(s, t);
    if id !in s.rows {
      StopReturnedKeeps(s, t, ErrNotFound);
    } else if s.rows[id].status != Store.Running {
      StopReturnedKeeps(s, t, ErrNotRunning);
    } else {
      GotoKeeps(s, t, StopStore(None));
    }
  }

  /** A row that is missing or not running has no worker able to tick. */
  lemma RestingRowQuiet(s: State, id: Id)
    requires MapOk(s) && WorkersOk(s)
    requires id !in s.rows || s.rows[id].status != Store.Running
    ensures Quiet(s, id)
  {
    if id in s.workers {
      assert WorkerOk(s, s.workers[id], s.heap[s.workers[id]]);
    }
  }

  lemma DeleteReadKeeps(s: State, t: Handle, id: Id)
    requires Inv(s) && t in s.calls && s.calls[t].pc == DeleteRead
    requires s.calls[t].cur < |s.calls[t].ids| && id == s.calls[t].ids[s.calls[t].cur]
    ensures Inv(SetCall(s, t, AfterDeleteRead(s.rows, s.calls[t], id)))
  {
    if id in s.rows && s.rows[id].status == Store.Running {
      GotoKeeps(s, t, StopPick);
    } else if id !in s.rows && !s.calls[t].kind.DeletingMany? {
      GotoKeeps(s, t, Unlock(ErrNotFound));
    } else {
      SkipChildKeeps(s, t, id);
    }
  }

  lemma SkipChildKeeps(s: State, t: Handle, id: Id)
    requires Inv(s) && t in s.calls && s.calls[t].pc == DeleteRead
    requires s.calls[t].cur < |s.calls[t].ids| && id == s.calls[t].ids[s.calls[t].cur]
    requires id !in s.rows || s.rows[id].status != Store.Running
    ensures Inv(SetCall(s, t, NextChild(s.calls[t])))
  {
    CallClaims(s, t);
    MapClaims(s);
    RestingRowQuiet(s, id);
    NextChildKeeps(s, t);
  }

  lemma FlushWaitKeeps(s: State, t: Handle, b: nat)
    requires Inv(s) && t in s.calls && s.calls[t].pc == FlushWait(b)
    requires Answered(s.core, b, true)
    ensures Inv(Goto(s, t, DeleteSamples))
  {
    CallClaims(s, t);
    BodyMoveKeeps(s, t, s.calls[t].(pc := DeleteSamples));
  }

  /** Errors that end a call in its body: nothing was promised yet. */
  lemma GiveUpKeeps(s: State, t: Handle, outcome: Outcome)
    requires Inv(s) && t in s.calls && InBody(s.calls[t].pc) && outcome != Ok && !outcome.ErrStop?
    requires s.calls[t].kind == Stopping ==> StopOutcome(outcome)
    ensures Inv(Goto(s, t, Unlock(outcome)))
  {
    CallClaims(s, t);
    BodyMoveKeeps(s, t, s.calls[t].(pc := Unlock(outcome)));
  }

  lemma FreshlySynced(s: State, id: Id, identity: Handle)
    requires RowsOk(s) && id in s.rows
    ensures Synced(Prepare(identity, id, s.rows[id], s.rows[id].ips.Keys), s.rows[id], TicksOf(s, id))
  {
    assert RowAgrees(s.rows[id], s.ticks[id]);
    PrepareSynced(identity, id, s.rows[id], s.ticks[id]);
  }

  lemma PreparingKeeps(s: State, t: Handle, id: Id, value: Store.Row, restoring: bool)
    requires Inv(s) && t in s.calls && s.calls[t].pc == Preparing(value, restoring)
    requires s.calls[t].cur < |s.calls[t].ids| && id == s.calls[t].ids[s.calls[t].cur]
    ensures Inv(PreparingStep(s, t, id, value, restoring))
  {
    CallClaims(s, t);
    FreshlySynced(s, id, s.next);
    PreparedStepKeeps(s, PreparingStep(s, t, id, value, restoring), t, id, value, restoring);
  }

  lemma PreparedStepKeeps(s: State, s': State, t: Handle, id: Id, value: Store.Row, restoring: bool)
    requires Inv(s) && t in s.calls && CallShape(s, t, s.calls[t]) && s.calls[t].pc == Preparing(value, restoring)
    requires id == s.calls[t].ids[s.calls[t].cur] && PcOk(s, s.calls[t])
    requires Synced(Prepare(s.next, id, value, value.ips.Keys), value, TicksOf(s, id))
    requires s' == PreparingStep(s, t, id, value, restoring)
    ensures Inv(s')
  {
    PreparedMoveIs(s, s', t);
    PreparedCallOk(s, s', t, id, value, restoring);
    MoveKeeps(s, s', t, s'.calls[t]);
  }

  lemma PreparedMoveIs(s: State, s': State, t: Handle)
    requires HandlesOk(s) && t in s.calls && CallShape(s, t, s.calls[t]) && s.calls[t].pc.Preparing?
    requires s'.preparedFor.Keys == s.preparedFor.Keys + {s.next} && t in s'.calls
    requires s' == s.(calls := s.calls[t := s.calls[t].(pc := s'.calls[t].pc)], preparedFor := s'.preparedFor, next := s.next + 1)
    requires forall p | p in s.preparedFor :: s'.preparedFor[p] == s.preparedFor[p]
    ensures Moves(s, s', t, s'.calls[t])
  {
  }

  lemma PreparedCallOk(s: State, s': State, t: Handle, id: Id, value: Store.Row, restoring: bool)
    requires t in s.calls && CallShape(s, t, s.calls[t]) && s.calls[t].pc == Preparing(value, restoring)
    requires id == s.calls[t].ids[s.calls[t].cur] && PcOk(s, s.calls[t])
    requires Synced(Prepare(s.next, id, value, value.ips.Keys), value, TicksOf(s, id))
    requires s' == PreparingStep(s, t, id, value, restoring)
    ensures CallOk(s', t, s'.calls[t])
  {
  }
}
