/** The operation locks: in every run, whatever clean-ups do, the calls that wait for one never wait in a
    circle. */
module SupervisorLocks {
  import opened Common
  import opened SamplingWorker
  import opened Sorting
  import opened Supervisor
  import opened SupervisorInvariant
  import opened SupervisorSafety
  import Store = SessionStore
  import Writer = SampleWriter

  /** Ids are asked for in increasing order, and the first held of them are the call's own. */
  predicate HoldsInOrder(s: State, t: Handle, c: Call) {
    && t < s.next && Increasing(c.ids) && c.held <= |c.ids|
    && forall i | 0 <= i < c.held :: c.ids[i] in s.operations && s.operations[c.ids[i]] == t
  }

  predicate CallsHoldInOrder(s: State) {
    forall t {:trigger HoldsInOrder(s, t, s.calls[t])} | t in s.calls :: HoldsInOrder(s, t, s.calls[t])
  }

  predicate LockInv(s: State) {
    LocksOk(s) && CallsHoldInOrder(s)
  }

  // ----- What every action keeps -----

  /** The places from which a call writes control rows. */
  predicate WritesRows(pc: Pc) { pc.StopStore? || pc.DeleteRows? || CleansUp(pc) }

  /** Call t moves, no lock changes hands, nobody gets a worker while the process ends, nothing but a purge
      touches what is stored, and nothing but those four the rows. */
  ghost predicate OnlyMoved(s: State, s': State, t: Handle) {
    && (AtMostOffers(s, s') || (t in s.calls && s.calls[t].pc.DeleteSamples?))
    && (s'.rows == s.rows || (t in s.calls && WritesRows(s.calls[t].pc)))
    && (ShuttingDown(s) ==> s'.workers.Keys <= s.workers.Keys)
    && t in s.calls && t in s'.calls && s'.calls == s.calls[t := s'.calls[t]]
    && s'.calls[t].ids == s.calls[t].ids && s'.calls[t].held == s.calls[t].held
    && s'.operations == s.operations && s.next <= s'.next
  }

  lemma MovedKeepsLocks(s: State, s': State, t: Handle)
    requires LockInv(s) && OnlyMoved(s, s', t)
    ensures LockInv(s')
  {
    forall u | u in s'.calls ensures HoldsInOrder(s', u, s'.calls[u]) {
      assert HoldsInOrder(s, u, s.calls[u]);
    }
  }

  /** A call begins, without a lock. */
  predicate OnlyBegun(s: State, s': State, c: Call) {
    && s'.calls == s.calls[s.next := c] && s'.next == s.next + 1 && s'.operations == s.operations
    && c.held == 0 && Increasing(c.ids)
  }

  lemma BegunKeepsLocks(s: State, s': State, c: Call)
    requires LockInv(s) && OnlyBegun(s, s', c)
    ensures LockInv(s')
  {
    assert s.next in s.calls ==> HoldsInOrder(s, s.next, s.calls[s.next]);
    forall u | u in s'.calls ensures HoldsInOrder(s', u, s'.calls[u]) {
      assert u != s.next ==> HoldsInOrder(s, u, s.calls[u]);
    }
  }

  lemma ReturnKeepsLocks(s: State, s': State, t: Handle)
    requires LockInv(s) && t in s.calls && s.calls[t].held == 0
    requires s'.calls == s.calls - {t} && s'.operations == s.operations && s'.next == s.next
    ensures LockInv(s')
  {
    assert s.calls[t].ids[..0] == [];
    forall u | u in s'.calls ensures HoldsInOrder(s', u, s'.calls[u]) {
      assert HoldsInOrder(s, u, s.calls[u]);
    }
  }

  lemma SameKeepsLocks(s: State, s': State)
    requires LockInv(s) && s'.operations == s.operations && s'.next == s.next && s'.calls == s.calls
    ensures LockInv(s')
  {
    forall u | u in s'.calls ensures HoldsInOrder(s', u, s'.calls[u]) {
      assert HoldsInOrder(s, u, s.calls[u]);
    }
  }

  lemma TakeKeepsLocks(s: State, s': State, t: Handle)
    requires LockInv(s) && t in s.calls && s.calls[t].held < |s.calls[t].ids| && t in s'.calls
    requires s'.calls[t].held == s.calls[t].held + 1 && s'.calls[t].ids == s.calls[t].ids
    requires s.calls[t].ids[s.calls[t].held] !in s.operations && s'.next == s.next
    requires s'.calls == s.calls[t := s'.calls[t]] && s'.operations == s.operations[s.calls[t].ids[s.calls[t].held] := t]
    ensures LockInv(s')
  {
    TakenLocksOk(s, s', t);
    forall u | u in s'.calls ensures HoldsInOrder(s', u, s'.calls[u]) {
      assert HoldsInOrder(s, u, s.calls[u]);
    }
  }

  lemma AcquireKeepsLocks(s: State, t: Handle)
    requires LockInv(s) && CanStep(s, t) && s.calls[t].pc == Acquire
    ensures LockInv(AcquireStep(s, t))
  {
    if s.closing {
      MovedKeepsLocks(s, AcquireStep(s, t), t);
    } else {
      TakeKeepsLocks(s, AcquireStep(s, t), t);
    }
  }

  lemma TakenLocksOk(s: State, s': State, t: Handle)
    requires LocksOk(s) && t in s.calls && s.calls[t].held < |s.calls[t].ids| && t in s'.calls
    requires s'.calls[t].held == s.calls[t].held + 1 && s'.calls[t].ids == s.calls[t].ids
    requires s.calls[t].ids[s.calls[t].held] !in s.operations
    requires s'.calls == s.calls[t := s'.calls[t]] && s'.operations == s.operations[s.calls[t].ids[s.calls[t].held] := t]
    ensures LocksOk(s')
  {
    var c := s.calls[t];
    assert c.ids[..c.held + 1] == c.ids[..c.held] + [c.ids[c.held]];
  }

  lemma GiveKeepsLocks(s: State, s': State, t: Handle)
    requires LockInv(s) && t in s.calls && 0 < s.calls[t].held <= |s.calls[t].ids|
    requires s'.calls == s.calls[t := s.calls[t].(held := s.calls[t].held - 1)] && s'.next == s.next
    requires s'.operations == s.operations - {s.calls[t].ids[s.calls[t].held - 1]}
    ensures LockInv(s')
  {
    assert HoldsInOrder(s, t, s.calls[t]);
    GivenLocksOk(s, s', t);
    forall u | u in s'.calls ensures HoldsInOrder(s', u, s'.calls[u]) {
      assert HoldsInOrder(s, u, s.calls[u]);
    }
  }

  lemma GivenLocksOk(s: State, s': State, t: Handle)
    requires LocksOk(s) && t in s.calls && 0 < s.calls[t].held && HoldsInOrder(s, t, s.calls[t])
    requires s'.calls == s.calls[t := s.calls[t].(held := s.calls[t].held - 1)]
    requires s'.operations == s.operations - {s.calls[t].ids[s.calls[t].held - 1]}
    ensures LocksOk(s')
  {
    var c := s.calls[t];
    assert c.ids[..c.held] == c.ids[..c.held - 1] + [c.ids[c.held - 1]];
  }

  lemma ReleaseKeepsLocks(s: State, t: Handle, outcome: Outcome)
    requires LockInv(s) && t in s.calls && 0 < s.calls[t].held <= |s.calls[t].ids|
    ensures LockInv(UnlockStep(s, t, outcome))
  {
    assert HoldsInOrder(s, t, s.calls[t]);
    GiveKeepsLocks(s, UnlockStep(s, t, outcome), t);
  }

  lemma GotoKeepsLocks(s: State, t: Handle, pc: Pc)
    requires LockInv(s) && t in s.calls
    ensures LockInv(Goto(s, t, pc))
  {
    MovedKeepsLocks(s, Goto(s, t, pc), t);
  }

  lemma GoneKeepsLocks(s: State, t: Handle, deleted: set<Id>)
    requires LockInv(s) && t in s.calls && s.calls[t].held == 0
    ensures LockInv(s.(calls := s.calls - {t}, deleted := deleted))
  {
    ReturnKeepsLocks(s, s.(calls := s.calls - {t}, deleted := deleted), t);
  }

  /** Without a lock to give back, the call goes to another place or returns. */
  lemma LeaveKeepsLocks(s: State, t: Handle, outcome: Outcome)
    requires LockInv(s) && t in s.calls && s.calls[t].held == 0
    ensures LockInv(UnlockStep(s, t, outcome))
  {
    var c := s.calls[t];
    if c.kind.Recovering? && !ShuttingDown(s) && outcome !in {Ok, ErrNotRunning, ErrNotFound, ErrClosed} {
      GotoKeepsLocks(s, t, Acquire);
    } else if c.kind.Creating? && outcome !in {Ok, ErrCreate} {
      GotoKeepsLocks(s, t, CleanStop);
    } else {
      GoneKeepsLocks(s, t, if IsDeletion(c.kind) && outcome == Ok then s.deleted + (set id | id in c.ids) else s.deleted);
    }
  }

  lemma UnlockKeepsLocks(s: State, t: Handle, outcome: Outcome)
    requires LockInv(s) && t in s.calls && s.calls[t].held <= |s.calls[t].ids|
    ensures LockInv(UnlockStep(s, t, outcome))
  {
    if 0 < s.calls[t].held {
      ReleaseKeepsLocks(s, t, outcome);
    } else {
      LeaveKeepsLocks(s, t, outcome);
    }
  }

  lemma PublishMoves(s: State, t: Handle, id: Id, prepared: Prepared, restoring: bool)
    requires t in s.calls
    ensures OnlyMoved(s, PublishStep(s, t, id, prepared, restoring), t)
  {
    if s.closing {
    } else if s.rootCanceled {
    } else if id in s.workers {
    } else {
    }
  }

  lemma PreparingMoves(s: State, t: Handle, id: Id, value: Store.Row, restoring: bool)
    requires t in s.calls
    ensures OnlyMoved(s, PreparingStep(s, t, id, value, restoring), t)
  {
  }

  lemma StopPickMoves(s: State, t: Handle, id: Id)
    requires t in s.calls
    ensures OnlyMoved(s, StopPickStep(s, t, id), t)
  {
    if id in s.workers && s.workers[id] in s.heap {
    } else {
    }
  }

  lemma StopStoreMoves(s: State, t: Handle, id: Id)
    requires t in s.calls && s.calls[t].pc.StopStore?
    ensures OnlyMoved(s, StopStoreStep(s, t, id), t)
  {
  }

  lemma CleanStopMoves(s: State, t: Handle, id: Id)
    requires t in s.calls && s.calls[t].pc == CleanStop
    ensures OnlyMoved(s, CleanStopStep(s, t, id), t)
  {
  }

  lemma CleanDeleteMoves(s: State, t: Handle, id: Id)
    requires t in s.calls && s.calls[t].pc == CleanDelete
    ensures OnlyMoved(s, CleanDeleteStep(s, t, id), t)
  {
  }

  lemma FlushSendMoves(s: State, t: Handle)
    requires t in s.calls
    ensures OnlyMoved(s, FlushSendStep(s, t), t)
  {
    assert FlushSendStep(s, t).core == Writer.Offer(s.core, Writer.BarrierCommand(s.next), s.capacity).0;
  }

  lemma PurgeMoves(s: State, t: Handle)
    requires t in s.calls && s.calls[t].pc == DeleteSamples
    ensures OnlyMoved(s, PurgeStep(s, t), t)
  {
  }

  lemma DeleteRowMoves(s: State, t: Handle, count: nat)
    requires t in s.calls && s.calls[t].pc == DeleteRows(count) && count < |s.calls[t].ids|
    ensures OnlyMoved(s, DeleteRowStep(s, t, count), t)
  {
  }

  lemma MovingMoves(s: State, t: Handle)
    requires CanStep(s, t) && OnlyMoves(s.calls[t].pc)
    ensures OnlyMoved(s, Advance(s, t), t)
  {
    assert Advance(s, t) == SetCall(s, t, Moved(s, t));
  }

  predicate Keeps(pc: Pc) {
    !OnlyMoves(pc) && !pc.Acquire? && !pc.Unlock? && !pc.StopDelayed?
  }

  lemma AdvanceMoves(s: State, t: Handle)
    requires CanStep(s, t) && Keeps(s.calls[t].pc)
    ensures OnlyMoved(s, Advance(s, t), t)
  {
    var id := s.calls[t].ids[s.calls[t].cur];
    match s.calls[t].pc
    case Preparing(value, restoring) => PreparingMoves(s, t, id, value, restoring);
    case Publishing(prepared, restoring) => PublishMoves(s, t, id, prepared, restoring);
    case StopPick => StopPickMoves(s, t, id);
    case StopStore(_) => StopStoreMoves(s, t, id);
    case FlushSend => FlushSendMoves(s, t);
    case DeleteSamples => PurgeMoves(s, t);
    case DeleteRows(count) => DeleteRowMoves(s, t, count);
    case CleanStop => CleanStopMoves(s, t, id);
    case CleanDelete => CleanDeleteMoves(s, t, id);
  }

  /** The delayed stop moves on, and if it schedules a recovery, that begins. */
  lemma ScheduleKeepsLocks(s: State, t: Handle, w: Handle)
    requires LockInv(s) && t in s.calls && w in s.heap
    ensures LockInv(ScheduleStep(s, t, w))
  {
    if s.heap[w].recovery.Some? {
      GotoKeepsLocks(s, t, Unlock(ErrStop(RecoveryPending(w))));
    } else if ShuttingDown(s) {
      GotoKeepsLocks(s, t, Unlock(ErrRestore));
    } else {
      GotoKeepsLocks(s, t, Unlock(ErrStop(RecoveryPending(w))));
      BegunKeepsLocks(Goto(s, t, Unlock(ErrStop(RecoveryPending(w)))), ScheduleStep(s, t, w),
                      Call(Recovering(w), [s.heap[w].session], 0, 0, AwaitExit));
    }
  }

  lemma AdvanceKeepsLocks(s: State, t: Handle)
    requires LockInv(s) && CanStep(s, t)
    ensures LockInv(Advance(s, t))
  {
    if OnlyMoves(s.calls[t].pc) {
      MovingMoves(s, t);
      MovedKeepsLocks(s, Advance(s, t), t);
    } else if Keeps(s.calls[t].pc) {
      AdvanceMoves(s, t);
      MovedKeepsLocks(s, Advance(s, t), t);
    } else {
      match s.calls[t].pc
      case Acquire => AcquireKeepsLocks(s, t);
      case StopDelayed(w) => ScheduleKeepsLocks(s, t, w);
      case Unlock(outcome) => UnlockKeepsLocks(s, t, outcome);
    }
  }

  lemma CreateKeepsLocks(s: State, id: Id, row: Store.Row, alone: bool)
    requires LockInv(s)
    ensures LockInv(CreateStep(s, id, row, alone))
  {
    if alone {
      BegunKeepsLocks(s, CreateStep(s, id, row, true), Call(Creating, [id], 0, 0, Acquire));
    } else {
      SameKeepsLocks(s, CreateStep(s, id, row, false));
    }
  }

  lemma CallerKeepsLocks(s: State, step: Step)
    requires LockInv(s) && Enabled(s, step) && CallerStep(step)
    ensures LockInv(Apply(s, step))
  {
    match step
    case CallStep(t) => AdvanceKeepsLocks(s, t);
    case CallFails(t) => MovedKeepsLocks(s, Fail(s, t), t);
    case Begin(kind, ids) => BegunKeepsLocks(s, Apply(s, step), Call(kind, ids, 0, 0, Acquire));
  }

  lemma CreatedKeepsLocks(s: State, step: Step)
    requires LockInv(s) && Enabled(s, step) && step.Create?
    ensures LockInv(Apply(s, step))
  {
    match step
    case Create(id, maxSamples, maxDuration, startedAt, alone) =>
      CreateKeepsLocks(s, id, Store.Row(Store.Running, 0, 0, maxSamples, maxDuration, Some(startedAt), 0, 0, map[]), alone);
  }

  lemma OutsideKeepsLocks(s: State, step: Step)
    requires LockInv(s) && Enabled(s, step) && !WorkerStep(step) && !CallerStep(step) && !step.Create?
    ensures LockInv(Apply(s, step))
  {
    if !step.Crash? {
      SameKeepsLocks(s, Apply(s, step));
    }
  }

  lemma StepKeepsLocks(s: State, step: Step, s': State)
    requires LockInv(s) && Goes(s, step, s')
    ensures LockInv(s')
  {
    if WorkerStep(step) {
      WorkerKeepsNames(s, step);
      SameKeepsLocks(s, s');
    } else if CallerStep(step) {
      CallerKeepsLocks(s, step);
    } else if step.Create? {
      CreatedKeepsLocks(s, step);
    } else {
      OutsideKeepsLocks(s, step);
    }
  }

  lemma {:induction false} RunKeepsLocks(states: seq<State>, steps: seq<Step>, i: nat)
    requires IsRun(states, steps) && i < |states|
    ensures LockInv(states[i])
  {
    if i > 0 {
      RunKeepsLocks(states, steps, i - 1);
      assert StepAt(states, steps, i - 1);
      StepKeepsLocks(states[i - 1], steps[i - 1], states[i]);
    }
  }

  // ----- Waiting -----

  /** The call waits for a lock somebody holds. */
  predicate WaitsFor(s: State, t: Handle, id: Id) {
    && t in s.calls && s.calls[t].pc == Acquire && s.calls[t].held < |s.calls[t].ids|
    && s.calls[t].ids[s.calls[t].held] == id && id in s.operations
  }

  predicate Waits(s: State, t: Handle) {
    exists id | id in s.operations :: WaitsFor(s, t, id)
  }

  /** The locks a chain of waits can still reach. */
  function Above(s: State, id: Id): set<Id> {
    set x | x in s.operations && id < x
  }

  /** No deadlock: behind every wait there is a lock holder that does not wait for a lock itself. */
  lemma {:induction false} LockOrder(s: State, t: Handle, id: Id) returns (u: Handle, held: Id)
    requires LockInv(s) && WaitsFor(s, t, id)
    ensures held in s.operations && s.operations[held] == u && u in s.calls && !Waits(s, u)
    decreases |Above(s, id)|
  {
    u, held := s.operations[id], id;
    if Waits(s, u) {
      var wanted :| wanted in s.operations && WaitsFor(s, u, wanted);
      assert HoldsInOrder(s, u, s.calls[u]);
      assert id < wanted;
      SubsetSmaller(Above(s, wanted), Above(s, id), wanted);
      u, held := LockOrder(s, u, wanted);
    }
  }

  /** In every run, careful or not, a call that waits for a lock waits behind a holder that does not. */
  lemma NoDeadlock(states: seq<State>, steps: seq<Step>, i: nat, t: Handle, id: Id) returns (u: Handle, held: Id)
    requires IsRun(states, steps) && i < |states| && WaitsFor(states[i], t, id)
    ensures held in states[i].operations && states[i].operations[held] == u
    ensures u in states[i].calls && !Waits(states[i], u)
  {
    RunKeepsLocks(states, steps, i);
    u, held := LockOrder(states[i], t, id);
  }

  lemma SubsetSmaller(a: set<Id>, b: set<Id>, x: Id)
    requires a <= b && x in b && x !in a
    ensures |a| < |b|
  {
    assert |b| == |a| + |b - a|;
    assert x in b - a;
  }
}
