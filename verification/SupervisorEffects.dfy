/** The actions of lifecycle calls that change something shared: locks, the worker map, rows, the
    channel and the stored samples. */
module SupervisorEffects {
  import opened Common
  import opened SamplingWorker
  import opened Sorting
  import opened Supervisor
  import opened SupervisorInvariant
  import opened SupervisorFrames
  import opened SupervisorCalls

  // ----- Locks -----

  /** Only the call table and the lock table change. */
  predicate LockStep(s: State, s': State) {
    s' == s.(calls := s'.calls, operations := s'.operations)
  }

  lemma RecoveriesStillWait(s: State, s': State, t: Handle)
    requires RecoveriesWait(s) && t in s.calls && s.calls[t].pc != AwaitExit
    requires s'.heap == s.heap && ShuttingDown(s') == ShuttingDown(s)
    requires forall u | u in s.calls && u != t :: u in s'.calls && s'.calls[u] == s.calls[u]
    ensures RecoveriesWait(s')
  {
    forall h | h in s'.heap ensures RecoveryWaits(s', h) {
      assert RecoveryWaits(s, h);
    }
  }

  lemma LockStepKeeps(s: State, s': State, t: Handle)
    requires Inv(s) && t in s.calls && s.calls[t].pc != AwaitExit && Own(s, s', t) && LockStep(s, s')
    requires t in s'.calls ==> CallOk(s', t, s'.calls[t])
    requires s'.calls.Keys <= s.calls.Keys && LocksOk(s')
    ensures Inv(s')
  {
    SharedKeepsWorkers(s, s');
    OthersKept(s, s', t);
    RecoveriesStillWait(s, s', t);
  }

  lemma TakeLock(s: State, s': State, t: Handle, c': Call)
    requires LocksOk(s) && t in s.calls && s.calls[t].held < |s.calls[t].ids|
    requires s.calls[t].ids[s.calls[t].held] !in s.operations
    requires c'.held == s.calls[t].held + 1 && c'.ids == s.calls[t].ids
    requires s' == s.(calls := s.calls[t := c'], operations := s.operations[c'.ids[s.calls[t].held] := t])
    ensures LocksOk(s')
  {
    var c := s.calls[t];
    assert c'.ids[..c'.held] == c.ids[..c.held] + [c.ids[c.held]];
  }

  lemma AcquiredOk(s: State, s': State, t: Handle)
    requires t in s.calls && CallOk(s, t, s.calls[t]) && s.calls[t].pc == Acquire && !s.closing
    requires s.calls[t].ids[s.calls[t].held] !in s.operations && s' == AcquireStep(s, t)
    ensures CallOk(s', t, s'.calls[t])
  {
    if s.calls[t].held + 1 == |s.calls[t].ids| {} else {}
  }

  lemma AcquiredOwn(s: State, s': State, t: Handle)
    requires t in s.calls && CallShape(s, t, s.calls[t]) && s.calls[t].pc == Acquire && !s.closing
    requires s.calls[t].held < |s.calls[t].ids|
    requires s.calls[t].ids[s.calls[t].held] !in s.operations && s' == AcquireStep(s, t)
    ensures Own(s, s', t)
  {
  }

  lemma AcquireKeeps(s: State, t: Handle)
    requires Inv(s) && t in s.calls && s.calls[t].pc == Acquire && s.calls[t].held < |s.calls[t].ids|
    requires s.closing || s.calls[t].ids[s.calls[t].held] !in s.operations
    ensures Inv(AcquireStep(s, t))
  {
    if s.closing {
      AbandonKeeps(s, t, ErrClosed);
    } else {
      var s' := AcquireStep(s, t);
      assert CallOk(s, t, s.calls[t]);
      AcquiredOk(s, s', t);
      AcquiredOwn(s, s', t);
      TakeLock(s, s', t, s'.calls[t]);
      LockStepKeeps(s, s', t);
    }
  }

  /** Waiting for a lock ends without it: the locks already held are given back. */
  lemma AbandonKeeps(s: State, t: Handle, outcome: Outcome)
    requires Inv(s) && t in s.calls && s.calls[t].pc == Acquire
    requires outcome == ErrOther || (outcome == ErrClosed && s.closing)
    ensures Inv(Goto(s, t, Unlock(outcome)))
  {
    var s' := Goto(s, t, Unlock(outcome));
    assert CallOk(s, t, s.calls[t]);
    AbandonOwn(s, s', t, outcome);
    AbandonOk(s, s', t, outcome);
    LockStepKeeps(s, s', t);
  }

  lemma AbandonOwn(s: State, s': State, t: Handle, outcome: Outcome)
    requires t in s.calls && CallShape(s, t, s.calls[t]) && s.calls[t].pc == Acquire
    requires outcome == ErrOther || (outcome == ErrClosed && s.closing)
    requires s' == SetCall(s, t, s.calls[t].(pc := Unlock(outcome)))
    ensures Own(s, s', t)
  {
  }

  lemma AbandonOk(s: State, s': State, t: Handle, outcome: Outcome)
    requires LocksOk(s) && t in s.calls && CallOk(s, t, s.calls[t]) && s.calls[t].pc == Acquire
    requires outcome == ErrOther || (outcome == ErrClosed && s.closing)
    requires s' == SetCall(s, t, s.calls[t].(pc := Unlock(outcome)))
    ensures CallOk(s', t, s'.calls[t]) && LocksOk(s')
  {
  }

  /** The state after the innermost lock is given back. */
  predicate Releases(s: State, s': State, t: Handle)
    requires t in s.calls && 0 < s.calls[t].held <= |s.calls[t].ids|
  {
    var c := s.calls[t];
    s' == s.(calls := s.calls[t := c.(held := c.held - 1)], operations := s.operations - {c.ids[c.held - 1]})
  }

  lemma ReleaseOwn(s: State, s': State, t: Handle)
    requires t in s.calls && CallShape(s, t, s.calls[t]) && 0 < s.calls[t].held && Releases(s, s', t)
    ensures Own(s, s', t)
  {
  }

  lemma ReleaseOk(s: State, s': State, t: Handle)
    requires t in s.calls && CallOk(s, t, s.calls[t]) && s.calls[t].pc.Unlock? && 0 < s.calls[t].held
    requires Releases(s, s', t)
    ensures CallOk(s', t, s'.calls[t])
  {
  }

  lemma DropLock(s: State, s': State, t: Handle)
    requires LocksOk(s) && t in s.calls && CallShape(s, t, s.calls[t]) && 0 < s.calls[t].held
    requires Releases(s, s', t)
    ensures LocksOk(s')
  {
    var c := s.calls[t];
    assert c.ids[..c.held] == c.ids[..c.held - 1] + [c.ids[c.held - 1]];
  }

  lemma ReleaseKeeps(s: State, t: Handle, outcome: Outcome)
    requires Inv(s) && t in s.calls && s.calls[t].pc == Unlock(outcome) && 0 < s.calls[t].held <= |s.calls[t].ids|
    ensures Inv(UnlockStep(s, t, outcome))
  {
    var s' := UnlockStep(s, t, outcome);
    assert CallOk(s, t, s.calls[t]);
    ReleaseOwn(s, s', t);
    ReleaseOk(s, s', t);
    DropLock(s, s', t);
    LockStepKeeps(s, s', t);
  }

  /** A recovery tries again. */
  lemma RetryKeeps(s: State, t: Handle, outcome: Outcome)
    requires Inv(s) && t in s.calls && s.calls[t].pc == Unlock(outcome) && s.calls[t].held == 0 && s.calls[t].kind.Recovering?
    ensures Inv(Goto(s, t, Acquire))
  {
    assert CallOk(s, t, s.calls[t]);
    var s' := Goto(s, t, Acquire);
    RetryOk(s, s', t);
    LockStepKeeps(s, s', t);
  }

  lemma RetryOk(s: State, s': State, t: Handle)
    requires LocksOk(s) && t in s.calls && CallOk(s, t, s.calls[t]) && s.calls[t].pc.Unlock?
    requires s.calls[t].held == 0 && s.calls[t].kind.Recovering? && s' == Goto(s, t, Acquire)
    ensures Own(s, s', t) && CallOk(s', t, s'.calls[t]) && LocksOk(s')
  {
  }

  /** A request whose session did not start goes on to clean up. */
  lemma CleaningKeeps(s: State, t: Handle)
    requires Inv(s) && t in s.calls && s.calls[t].pc.Unlock? && s.calls[t].held == 0 && s.calls[t].kind.Creating?
    ensures Inv(Goto(s, t, CleanStop))
  {
    assert CallOk(s, t, s.calls[t]);
    var s' := Goto(s, t, CleanStop);
    CleaningOk(s, s', t);
    LockStepKeeps(s, s', t);
  }

  lemma CleaningOk(s: State, s': State, t: Handle)
    requires LocksOk(s) && t in s.calls && CallOk(s, t, s.calls[t]) && s.calls[t].pc.Unlock?
    requires s.calls[t].held == 0 && s.calls[t].kind.Creating? && s' == Goto(s, t, CleanStop)
    ensures Own(s, s', t) && CallOk(s', t, s'.calls[t]) && LocksOk(s')
  {
  }

  lemma ReturnOwn(s: State, s': State, t: Handle)
    requires LocksOk(s) && t in s.calls && CallOk(s, t, s.calls[t]) && s.calls[t].held == 0
    requires s' == s.(calls := s.calls - {t})
    requires s.calls[t].kind.Recovering? ==> ShuttingDown(s) || !Pending(s, t, s.calls[t].kind.worker)
    ensures Own(s, s', t) && LocksOk(s')
  {
    assert s.calls[t].ids[..0] == [];
  }

  lemma ReturnKeeps(s: State, t: Handle, outcome: Outcome)
    requires Inv(s) && t in s.calls && s.calls[t].pc == Unlock(outcome) && s.calls[t].held == 0
    requires s.calls[t].kind.Recovering? ==> ShuttingDown(s) || outcome != ErrOther
    ensures Inv(s.(calls := s.calls - {t}))
  {
    assert CallOk(s, t, s.calls[t]);
    var s' := s.(calls := s.calls - {t});
    ReturnOwn(s, s', t);
    LockStepKeeps(s, s', t);
  }

  /** A deletion that returns nil has removed every row it was asked to remove. */
  lemma DeletedKeeps(s: State, ids: seq<Id>)
    requires Inv(s) && NoneOrphaned(s, ids) && forall i | 0 <= i < |ids| :: ids[i] in s.named && ids[i] !in s.rows
    ensures Inv(s.(deleted := s.deleted + (set id | id in ids)))
  {
    DeletedInv(s, s.(deleted := s.deleted + (set id | id in ids)), ids);
  }

  lemma DeletedInv(s: State, s': State, ids: seq<Id>)
    requires Inv(s) && NoneOrphaned(s, ids) && forall i | 0 <= i < |ids| :: ids[i] in s.named && ids[i] !in s.rows
    requires s' == s.(deleted := s.deleted + (set id | id in ids))
    ensures Inv(s')
  {
    SharedKeepsWorkers(s, s');
    forall t | t in s'.calls ensures CallOk(s', t, s'.calls[t]) {
      DeletedCallOk(s, s', t);
    }
    DeletedTables(s, s', ids);
  }

  lemma DeletedTables(s: State, s': State, ids: seq<Id>)
    requires HandlesOk(s) && LocksOk(s) && RecoveriesWait(s) && RowsOk(s) && SamplesHaveRows(s)
    requires NoneOrphaned(s, ids) && forall i | 0 <= i < |ids| :: ids[i] in s.named && ids[i] !in s.rows
    requires s' == s.(deleted := s.deleted + (set id | id in ids))
    ensures HandlesOk(s') && LocksOk(s') && RecoveriesWait(s') && RowsOk(s') && SamplesHaveRows(s')
  {
    forall h | h in s'.heap ensures RecoveryWaits(s', h) {
      assert RecoveryWaits(s, h);
    }
  }

  lemma DeletedCallOk(s: State, s': State, t: Handle)
    requires MapOk(s) && WorkersOk(s) && t in s.calls && CallOk(s, t, s.calls[t]) && s' == s.(deleted := s'.deleted)
    ensures CallOk(s', t, s.calls[t])
  {
    CallKept(s, s', t, s.calls[t]);
  }

  lemma UnlockKeeps(s: State, t: Handle, outcome: Outcome)
    requires Inv(s) && t in s.calls && s.calls[t].pc == Unlock(outcome) && s.calls[t].held <= |s.calls[t].ids|
    ensures Inv(UnlockStep(s, t, outcome))
  {
    var c := s.calls[t];
    if 0 < c.held {
      ReleaseKeeps(s, t, outcome);
    } else if c.kind.Recovering? && !ShuttingDown(s) && outcome !in {Ok, ErrNotRunning, ErrNotFound, ErrClosed} {
      RetryKeeps(s, t, outcome);
    } else if c.kind.Creating? && outcome !in {Ok, ErrCreate} {
      CleaningKeeps(s, t);
    } else {
      ReturnKeeps(s, t, outcome);
      if IsDeletion(c.kind) && outcome == Ok {
        ReturnedDeletionKeeps(s, t);
      }
    }
  }

  lemma ReturnedDeletionKeeps(s: State, t: Handle)
    requires Inv(s) && t in s.calls && s.calls[t].pc == Unlock(Ok) && IsDeletion(s.calls[t].kind)
    requires Inv(s.(calls := s.calls - {t}))
    ensures Inv(s.(calls := s.calls - {t}, deleted := s.deleted + (set id | id in s.calls[t].ids)))
  {
    assert CallOk(s, t, s.calls[t]);
    DeletedKeeps(s.(calls := s.calls - {t}), s.calls[t].ids);
  }

  lemma AwaitedInv(s: State, s': State, t: Handle)
    requires Inv(s) && t in s.calls && Own(s, s', t) && LockStep(s, s') && LocksOk(s')
    requires s.calls[t].pc == AwaitExit && s'.calls.Keys <= s.calls.Keys && (t in s'.calls ==> CallOk(s', t, s'.calls[t]))
    requires ShuttingDown(s) || (s.calls[t].kind.Recovering? && s.calls[t].kind.worker in s.heap && s.heap[s.calls[t].kind.worker].pc == Exited)
    ensures Inv(s')
  {
    SharedKeepsWorkers(s, s');
    OthersKept(s, s', t);
    forall h | h in s'.heap ensures RecoveryWaits(s', h) {
      assert RecoveryWaits(s, h);
    }
  }

  /** The worker exited and the recovery asks for the lock, or the shutdown ends it. */
  lemma AwaitExitKeeps(s: State, t: Handle, pc: Pc)
    requires Inv(s) && t in s.calls && s.calls[t].pc == AwaitExit && (pc == Acquire || pc == Unlock(ErrOther))
    requires ShuttingDown(s) || (s.calls[t].kind.Recovering? && s.calls[t].kind.worker in s.heap && s.heap[s.calls[t].kind.worker].pc == Exited)
    ensures Inv(Goto(s, t, pc))
  {
    assert CallOk(s, t, s.calls[t]);
    AwaitExitOwn(s, Goto(s, t, pc), t, pc);
    AwaitExitOk(s, Goto(s, t, pc), t, pc);
    AwaitedInv(s, Goto(s, t, pc), t);
  }

  lemma AwaitExitOwn(s: State, s': State, t: Handle, pc: Pc)
    requires LocksOk(s) && t in s.calls && CallShape(s, t, s.calls[t]) && s.calls[t].pc == AwaitExit && s.calls[t].held == 0
    requires s' == Goto(s, t, pc) && (pc == Acquire || pc == Unlock(ErrOther))
    ensures Own(s, s', t) && LocksOk(s')
  {
  }

  lemma AwaitExitOk(s: State, s': State, t: Handle, pc: Pc)
    requires t in s.calls && CallOk(s, t, s.calls[t]) && s.calls[t].pc == AwaitExit
    requires s' == Goto(s, t, pc) && (pc == Acquire || pc == Unlock(ErrOther))
    ensures CallOk(s', t, s'.calls[t])
  {
  }

  predicate Begins(s: State, s': State, kind: Kind, ids: seq<Id>) {
    s' == s.(calls := s.calls[s.next := Call(kind, ids, 0, 0, Acquire)], next := s.next + 1,
             named := s.named + (set id | id in ids))
  }

  lemma BegunTables(s: State, s': State, kind: Kind, ids: seq<Id>)
    requires HandlesOk(s) && LocksOk(s) && RecoveriesWait(s) && RowsOk(s) && SamplesHaveRows(s)
    requires Begins(s, s', kind, ids)
    ensures HandlesOk(s') && LocksOk(s') && RecoveriesWait(s') && RowsOk(s') && SamplesHaveRows(s')
  {
    assert s.next !in s.calls;
    forall h | h in s'.heap ensures RecoveryWaits(s', h) {
      assert RecoveryWaits(s, h);
    }
    forall id | id in s'.rows ensures RowAgrees(s'.rows[id], s'.ticks[id]) {
      assert RowAgrees(s.rows[id], s.ticks[id]);
    }
  }

  predicate Proper(kind: Kind, ids: seq<Id>) {
    !kind.Recovering? && ids != [] && Increasing(ids) && (kind.DeletingMany? || |ids| == 1)
  }

  lemma BegunCallsOk(s: State, s': State, kind: Kind, ids: seq<Id>)
    requires MapOk(s) && MapOk(s') && WorkersOk(s) && HandlesOk(s) && CallsOk(s) && Proper(kind, ids) && Begins(s, s', kind, ids)
    ensures CallsOk(s')
  {
    assert s.next !in s.calls;
    assert CallOk(s', s.next, s'.calls[s.next]);
    forall t | t in s.calls ensures CallOk(s', t, s'.calls[t]) {
      BegunOthersOk(s, s', t);
    }
  }

  lemma BeginKeeps(s: State, kind: Kind, ids: seq<Id>)
    requires Inv(s) && CanBegin(s, kind, ids)
    ensures Inv(Apply(s, Begin(kind, ids)))
  {
    BegunInv(s, Apply(s, Begin(kind, ids)), kind, ids);
  }

  lemma BegunInv(s: State, s': State, kind: Kind, ids: seq<Id>)
    requires Inv(s) && Proper(kind, ids) && Begins(s, s', kind, ids)
    ensures Inv(s')
  {
    SharedKeepsWorkers(s, s');
    BegunTables(s, s', kind, ids);
    BegunCallsOk(s, s', kind, ids);
  }

  lemma BegunOthersOk(s: State, s': State, t: Handle)
    requires MapOk(s) && MapOk(s') && WorkersOk(s) && t in s.calls && CallOk(s, t, s.calls[t])
    requires Shared(s, s') && Grows(s, s') && s'.operations == s.operations && s'.core == s.core && s'.stored == s.stored
    requires s'.closing == s.closing && s'.rootCanceled == s.rootCanceled && s'.now == s.now
    requires forall u | u in s.calls :: u in s'.calls && s'.calls[u] == s.calls[u]
    ensures CallOk(s', t, s.calls[t])
  {
    CallKept(s, s', t, s.calls[t]);
  }
}
