/** The clean-up of a request whose session did not start. It stops the row, or else deletes it, without
    the session's operation lock, so it may pull the row from under a worker that somebody else started in
    the meantime. */
module SupervisorCleanUp {
  import opened Common
  import opened SamplingWorker
  import opened Supervisor
  import opened SupervisorInvariant
  import Store = SessionStore

  predicate RowRuns(s: State, id: Id) {
    id in s.rows && s.rows[id].status == Store.Running
  }

  /** The call is about to publish a worker of the session, or may hand back the one it stopped. */
  predicate Publishes(s: State, c: Call, id: Id) {
    && c.cur < |c.ids| && c.ids[c.cur] == id
    && match c.pc
       case Preparing(_, _) => true
       case Publishing(p, _) => !CapReached(p, s.now)
       case StopWait(w) => w in s.heap && !Attached(s.heap[w]) && !CapReached(s.heap[w].prepared, s.now)
       case StopStore(source) => source.Some? && source.value in s.heap && !CapReached(s.heap[source.value].prepared, s.now)
       case _ => false
  }

  /** The session has no owner: no goroutine that could tick, and no call about to publish one. */
  predicate Unowned(s: State, id: Id) {
    && (forall h | h in s.heap && s.heap[h].session == id && Attached(s.heap[h]) :: Idle(s.heap[h], s.now))
    && (forall t {:trigger Publishes(s, s.calls[t], id)} | t in s.calls :: !Publishes(s, s.calls[t], id))
  }

  /** The guard under which a clean-up does no harm: the row does not run, or nobody owns the session. */
  predicate Harmless(s: State, id: Id) {
    RowRuns(s, id) ==> Unowned(s, id)
  }

  /** Who holds the session's operation lock and finds no worker in the map knows the guard to hold. */
  lemma GuardUnderLock(s: State, id: Id, u: Handle)
    requires Inv(s) && id !in s.workers && id in s.operations && s.operations[id] == u && u in s.calls && !InBody(s.calls[u].pc)
    ensures Harmless(s, id)
  {
    forall h | h in s.heap && s.heap[h].session == id ensures !Attached(s.heap[h]) {
      assert WorkerOk(s, h, s.heap[h]);
    }
    forall t | t in s.calls ensures !Publishes(s, s.calls[t], id) {
      assert CallOk(s, t, s.calls[t]);
    }
  }

  // ----- A harmless clean-up -----

  /** One store call of the clean-up of call t: at most its session's row changes. */
  predicate Cleans(s: State, s': State, t: Handle, id: Id, pc: Pc)
    requires t in s.calls
  {
    && s' == s.(calls := s.calls[t := s.calls[t].(pc := pc)], rows := s'.rows, orphans := s'.orphans)
    && (pc == CleanDelete || pc == Unlock(ErrCreate))
    && (s'.rows == s.rows || s'.rows == s.rows - {id}
        || (id in s.rows && s'.rows == s.rows[id := s.rows[id].(status := Store.Stopped)]))
    && s'.orphans == if id in s.rows && id !in s'.rows && Sampled(s, id) then s.orphans + {id} else s.orphans
  }

  lemma SoundStays(s: State, s': State, t: Handle, id: Id, pc: Pc, p: Prepared)
    requires t in s.calls && Cleans(s, s', t, id, pc) && Sound(s, p)
    requires s'.rows == s.rows || p.session != id || !RowRuns(s, id) || CapReached(p, s.now)
    ensures Sound(s', p)
  {
  }

  lemma WorkersStay(s: State, s': State, t: Handle, id: Id, pc: Pc)
    requires MapOk(s) && WorkersOk(s) && t in s.calls && Cleans(s, s', t, id, pc) && (s'.rows == s.rows || Harmless(s, id))
    ensures MapOk(s') && WorkersOk(s')
  {
    forall h | h in s'.heap ensures WorkerOk(s', h, s'.heap[h]) {
      assert WorkerOk(s, h, s.heap[h]);
    }
  }

  lemma ShapeStays(s: State, s': State, t: Handle, id: Id, pc: Pc, u: Handle)
    requires t in s.calls && Cleans(s, s', t, id, pc) && u in s.calls && CallShape(s, u, s.calls[u])
    ensures CallShape(s', u, s.calls[u])
  {
  }

  lemma RecoveryStays(s: State, s': State, t: Handle, id: Id, pc: Pc, w: Handle)
    requires t in s.calls && s.calls[t].kind == Creating && Cleans(s, s', t, id, pc) && RecoveryScheduled(s, w)
    ensures RecoveryScheduled(s', w)
  {
  }

  /** The claims that rest on the row. */
  predicate OnTheRow(pc: Pc) { pc.Preparing? || pc.Publishing? || pc.StopWait? || pc.StopStore? }

  lemma RowClaimsStay(s: State, s': State, t: Handle, id: Id, pc: Pc, c: Call)
    requires t in s.calls && Cleans(s, s', t, id, pc) && WorkersOk(s)
    requires c.cur < |c.ids| && PcOk(s, c) && OnTheRow(c.pc)
    requires s'.rows == s.rows || !RowRuns(s, id) || !Publishes(s, c, id)
    ensures PcOk(s', c)
  {
    match c.pc
    case Publishing(p, _) => SoundStays(s, s', t, id, pc, p);
    case StopWait(w) =>
      assert WorkerOk(s, w, s.heap[w]);
      if !Attached(s.heap[w]) {
        SoundStays(s, s', t, id, pc, s.heap[w].prepared);
      }
    case StopStore(source) =>
      if source.Some? {
        assert WorkerOk(s, source.value, s.heap[source.value]);
        SoundStays(s, s', t, id, pc, s.heap[source.value].prepared);
      }
    case _ =>
  }

  predicate OnSamples(pc: Pc) { pc.DeleteRows? || pc.DeleteSamples? || pc.FlushSend? || pc.FlushWait? }

  lemma SampleClaimsStay(s: State, s': State, t: Handle, id: Id, pc: Pc, c: Call)
    requires t in s.calls && Cleans(s, s', t, id, pc)
    requires c.cur < |c.ids| && PcOk(s, c) && OnSamples(c.pc)
    ensures PcOk(s', c)
  {
    if c.pc.DeleteRows? && Sampled(s, id) {
      assert forall i | 0 <= i < |s.core.queue| :: !EventOf(s.core.queue[i], c.ids);
    }
  }

  lemma OtherClaimsStay(s: State, s': State, t: Handle, id: Id, pc: Pc, c: Call)
    requires t in s.calls && s.calls[t].kind == Creating && Cleans(s, s', t, id, pc)
    requires c.cur < |c.ids| && PcOk(s, c) && !OnTheRow(c.pc) && !OnSamples(c.pc)
    ensures PcOk(s', c)
  {
    match c.pc
    case StopDelayed(w) =>
      if s.heap[w].recovery.Some? {
        RecoveryStays(s, s', t, id, pc, w);
      }
    case Unlock(outcome) =>
      if outcome.ErrStop? && c.held == |c.ids| && outcome.ownership.RecoveryPending? {
        RecoveryStays(s, s', t, id, pc, outcome.ownership.worker);
      }
    case _ =>
  }

  lemma CallStays(s: State, s': State, t: Handle, id: Id, pc: Pc, u: Handle)
    requires WorkersOk(s) && t in s.calls && s.calls[t].kind == Creating && Cleans(s, s', t, id, pc)
    requires u in s.calls && CallOk(s, u, s.calls[u]) && (s'.rows == s.rows || Harmless(s, id))
    ensures CallOk(s', u, s.calls[u])
  {
    var c := s.calls[u];
    ShapeStays(s, s', t, id, pc, u);
    if OnTheRow(c.pc) {
      RowClaimsStay(s, s', t, id, pc, c);
    } else if OnSamples(c.pc) {
      SampleClaimsStay(s, s', t, id, pc, c);
    } else {
      OtherClaimsStay(s, s', t, id, pc, c);
    }
  }

  lemma OwnClaims(s: State, s': State, t: Handle, id: Id, pc: Pc)
    requires t in s.calls && CallOk(s, t, s.calls[t]) && CleansUp(s.calls[t].pc) && Cleans(s, s', t, id, pc)
    ensures CallOk(s', t, s'.calls[t])
  {
  }

  lemma RowsStay(s: State, s': State, t: Handle, id: Id, pc: Pc)
    requires RowsOk(s) && t in s.calls && Cleans(s, s', t, id, pc)
    ensures RowsOk(s')
  {
    forall x | x in s'.rows ensures RowAgrees(s'.rows[x], s'.ticks[x]) {
      assert RowAgrees(s.rows[x], s.ticks[x]);
    }
  }

  lemma SamplesStay(s: State, s': State, t: Handle, id: Id, pc: Pc)
    requires SamplesHaveRows(s) && t in s.calls && Cleans(s, s', t, id, pc)
    ensures SamplesHaveRows(s')
  {
  }

  lemma TablesStay(s: State, s': State, t: Handle, id: Id, pc: Pc)
    requires HandlesOk(s) && LocksOk(s) && RecoveriesWait(s)
    requires t in s.calls && s.calls[t].kind == Creating && Cleans(s, s', t, id, pc)
    ensures HandlesOk(s') && LocksOk(s') && RecoveriesWait(s')
  {
    forall h | h in s'.heap ensures RecoveryWaits(s', h) {
      assert RecoveryWaits(s, h);
    }
  }

  lemma CleanedCalls(s: State, s': State, t: Handle, id: Id, pc: Pc)
    requires WorkersOk(s) && CallsOk(s) && t in s.calls && CleansUp(s.calls[t].pc) && Cleans(s, s', t, id, pc)
    requires s'.rows == s.rows || Harmless(s, id)
    ensures CallsOk(s')
  {
    assert CallOk(s, t, s.calls[t]);
    OwnClaims(s, s', t, id, pc);
    forall u | u in s'.calls && u != t ensures CallOk(s', u, s'.calls[u]) {
      CallStays(s, s', t, id, pc, u);
    }
  }

  lemma CleanedInv(s: State, s': State, t: Handle, id: Id, pc: Pc)
    requires Inv(s) && t in s.calls && CleansUp(s.calls[t].pc) && Cleans(s, s', t, id, pc)
    requires s'.rows == s.rows || Harmless(s, id)
    ensures Inv(s')
  {
    assert CallOk(s, t, s.calls[t]);
    WorkersStay(s, s', t, id, pc);
    CleanedCalls(s, s', t, id, pc);
    RowsStay(s, s', t, id, pc);
    SamplesStay(s, s', t, id, pc);
    TablesStay(s, s', t, id, pc);
  }

  // ----- A harmful one -----

  lemma HarmedWorker(s: State, s': State, id: Id, h: Handle)
    requires h in s.heap && s'.heap == s.heap && s'.now == s.now && !RowRuns(s', id)
    requires s.heap[h].session == id && Attached(s.heap[h]) && !Idle(s.heap[h], s.now)
    ensures !Inv(s')
  {
    assert !WorkerOk(s', h, s'.heap[h]);
  }

  lemma HarmedClaims(s: State, id: Id, c: Call)
    requires WorkersOk(s) && !RowRuns(s, id) && Publishes(s, c, id)
    ensures !PcOk(s, c)
  {
    match c.pc
    case StopWait(w) => assert WorkerOk(s, w, s.heap[w]);
    case StopStore(source) => assert WorkerOk(s, source.value, s.heap[source.value]);
    case _ =>
  }

  lemma HarmedCall(s: State, id: Id, u: Handle)
    requires u in s.calls && !RowRuns(s, id) && Publishes(s, s.calls[u], id)
    ensures !Inv(s)
  {
    if WorkersOk(s) {
      HarmedClaims(s, id, s.calls[u]);
      assert !CallOk(s, u, s.calls[u]);
    }
  }

  lemma HarmBreaks(s: State, s': State, t: Handle, id: Id, pc: Pc)
    requires t in s.calls && CleansUp(s.calls[t].pc) && Cleans(s, s', t, id, pc)
    requires RowRuns(s, id) && !Unowned(s, id) && s'.rows != s.rows
    ensures !Inv(s')
  {
    if h :| h in s.heap && s.heap[h].session == id && Attached(s.heap[h]) && !Idle(s.heap[h], s.now) {
      HarmedWorker(s, s', id, h);
    } else {
      var u :| u in s.calls && Publishes(s, s.calls[u], id);
      HarmedCall(s', id, u);
    }
  }

  /** Exactly when one store call of a clean-up does no harm. */
  lemma CleanedExactly(s: State, s': State, t: Handle, id: Id, pc: Pc)
    requires Inv(s) && t in s.calls && CleansUp(s.calls[t].pc) && Cleans(s, s', t, id, pc)
    requires RowRuns(s, id) ==> s'.rows != s.rows
    ensures Inv(s') <==> Harmless(s, id)
  {
    if Harmless(s, id) {
      CleanedInv(s, s', t, id, pc);
    } else {
      HarmBreaks(s, s', t, id, pc);
    }
  }

  lemma CleanStopIs(s: State, t: Handle, id: Id)
    requires t in s.calls
    ensures Cleans(s, CleanStopStep(s, t, id), t, id, if RowRuns(s, id) then Unlock(ErrCreate) else CleanDelete)
    ensures RowRuns(s, id) ==> CleanStopStep(s, t, id).rows[id] != s.rows[id]
  {
  }

  lemma CleanDeleteIs(s: State, t: Handle, id: Id)
    requires t in s.calls
    ensures Cleans(s, CleanDeleteStep(s, t, id), t, id, Unlock(ErrCreate))
    ensures id !in CleanDeleteStep(s, t, id).rows
  {
  }

  /** Exactly when a clean-up does no harm: its action keeps the protocol's invariant if and only if the
      row does not run or nobody owns the session. */
  lemma CleanUpKeepsInv(s: State, t: Handle)
    requires Inv(s) && CanStep(s, t) && CleansUp(s.calls[t].pc)
    ensures Inv(Advance(s, t)) <==> Harmless(s, s.calls[t].ids[s.calls[t].cur])
  {
    var id := s.calls[t].ids[s.calls[t].cur];
    if s.calls[t].pc.CleanStop? {
      CleanStopIs(s, t, id);
      CleanedExactly(s, CleanStopStep(s, t, id), t, id, if RowRuns(s, id) then Unlock(ErrCreate) else CleanDelete);
    } else {
      CleanDeleteIs(s, t, id);
      CleanedExactly(s, CleanDeleteStep(s, t, id), t, id, Unlock(ErrCreate));
    }
  }

  lemma FailedCleanUpKeepsInv(s: State, t: Handle)
    requires Inv(s) && CanFail(s, t) && CleansUp(s.calls[t].pc)
    ensures Inv(Fail(s, t))
  {
    assert CallOk(s, t, s.calls[t]);
    CleanedInv(s, Fail(s, t), t, s.calls[t].ids[0], Fail(s, t).calls[t].pc);
  }
}
