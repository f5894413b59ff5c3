/** What every interleaving of the lifecycle protocol keeps. */
module SupervisorInvariant {
  import opened Common
  import opened SamplingWorker
  import opened Sorting
  import opened Supervisor
  import Store = SessionStore
  import Writer = SampleWriter

  // ----- Workers against rows -----

  /** The worker goroutine is in the supervisor's map. */
  predicate Attached(w: Worker) { w.pc != Removed && w.pc != Exited }

  /** A capped worker outside a tick: it can only finish, never tick again. */
  predicate Idle(w: Worker, now: int) {
    CapReached(w.prepared, now) && (w.pc == Top || w.pc == Finishing || w.pc == Returned)
  }

  predicate InSync(s: State, p: Prepared) {
    && p.session in s.rows && s.rows[p.session].status == Store.Running
    && Synced(p, s.rows[p.session], TicksOf(s, p.session))
  }

  /** A prepared worker that may be run: synced with a running row, or capped and unable to tick. */
  predicate Sound(s: State, p: Prepared) {
    InSync(s, p) || CapReached(p, s.now)
  }

  predicate PreparedOk(s: State, p: Prepared, id: Id) {
    p.session == id && p.identity in s.preparedFor && s.preparedFor[p.identity] == id
  }

  predicate WorkerOk(s: State, h: Handle, w: Worker) {
    && PreparedOk(s, w.prepared, w.session)
    && (Attached(w) ==> w.session in s.workers && s.workers[w.session] == h)
    && (Attached(w) ==> Idle(w, s.now) || InSync(s, w.prepared))
    && (w.pc == Finishing ==> CapReached(w.prepared, s.now))
    && (w.pc == Ticking ==> !SamplesReached(w.prepared))
    && (w.pc.Enqueueing? ==> w.pc.event.session == w.session)
    && (w.pc == Returned || !Attached(w) ==> w.canceled || s.rootCanceled || w.finishedRow)
  }

  predicate WorkersOk(s: State) {
    forall h {:trigger WorkerOk(s, h, s.heap[h])} | h in s.heap :: WorkerOk(s, h, s.heap[h])
  }

  predicate MapOk(s: State) {
    forall id | id in s.workers ::
      s.workers[id] in s.heap && s.heap[s.workers[id]].session == id && Attached(s.heap[s.workers[id]])
  }

  // ----- Samples in flight -----

  predicate EventOf(command: Writer.Command, ids: seq<Id>) {
    command.EventCommand? && command.event.session in ids
  }

  /** No event of these sessions waits in the channel or in the batch. */
  predicate NoneQueued(core: Writer.Core, ids: seq<Id>) {
    && (forall i | 0 <= i < |core.queue| :: !EventOf(core.queue[i], ids))
    && (forall i | 0 <= i < |core.batch| :: core.batch[i].session !in ids)
  }

  predicate NoneStored(s: State, ids: seq<Id>) {
    forall i | 0 <= i < |s.stored| :: s.stored[i].session !in ids
  }

  /** Behind the barrier there is no event of these sessions; once it is answered there is none at all. */
  predicate Fence(core: Writer.Core, barrier: nat, ids: seq<Id>) {
    && (forall i, j | 0 <= i < j < |core.queue| && core.queue[i] == Writer.BarrierCommand(barrier) ::
          !EventOf(core.queue[j], ids))
    && (Answered(core, barrier, true) || Answered(core, barrier, false) || Writer.BarrierCommand(barrier) in core.queue)
    && (Answered(core, barrier, true) || Answered(core, barrier, false) ==> NoneQueued(core, ids))
  }

  /** The session may have samples: it has a row, or a clean-up removed the row and left them. */
  predicate MayHaveSamples(s: State, id: Id) { id in s.rows || id in s.orphans }

  predicate SamplesHaveRows(s: State) {
    && (forall i | 0 <= i < |s.stored| :: MayHaveSamples(s, s.stored[i].session))
    && (forall i | 0 <= i < |s.core.batch| :: MayHaveSamples(s, s.core.batch[i].session))
    && (forall i | 0 <= i < |s.core.queue| && s.core.queue[i].EventCommand? :: MayHaveSamples(s, s.core.queue[i].event.session))
  }

  predicate NoneOrphaned(s: State, ids: seq<Id>) {
    forall i | 0 <= i < |ids| :: ids[i] !in s.orphans
  }

  // ----- Calls -----

  /** No worker of the session can tick: none is owned, or the owned one is capped. */
  predicate Quiet(s: State, id: Id) {
    id in s.workers ==> s.workers[id] in s.heap && Idle(s.heap[s.workers[id]], s.now)
  }

  predicate AllQuiet(s: State, ids: seq<Id>) {
    forall i | 0 <= i < |ids| :: Quiet(s, ids[i])
  }

  /** A recovery goroutine of worker w that has not yet got the session's lock. */
  predicate Pending(s: State, r: Handle, w: Handle) {
    && r in s.calls && s.calls[r].kind == Recovering(w) && s.calls[r].held == 0
    && (s.calls[r].pc == AwaitExit || s.calls[r].pc == Acquire || s.calls[r].pc == Unlock(ErrOther))
  }

  predicate RecoveryScheduled(s: State, w: Handle) {
    w in s.heap && (ShuttingDown(s) || (s.heap[w].recovery.Some? && Pending(s, s.heap[w].recovery.value, w)))
  }

  /** The ownership a failed stop reports, as long as the session's lock is still held. */
  predicate Owned(s: State, id: Id, ownership: Ownership) {
    match ownership
    case Republished(w) => w in s.heap && s.heap[w].session == id && !s.heap[w].canceled
    case RecoveryPending(w) => RecoveryScheduled(s, w) && s.heap[w].session == id
    case FoundStale(read) => read != Some(Store.Running)
  }

  /** The worker a stop picked is still in the map, or it has left and may be handed back. */
  predicate Picked(s: State, id: Id, w: Handle) {
    && w in s.heap && s.heap[w].session == id
    && (!Attached(s.heap[w]) ==> id !in s.workers && Sound(s, s.heap[w].prepared))
  }

  predicate InBody(pc: Pc) { !pc.AwaitExit? && !pc.Acquire? && !pc.Unlock? && !CleansUp(pc) }

  predicate CleansUp(pc: Pc) { pc.CleanStop? || pc.CleanDelete? }

  /** Program points of a call that is stopping or deleting, not restoring. */
  predicate OnTheWay(pc: Pc) {
    pc.DeleteRead? || pc.StopPick? || pc.StopWait? || pc.StopRead? || pc.StopStore?
  }

  /** Calls that run startCurrent on their own behalf. */
  predicate Starts(kind: Kind) { kind.Starting? || kind.Creating? || kind.Recovering? }

  /** What a stop call may report once it had the lock: it always decides about ownership. */
  predicate StopOutcome(outcome: Outcome) {
    outcome.Ok? || outcome.ErrNotRunning? || outcome.ErrNotFound? || outcome.ErrStop? || outcome.ErrRestore?
  }

  predicate PcOk(s: State, c: Call)
    requires c.cur < |c.ids|
  {
    var id := c.ids[c.cur];
    match c.pc
    case AwaitExit => c.held == 0 && c.cur == 0 && c.kind.Recovering?
    case Acquire => c.held < |c.ids| && c.cur == 0
    case CheckMap(restoring) => if restoring then id !in s.workers else Starts(c.kind)
    case ReadRow(restoring) => id !in s.workers && (!restoring ==> Starts(c.kind))
    case Preparing(value, restoring) =>
      && id !in s.workers && (!restoring ==> Starts(c.kind))
      && id in s.rows && s.rows[id] == value && value.status == Store.Running
    case Publishing(p, restoring) =>
      && id !in s.workers && (!restoring ==> Starts(c.kind))
      && PreparedOk(s, p, id) && Sound(s, p)
    case StopPick => true
    case StopWait(w) => Picked(s, id, w)
    case StopDelayed(w) => w in s.heap && s.heap[w].session == id && (s.heap[w].recovery.Some? ==> RecoveryScheduled(s, w))
    case StopRead => id !in s.workers
    case StopStore(source) => id !in s.workers && (source.Some? ==> Picked(s, id, source.value) && s.heap[source.value].pc == Exited)
    case DeleteRead => IsDeletion(c.kind)
    case FlushSend => IsDeletion(c.kind) && AllQuiet(s, c.ids)
    case FlushWait(b) => IsDeletion(c.kind) && AllQuiet(s, c.ids) && Fence(s.core, b, c.ids) && b < s.next
    case DeleteSamples => IsDeletion(c.kind) && AllQuiet(s, c.ids) && NoneQueued(s.core, c.ids)
    case DeleteRows(count) =>
      && IsDeletion(c.kind) && count < |c.ids| && AllQuiet(s, c.ids) && NoneQueued(s.core, c.ids) && NoneStored(s, c.ids)
      && NoneOrphaned(s, c.ids) && forall i | 0 <= i < count :: c.ids[i] !in s.rows
    case Unlock(outcome) =>
      && (outcome == Ok && IsDeletion(c.kind) ==> NoneOrphaned(s, c.ids) && forall i | 0 <= i < |c.ids| :: c.ids[i] !in s.rows)
      && (outcome.ErrStop? && c.held == |c.ids| ==> Owned(s, id, outcome.ownership))
      && (c.kind == Stopping && c.held == |c.ids| ==> StopOutcome(outcome))
    case CleanStop | CleanDelete => c.kind == Creating && c.held == 0
  }

  predicate CallShape(s: State, t: Handle, c: Call) {
    && Increasing(c.ids) && c.held <= |c.ids| && c.cur < |c.ids|
    && (!c.kind.DeletingMany? ==> |c.ids| == 1)
    && (InBody(c.pc) ==> c.held == |c.ids|)
    && (forall i | 0 <= i < |c.ids| :: c.ids[i] in s.named)
    && (forall i | 0 <= i < c.held :: c.ids[i] in s.operations && s.operations[c.ids[i]] == t)
    && (c.kind.Recovering? ==> c.kind.worker in s.heap && c.ids == [s.heap[c.kind.worker].session]
                               && s.heap[c.kind.worker].recovery == Some(t))
    && (IsDeletion(c.kind) && OnTheWay(c.pc) ==> forall i | 0 <= i < c.cur :: Quiet(s, c.ids[i]))
  }

  predicate CallOk(s: State, t: Handle, c: Call) {
    CallShape(s, t, c) && PcOk(s, c)
  }

  predicate CallsOk(s: State) {
    forall t {:trigger CallOk(s, t, s.calls[t])} | t in s.calls :: CallOk(s, t, s.calls[t])
  }

  /** Every lock belongs to a call that holds it. */
  predicate LocksOk(s: State) {
    forall id | id in s.operations ::
      && s.operations[id] in s.calls && s.calls[s.operations[id]].held <= |s.calls[s.operations[id]].ids|
      && id in s.calls[s.operations[id]].ids[..s.calls[s.operations[id]].held]
  }

  /** A scheduled recovery waits until its worker has exited. */
  predicate RecoveryWaits(s: State, h: Handle)
    requires h in s.heap
  {
    s.heap[h].recovery.Some? && s.heap[h].pc != Exited && !ShuttingDown(s) ==>
      && s.heap[h].recovery.value in s.calls
      && s.calls[s.heap[h].recovery.value].kind == Recovering(h)
      && s.calls[s.heap[h].recovery.value].pc == AwaitExit
  }

  predicate RecoveriesWait(s: State) {
    forall h {:trigger RecoveryWaits(s, h)} | h in s.heap :: RecoveryWaits(s, h)
  }

  // ----- Rows against history -----

  ghost predicate RowsOk(s: State) {
    && s.rows.Keys <= s.ticks.Keys <= s.named
    && (forall id {:trigger RowAgrees(s.rows[id], s.ticks[id])} | id in s.rows :: RowAgrees(s.rows[id], s.ticks[id]))
    && s.deleted <= s.named && s.orphans <= s.named
    && s.deleted !! s.rows.Keys && s.orphans !! s.rows.Keys && s.deleted !! s.orphans
  }

  predicate HandlesOk(s: State) {
    && (forall h | h in s.heap :: h < s.next)
    && (forall t | t in s.calls :: t < s.next)
    && (forall p | p in s.preparedFor :: p < s.next)
    && (forall i | 0 <= i < |s.core.log| && s.core.log[i].BarrierAnswered? :: s.core.log[i].barrier < s.next)
    && (forall i | 0 <= i < |s.core.queue| && s.core.queue[i].BarrierCommand? :: s.core.queue[i].barrier < s.next)
  }

  ghost predicate Inv(s: State) {
    && HandlesOk(s)
    && LocksOk(s)
    && MapOk(s)
    && WorkersOk(s)
    && CallsOk(s)
    && RecoveriesWait(s)
    && RowsOk(s)
    && SamplesHaveRows(s)
  }

  lemma InitInv(s: State)
    requires Init(s)
    ensures Inv(s)
  {
  }
}
