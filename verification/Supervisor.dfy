/** The lifecycle protocol as a state machine: the supervisor's calls, the worker goroutines, the
    writer goroutine, the control rows and ClickHouse, interleaved one atomic action at a time. An
    action is one critical section under the supervisor's mutex, one store call, one channel
    operation, or goroutine-local work between two of those. */
module Supervisor {
  import opened Common
  import opened Samples
  import opened SamplingWorker
  import opened Sorting
  import Store = SessionStore
  import Writer = SampleWriter

  /** Names goroutines, calls, prepared workers and barriers; never reused. */
  type Handle = nat

  /** Where a worker goroutine is. Returned: Run is over, the map entry is not yet removed.
      Removed: the entry is gone, done is not yet closed. Exited: done is closed. */
  datatype WorkerPc =
    | Top
    | Ticking
    | Enqueueing(event: Writer.Event)
    | Resting(persisted: bool)
    | Finishing
    | Returned
    | Removed
    | Exited

  /** A runningWorker with its goroutine. recovery names the recovery goroutine once scheduled;
      finishedRow remembers that this goroutine moved its row to finished. */
  datatype Worker = Worker(
    session: Id,
    prepared: Prepared,
    canceled: bool,
    pc: WorkerPc,
    finishedRow: bool,
    recovery: Option<Handle>)

  /** Creating is the request that made the session and now starts it. */
  datatype Kind = Starting | Creating | Stopping | Deleting | DeletingMany | Recovering(worker: Handle)

  /** How a failed stop left the session owned. FoundStale keeps what the restoring read saw: no row, or
      a row with this status. */
  datatype Ownership = Republished(worker: Handle) | RecoveryPending(worker: Handle) | FoundStale(read: Option<Store.Status>)

  datatype Outcome =
    | Ok
    | ErrNotRunning
    | ErrNotFound
    | ErrClosed
    | ErrOther
    | ErrStop(ownership: Ownership)
    | ErrRestore
    | ErrCreate

  /** Where a call is. restoring marks startCurrent or publishPrepared run on behalf of a failed stop.
      CleanStop and CleanDelete are the two store calls of a request whose session did not start; they
      hold no lock. */
  datatype Pc =
    | AwaitExit
    | Acquire
    | CheckMap(restoring: bool)
    | ReadRow(restoring: bool)
    | Preparing(value: Store.Row, restoring: bool)
    | Publishing(prepared: Prepared, restoring: bool)
    | StopPick
    | StopWait(worker: Handle)
    | StopDelayed(worker: Handle)
    | StopRead
    | StopStore(source: Option<Handle>)
    | DeleteRead
    | FlushSend
    | FlushWait(barrier: nat)
    | DeleteSamples
    | DeleteRows(count: nat)
    | Unlock(outcome: Outcome)
    | CleanStop
    | CleanDelete

  /** A call in progress: it holds the operation locks of ids[..held] and is busy with ids[cur]. */
  datatype Call = Call(kind: Kind, ids: seq<Id>, held: nat, cur: nat, pc: Pc)

  datatype State = State(
    // durable
    rows: Store.Table,
    stored: seq<Writer.Event>,
    // history: the ticks ever committed for a session, the session each PreparedWorker was prepared
    // for, the ids ever used, the ids deleted by a call that returned nil, the ids whose row a clean-up
    // removed while samples of theirs were left and not purged since
    ticks: map<Id, seq<Tick>>,
    preparedFor: map<Handle, Id>,
    named: set<Id>,
    deleted: set<Id>,
    orphans: set<Id>,
    // process memory
    core: Writer.Core,
    heap: map<Handle, Worker>,
    workers: map<Id, Handle>,
    operations: map<Id, Handle>,
    calls: map<Handle, Call>,
    closing: bool,
    rootCanceled: bool,
    // environment
    now: int,
    next: Handle,
    capacity: nat,
    batchSize: nat)

  function TicksOf(s: State, id: Id): seq<Tick> {
    if id in s.ticks then s.ticks[id] else []
  }

  predicate ShuttingDown(s: State) { s.closing || s.rootCanceled }

  predicate Answered(core: Writer.Core, barrier: nat, ok: bool) {
    Writer.BarrierAnswered(barrier, ok) in core.log
  }

  datatype Step =
    | Create(id: Id, maxSamples: Option<int>, maxDuration: Option<int>, startedAt: int, alone: bool)
    | ReenableRow(id: Id)
    | AdvanceClock(delta: nat)
    | CancelRoot
    | Close
    | Crash
    | WriterReceive(sent: bool, landed: bool)
    | WriterTick(sent: bool, landed: bool)
    | WorkerTop(w: Handle)
    | WorkerTick(w: Handle, sample: Sample, saved: bool)
    | WorkerEnqueue(w: Handle, accepting: bool)
    | WorkerRest(w: Handle)
    | WorkerFinish(w: Handle, reached: bool)
    | WorkerRemove(w: Handle)
    | WorkerExit(w: Handle)
    | Begin(kind: Kind, ids: seq<Id>)
    | CallStep(t: Handle)
    | CallFails(t: Handle)

  // ----- Workers -----

  predicate Halted(s: State, w: Worker) { w.canceled || s.rootCanceled }

  function SetWorker(s: State, w: Handle, worker: Worker): State {
    s.(heap := s.heap[w := worker])
  }

  function GoWorker(s: State, w: Handle, pc: WorkerPc): State
    requires w in s.heap
  {
    SetWorker(s, w, s.heap[w].(pc := pc))
  }

  /** Top of Run's loop, and the cap test after a tick: cancellation first, then the cap. */
  function TopStep(s: State, w: Handle): State
    requires w in s.heap
  {
    var worker := s.heap[w];
    if Halted(s, worker) then GoWorker(s, w, Returned)
    else if CapReached(worker.prepared, s.now) then GoWorker(s, w, Finishing)
    else GoWorker(s, w, Ticking)
  }

  function RestStep(s: State, w: Handle, persisted: bool): State
    requires w in s.heap
  {
    var worker := s.heap[w];
    if Halted(s, worker) then GoWorker(s, w, Returned)
    else if persisted && CapReached(worker.prepared, s.now) then GoWorker(s, w, Finishing)
    else GoWorker(s, w, Top)
  }

  /** The rest of tick after probing and enrichment: save, then update memory. A save that fails or
      that the foreign key rejects leaves everything as it was. */
  function TickStep(s: State, w: Handle, sample: Sample, saved: bool): State
    requires w in s.heap
  {
    var worker := s.heap[w];
    var p := worker.prepared;
    var rows := Store.SaveTick(s.rows, worker.session, NextSnapshot(p, sample), sample.ipHits);
    if !saved || rows.None? then GoWorker(s, w, Resting(false))
    else
      var committed := SetWorker(s, w, worker.(prepared := AfterTick(p, sample), pc := Enqueueing(TickEvent(p, sample))));
      if worker.session in s.rows
      then committed.(rows := rows.value,
                      ticks := s.ticks[worker.session := TicksOf(s, worker.session) + [Committed(p, sample)]])
      else committed
  }

  /** Enqueue: an invalid event, a closing writer or a full queue drops the event. */
  function EnqueueStep(s: State, w: Handle, event: Writer.Event, accepting: bool): State
    requires w in s.heap
  {
    var after := GoWorker(s, w, Resting(true));
    if accepting && Writer.ValidEvent(event)
    then after.(core := Writer.Offer(s.core, Writer.EventCommand(event), s.capacity).0)
    else after
  }

  function FinishStep(s: State, w: Handle, reached: bool): State
    requires w in s.heap
  {
    var worker := s.heap[w];
    var (rows, result) := Store.Finish(s.rows, worker.session);
    if reached && result.Done? then
      SetWorker(s, w, worker.(pc := Returned, finishedRow := true)).(rows := rows)
    else if Halted(s, worker) then GoWorker(s, w, Returned)
    else s
  }

  function RemoveStep(s: State, w: Handle): State
    requires w in s.heap
  {
    var id := s.heap[w].session;
    var after := GoWorker(s, w, Removed);
    if id in s.workers && s.workers[id] == w then after.(workers := s.workers - {id}) else after
  }

  // ----- Calls -----

  function SetCall(s: State, t: Handle, c: Call): State {
    s.(calls := s.calls[t := c])
  }

  function Goto(s: State, t: Handle, pc: Pc): State
    requires t in s.calls
  {
    SetCall(s, t, s.calls[t].(pc := pc))
  }

  function Entry(kind: Kind): Pc {
    match kind
    case Starting | Creating | Recovering(_) => CheckMap(false)
    case Stopping => StopPick
    case Deleting | DeletingMany => DeleteRead
  }

  predicate IsDeletion(kind: Kind) { kind.Deleting? || kind.DeletingMany? }

  /** withSessionOperation, once per id: closed, or the lock is free and taken. */
  function AcquireStep(s: State, t: Handle): State
    requires t in s.calls && s.calls[t].held < |s.calls[t].ids|
  {
    var c := s.calls[t];
    if s.closing then Goto(s, t, Unlock(ErrClosed))
    else
      var held := c.held + 1;
      SetCall(s, t, c.(held := held, pc := if held == |c.ids| then Entry(c.kind) else Acquire))
        .(operations := s.operations[c.ids[c.held] := t])
  }

  /** Where startCurrent goes when it failed. */
  function StartFailed(restoring: bool, outcome: Outcome): Pc {
    Unlock(if restoring then ErrRestore else outcome)
  }

  /** Where it goes when the row was read as absent or not running. */
  function StartStale(restoring: bool, outcome: Outcome, read: Option<Store.Status>): Pc {
    Unlock(if restoring then ErrStop(FoundStale(read)) else outcome)
  }

  function AfterCheckMap(s: State, id: Id, restoring: bool): Pc {
    if id !in s.workers then ReadRow(restoring)
    else Unlock(if restoring then ErrStop(Republished(s.workers[id])) else Ok)
  }

  function AfterReadRow(rows: Store.Table, id: Id, restoring: bool): Pc {
    if id !in rows then StartStale(restoring, ErrNotFound, None)
    else if rows[id].status != Store.Running then StartStale(restoring, ErrNotRunning, Some(rows[id].status))
    else Preparing(rows[id], restoring)
  }

  function PreparingStep(s: State, t: Handle, id: Id, value: Store.Row, restoring: bool): State
    requires t in s.calls
  {
    var seen := if id in s.rows then s.rows[id].ips.Keys else {};
    Goto(s, t, Publishing(Prepare(s.next, id, value, seen), restoring))
      .(preparedFor := s.preparedFor[s.next := id], next := s.next + 1)
  }

  /** publishPrepared: the checks and the insertion are one critical section. */
  function PublishStep(s: State, t: Handle, id: Id, prepared: Prepared, restoring: bool): State
    requires t in s.calls
  {
    if s.closing then Goto(s, t, StartFailed(restoring, ErrClosed))
    else if s.rootCanceled then Goto(s, t, StartFailed(restoring, ErrOther))
    else if id in s.workers then Goto(s, t, AfterCheckMap(s, id, restoring))
    else
      Goto(s, t, Unlock(if restoring then ErrStop(Republished(s.next)) else Ok))
        .(heap := s.heap[s.next := Worker(id, prepared, false, Top, false, None)],
          workers := s.workers[id := s.next], next := s.next + 1)
  }

  /** A deletion goes on to its next child, or to the barrier. */
  function NextChild(c: Call): Call {
    if c.cur + 1 < |c.ids| then c.(cur := c.cur + 1, pc := DeleteRead) else c.(pc := FlushSend)
  }

  /** Stop returned to its caller with nil, not-running or not-found. A deletion goes on after the first two. */
  function StopReturned(c: Call, outcome: Outcome): Call {
    if IsDeletion(c.kind) && outcome != ErrNotFound then NextChild(c) else c.(pc := Unlock(outcome))
  }

  function StopPickStep(s: State, t: Handle, id: Id): State
    requires t in s.calls
  {
    if id in s.workers && s.workers[id] in s.heap then
      var w := s.workers[id];
      SetWorker(Goto(s, t, StopWait(w)), w, s.heap[w].(canceled := true))
    else Goto(s, t, StopRead)
  }

  function AfterStopRead(rows: Store.Table, c: Call, id: Id): Call {
    if id !in rows then StopReturned(c, ErrNotFound)
    else if rows[id].status != Store.Running then StopReturned(c, ErrNotRunning)
    else c.(pc := StopStore(None))
  }

  function StopStoreStep(s: State, t: Handle, id: Id): State
    requires t in s.calls
  {
    var (rows, result) := Store.Stop(s.rows, id);
    SetCall(s, t, StopReturned(s.calls[t], if result.Done? then Ok else ErrNotRunning)).(rows := rows)
  }

  /** The stop gave up: hand the exited worker back, or start a new one. */
  function Restore(heap: map<Handle, Worker>, source: Option<Handle>): Pc {
    if source.Some? && source.value in heap then Publishing(heap[source.value].prepared, true) else CheckMap(true)
  }

  /** scheduleRecovery: at most one recovery goroutine per worker. */
  function ScheduleStep(s: State, t: Handle, w: Handle): State
    requires t in s.calls && w in s.heap
  {
    if s.heap[w].recovery.Some? then Goto(s, t, Unlock(ErrStop(RecoveryPending(w))))
    else if ShuttingDown(s) then Goto(s, t, Unlock(ErrRestore))
    else
      var marked := SetWorker(Goto(s, t, Unlock(ErrStop(RecoveryPending(w)))), w, s.heap[w].(recovery := Some(s.next)));
      SetCall(marked, s.next, Call(Recovering(w), [s.heap[w].session], 0, 0, AwaitExit)).(next := s.next + 1)
  }

  function AfterDeleteRead(rows: Store.Table, c: Call, id: Id): Call {
    if id !in rows then (if c.kind.DeletingMany? then NextChild(c) else c.(pc := Unlock(ErrNotFound)))
    else if rows[id].status == Store.Running then c.(pc := StopPick)
    else NextChild(c)
  }

  function FlushSendStep(s: State, t: Handle): State
    requires t in s.calls
  {
    Goto(s, t, FlushWait(s.next))
      .(core := Writer.Offer(s.core, Writer.BarrierCommand(s.next), s.capacity).0, next := s.next + 1)
  }

  /** ALTER TABLE ... DELETE WHERE session_id IN (ids), synchronously. */
  function Without(stored: seq<Writer.Event>, ids: seq<Id>): (r: seq<Writer.Event>)
    ensures forall e | e in r :: e in stored && e.session !in ids
    ensures forall e | e in stored && e.session !in ids :: e in r
  {
    if stored == [] then []
    else Without(stored[..|stored| - 1], ids)
         + (if stored[|stored| - 1].session in ids then [] else [stored[|stored| - 1]])
  }

  function DeleteRowStep(s: State, t: Handle, count: nat): State
    requires t in s.calls && count < |s.calls[t].ids|
  {
    var c := s.calls[t];
    Goto(s, t, if count + 1 == |c.ids| then Unlock(Ok) else DeleteRows(count + 1)).(rows := s.rows - {c.ids[count]})
  }

  /** The purge leaves no sample of its sessions behind. */
  function PurgeStep(s: State, t: Handle): State
    requires t in s.calls
  {
    var ids := s.calls[t].ids;
    Goto(s, t, DeleteRows(0)).(stored := Without(s.stored, ids), orphans := s.orphans - (set id | id in ids))
  }

  /** The request that made the session failed to start it, and stops the row, ... */
  function CleanStopStep(s: State, t: Handle, id: Id): State
    requires t in s.calls
  {
    var (rows, result) := Store.Stop(s.rows, id);
    Goto(s, t, if result.Done? then Unlock(ErrCreate) else CleanDelete).(rows := rows)
  }

  /** A sample of the session is stored, batched or queued. */
  predicate Sampled(s: State, id: Id) {
    || (exists i | 0 <= i < |s.stored| :: s.stored[i].session == id)
    || (exists i | 0 <= i < |s.core.batch| :: s.core.batch[i].session == id)
    || (exists i | 0 <= i < |s.core.queue| :: s.core.queue[i].EventCommand? && s.core.queue[i].event.session == id)
  }

  /** ... or else deletes it, whatever happened to it since. */
  function CleanDeleteStep(s: State, t: Handle, id: Id): State
    requires t in s.calls
  {
    Goto(s, t, Unlock(ErrCreate))
      .(rows := s.rows - {id}, orphans := if id in s.rows && Sampled(s, id) then s.orphans + {id} else s.orphans)
  }

  /** Locks are released innermost first; then the call returns, except that a recovery retries and that
      a request whose session did not start cleans up. */
  function UnlockStep(s: State, t: Handle, outcome: Outcome): State
    requires t in s.calls && s.calls[t].held <= |s.calls[t].ids|
  {
    var c := s.calls[t];
    if 0 < c.held then
      var id := c.ids[c.held - 1];
      s.(calls := s.calls[t := c.(held := c.held - 1)],
         operations := if id in s.operations && s.operations[id] == t then s.operations - {id} else s.operations)
    else if c.kind.Recovering? && !ShuttingDown(s) && outcome !in {Ok, ErrNotRunning, ErrNotFound, ErrClosed} then
      Goto(s, t, Acquire)
    else if c.kind.Creating? && outcome !in {Ok, ErrCreate} then
      Goto(s, t, CleanStop)
    else
      s.(calls := s.calls - {t},
         deleted := if IsDeletion(c.kind) && outcome == Ok then s.deleted + (set id | id in c.ids) else s.deleted)
  }

  /** May the call act? A wait is enabled only once it is over. */
  predicate CanStep(s: State, t: Handle) {
    t in s.calls && var c := s.calls[t];
    && c.held <= |c.ids| && c.cur < |c.ids|
    && match c.pc
       case AwaitExit => c.kind.Recovering? && c.kind.worker in s.heap && s.heap[c.kind.worker].pc == Exited
       case Acquire => c.held < |c.ids| && (s.closing || c.ids[c.held] !in s.operations)
       case StopWait(w) => w in s.heap && s.heap[w].pc == Exited
       case StopDelayed(w) => w in s.heap
       case FlushSend => |s.core.queue| < s.capacity
       case FlushWait(b) => Answered(s.core, b, true) || Answered(s.core, b, false)
       case DeleteRows(count) => count < |c.ids|
       case _ => true
  }

  function Advance(s: State, t: Handle): State
    requires CanStep(s, t)
  {
    var c := s.calls[t];
    var id := c.ids[c.cur];
    match c.pc
    case AwaitExit => Goto(s, t, Acquire)
    case Acquire => AcquireStep(s, t)
    case CheckMap(restoring) => Goto(s, t, AfterCheckMap(s, id, restoring))
    case ReadRow(restoring) => Goto(s, t, AfterReadRow(s.rows, id, restoring))
    case Preparing(value, restoring) => PreparingStep(s, t, id, value, restoring)
    case Publishing(prepared, restoring) => PublishStep(s, t, id, prepared, restoring)
    case StopPick => StopPickStep(s, t, id)
    case StopWait(w) => Goto(s, t, StopStore(Some(w)))
    case StopDelayed(w) => ScheduleStep(s, t, w)
    case StopRead => SetCall(s, t, AfterStopRead(s.rows, c, id))
    case StopStore(_) => StopStoreStep(s, t, id)
    case DeleteRead => SetCall(s, t, AfterDeleteRead(s.rows, c, id))
    case FlushSend => FlushSendStep(s, t)
    case FlushWait(b) =>
      if Answered(s.core, b, true) then Goto(s, t, DeleteSamples) else Goto(s, t, Unlock(ErrOther))
    case DeleteSamples => PurgeStep(s, t)
    case DeleteRows(count) => DeleteRowStep(s, t, count)
    case Unlock(outcome) => UnlockStep(s, t, outcome)
    case CleanStop => CleanStopStep(s, t, id)
    case CleanDelete => CleanDeleteStep(s, t, id)
  }

  /** A deadline passes, a store call fails without effect, the writer refuses the barrier, or a waiting
      recovery notices the shutdown. */
  predicate CanFail(s: State, t: Handle) {
    t in s.calls && var pc := s.calls[t].pc;
    match pc
    case AwaitExit => ShuttingDown(s)
    case CheckMap(_) | Publishing(_, _) | StopPick | StopDelayed(_) | Unlock(_) => false
    case StopWait(w) => w in s.heap && s.heap[w].pc != Exited
    case _ => true
  }

  function AfterFailure(heap: map<Handle, Worker>, pc: Pc): Pc {
    match pc
    case ReadRow(restoring) => StartFailed(restoring, ErrOther)
    case Preparing(_, restoring) => StartFailed(restoring, ErrOther)
    case StopWait(w) => StopDelayed(w)
    case StopRead => CheckMap(true)
    case StopStore(source) => Restore(heap, source)
    case CleanStop => CleanDelete
    case CleanDelete => Unlock(ErrCreate)
    case _ => Unlock(ErrOther)
  }

  function Fail(s: State, t: Handle): State
    requires CanFail(s, t)
  {
    Goto(s, t, AfterFailure(s.heap, s.calls[t].pc))
  }

  // ----- The machine -----

  predicate Init(s: State) {
    && s.rows == map[] && s.stored == [] && s.ticks == map[] && s.preparedFor == map[] && s.named == {} && s.deleted == {} && s.orphans == {}
    && s.core == Writer.EMPTY && s.heap == map[] && s.workers == map[] && s.operations == map[]
    && s.calls == map[] && !s.closing && !s.rootCanceled && 0 < s.batchSize
  }

  predicate CanBegin(s: State, kind: Kind, ids: seq<Id>) {
    && !kind.Recovering? && !kind.Creating? && ids != [] && Increasing(ids) && (kind.DeletingMany? || |ids| == 1)
  }

  function WithCreator(s: State, id: Id): State {
    SetCall(s, s.next, Call(Creating, [id], 0, 0, Acquire)).(next := s.next + 1)
  }

  /** A new row; the session of a request of its own is then started by that request, a run starts its
      children with ordinary calls. */
  function CreateStep(s: State, id: Id, row: Store.Row, alone: bool): State {
    var created := s.(rows := s.rows[id := row], ticks := s.ticks[id := []], named := s.named + {id});
    if alone then WithCreator(created, id) else created
  }

  ghost predicate Enabled(s: State, step: Step) {
    match step
    case Create(id, maxSamples, _, _, _) => id !in s.named && (maxSamples.Some? ==> 0 < maxSamples.value)
    case ReenableRow(_) => true
    case AdvanceClock(_) => true
    case CancelRoot => true
    case Close => true
    case Crash => true
    case WriterReceive(sent, landed) => s.core.queue != [] && (sent ==> landed)
    case WriterTick(sent, landed) => sent ==> landed
    case WorkerTop(w) => w in s.heap && s.heap[w].pc == Top
    case WorkerTick(w, sample, _) =>
      w in s.heap && s.heap[w].pc == Ticking && Tallied(sample, s.heap[w].prepared.seen)
    case WorkerEnqueue(w, _) => w in s.heap && s.heap[w].pc.Enqueueing?
    case WorkerRest(w) => w in s.heap && s.heap[w].pc.Resting?
    case WorkerFinish(w, _) => w in s.heap && s.heap[w].pc == Finishing
    case WorkerRemove(w) => w in s.heap && s.heap[w].pc == Returned
    case WorkerExit(w) => w in s.heap && s.heap[w].pc == Removed
    case Begin(kind, ids) => CanBegin(s, kind, ids)
    case CallStep(t) => CanStep(s, t)
    case CallFails(t) => CanFail(s, t)
  }

  ghost function Apply(s: State, step: Step): State
    requires Enabled(s, step)
  {
    match step
    case Create(id, maxSamples, maxDuration, startedAt, alone) =>
      CreateStep(s, id, Store.Row(Store.Running, 0, 0, maxSamples, maxDuration, Some(startedAt), 0, 0, map[]), alone)
    case ReenableRow(id) => s.(rows := Store.Reenable(s.rows, id, s.now).0)
    case AdvanceClock(delta) => s.(now := s.now + delta)
    case CancelRoot => s.(rootCanceled := true)
    case Close => s.(closing := true)
    case Crash =>
      s.(core := Writer.EMPTY, heap := map[], workers := map[], operations := map[], calls := map[],
         closing := false, rootCanceled := false)
    case WriterReceive(sent, landed) =>
      s.(core := Writer.Receive(s.core, sent, s.batchSize),
         stored := s.stored + (if landed then Writer.Handed(s.core, s.batchSize) else []))
    case WriterTick(sent, landed) =>
      s.(core := Writer.Flush(s.core, sent), stored := s.stored + (if landed then s.core.batch else []))
    case WorkerTop(w) => TopStep(s, w)
    case WorkerTick(w, sample, saved) => TickStep(s, w, sample, saved)
    case WorkerEnqueue(w, accepting) => EnqueueStep(s, w, s.heap[w].pc.event, accepting)
    case WorkerRest(w) => RestStep(s, w, s.heap[w].pc.persisted)
    case WorkerFinish(w, reached) => FinishStep(s, w, reached)
    case WorkerRemove(w) => RemoveStep(s, w)
    case WorkerExit(w) => GoWorker(s, w, Exited)
    case Begin(kind, ids) =>
      SetCall(s, s.next, Call(kind, ids, 0, 0, Acquire))
        .(next := s.next + 1, named := s.named + (set id | id in ids))
    case CallStep(t) => Advance(s, t)
    case CallFails(t) => Fail(s, t)
  }
}
