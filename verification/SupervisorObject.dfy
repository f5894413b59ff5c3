/** The supervisor as an object. Each method is one of its critical sections under the mutex and is proved
    to be one action of the state machine: beside its fields the object carries the machine's state, which
    the fields represent, and every method leaves behind the state the machine's action computes. Between
    two methods the other actors move; that is the subject of the machine. */
module SupervisorObject {
  import opened Common
  import opened SamplingWorker
  import opened Protocol = Supervisor

  /** A runningWorker, the machine's worker of the same handle. */
  class RunningWorker {
    ghost const handle: Handle
    const session: Id
    const prepared: Prepared
    var canceled: bool
    var recoveryScheduled: bool

    constructor (session: Id, prepared: Prepared, ghost handle: Handle)
      ensures this.handle == handle && this.session == session && this.prepared == prepared && !canceled && !recoveryScheduled
    {
      this.handle, this.session, this.prepared, canceled, recoveryScheduled := handle, session, prepared, false, false;
    }

    ghost predicate Flags(w: Protocol.Worker)
      reads this
    {
      canceled == w.canceled && recoveryScheduled == w.recovery.Some?
    }
  }

  /** A sessionOperation of the call that owns it; closing its done channel wakes the waiters. */
  class Operation {
    ghost const owner: Handle
    ghost const session: Id
    var done: bool

    constructor (ghost owner: Handle, ghost session: Id)
      ensures this.owner == owner && this.session == session && !done
    {
      this.owner, this.session, done := owner, session, false;
    }
  }

  datatype Attempt = Closed | Busy(other: Operation) | Taken(mine: Operation)

  datatype Published = SupervisorClosed | RootCanceled | AlreadyOwned | Owned(worker: RunningWorker)

  datatype Scheduled = AlreadyScheduled | NotAccepted | NewRecovery

  /** The map holds each lock holder's operation. */
  ghost predicate SameOperations(operations: map<Id, Operation>, owners: map<Id, Handle>) {
    && operations.Keys == owners.Keys
    && forall id | id in operations :: operations[id].session == id && operations[id].owner == owners[id]
  }

  lemma ScheduleMarks(s: State, t: Handle, w: Handle)
    requires t in s.calls && w in s.heap
    ensures var marks := s.heap[w].recovery.None? && !ShuttingDown(s);
            && ScheduleStep(s, t, w) == s.(calls := ScheduleStep(s, t, w).calls, heap := ScheduleStep(s, t, w).heap,
                                           next := if marks then s.next + 1 else s.next)
            && ScheduleStep(s, t, w).heap == if marks then s.heap[w := s.heap[w].(recovery := Some(s.next))] else s.heap
  {
  }

  lemma RemoveChanges(s: State, w: Handle)
    requires w in s.heap
    ensures var r := RemoveStep(s, w); var id := s.heap[w].session;
            && r == s.(heap := r.heap, workers := r.workers) && r.heap == s.heap[w := s.heap[w].(pc := Removed)]
            && r.workers == if id in s.workers && s.workers[id] == w then s.workers - {id} else s.workers
  {
  }

  class Supervisor {
    var workers: map<Id, RunningWorker>
    var operations: map<Id, Operation>
    var closing: bool
    var rootCanceled: bool
    var recoveryCanceled: bool
    ghost var state: State

    /** The worker is the machine's worker of its handle, and the only such object the map may hold. */
    ghost predicate Known(worker: RunningWorker)
      reads this, worker
    {
      && worker.handle in state.heap && worker.session == state.heap[worker.handle].session && worker.Flags(state.heap[worker.handle])
      && (worker.session in workers && workers[worker.session].handle == worker.handle ==> workers[worker.session] == worker)
    }

    ghost predicate WorkersMatch()
      reads this, workers.Values
    {
      && workers.Keys == state.workers.Keys
      && forall id | id in workers ::
           && workers[id].session == id && workers[id].handle == state.workers[id]
           && state.workers[id] in state.heap && state.heap[state.workers[id]].session == id
           && workers[id].Flags(state.heap[state.workers[id]])
    }

    /** The fields represent the machine's state. */
    ghost predicate Valid()
      reads this, workers.Values
    {
      && WorkersMatch() && SameOperations(operations, state.operations)
      && closing == state.closing && rootCanceled == state.rootCanceled && recoveryCanceled == ShuttingDown(state)
      && (forall h | h in state.heap :: h < state.next)
    }

    constructor (ghost s: State)
      requires Init(s)
      ensures Valid() && state == s
    {
      workers, operations, closing, rootCanceled, recoveryCanceled := map[], map[], false, false, false;
      state := s;
    }

    // ----- The critical sections -----

    /** The machine moves where the object has nothing to follow. */
    ghost method Follow(next: State)
      requires Valid() && state.next <= next.next
      requires next.heap == state.heap && next.workers == state.workers && next.operations == state.operations
      requires next.closing == state.closing && next.rootCanceled == state.rootCanceled
      modifies `state
      ensures Valid() && state == next
    {
      state := next;
    }

    /** A new worker enters the map, in the object and in the machine. */
    method Insert(id: Id, prepared: Prepared, ghost next: State) returns (worker: RunningWorker)
      requires Valid() && id !in workers && state.next < next.next
      requires next.heap == state.heap[state.next := Worker(id, prepared, false, Top, false, None)]
      requires next.workers == state.workers[id := state.next] && next.operations == state.operations
      requires next.closing == state.closing && next.rootCanceled == state.rootCanceled
      modifies `workers, `state
      ensures Valid() && state == next
      ensures worker.handle == old(state.next) && id in workers && workers[id] == worker && Known(worker)
    {
      assert forall x | x in workers :: x != id && state.workers[x] != state.next;
      worker := new RunningWorker(id, prepared, state.next);
      workers, state := workers[id := worker], next;
    }

    /** A worker's recovery is scheduled, in the object and in the machine. */
    method Mark(worker: RunningWorker, ghost next: State)
      requires Valid() && Known(worker) && !worker.recoveryScheduled && state.next < next.next
      requires next.heap == state.heap[worker.handle := state.heap[worker.handle].(recovery := Some(state.next))]
      requires next.workers == state.workers && next.operations == state.operations
      requires next.closing == state.closing && next.rootCanceled == state.rootCanceled
      modifies `state, worker`recoveryScheduled
      ensures Valid() && Known(worker) && state == next && worker.recoveryScheduled
    {
      worker.recoveryScheduled := true;
      state := next;
    }

    /** withSessionOperation, before the operation runs: the caller waits exactly when the machine's call
        cannot act, and otherwise does what the machine's call does. */
    method TryOperation(id: Id, ghost t: Handle) returns (r: Attempt)
      requires Valid() && t in state.calls && state.calls[t].pc == Acquire && state.calls[t].cur < |state.calls[t].ids|
      requires state.calls[t].held < |state.calls[t].ids| && id == state.calls[t].ids[state.calls[t].held]
      modifies `operations, `state
      ensures Valid()
      ensures r.Busy? <==> !CanStep(old(state), t)
      ensures state == if r.Busy? then old(state) else AcquireStep(old(state), t)
      ensures r.Busy? ==> id in operations && r.other == operations[id]
      ensures r.Taken? ==> id in operations && operations[id] == r.mine && r.mine.owner == t && r.mine.session == id
    {
      if closing {
        state := AcquireStep(state, t);
        return Closed;
      }
      if id in operations {
        return Busy(operations[id]);
      }
      var active := new Operation(t, id);
      operations := operations[id := active];
      state := AcquireStep(state, t);
      r := Taken(active);
    }

    /** withSessionOperation, after the operation ran: the lock is given back as the machine does. */
    method EndOperation(id: Id, active: Operation, ghost t: Handle, ghost outcome: Outcome)
      requires Valid() && active.owner == t && active.session == id
      requires id in operations && operations[id].owner == t ==> operations[id] == active
      requires t in state.calls && 0 < state.calls[t].held <= |state.calls[t].ids|
      requires id == state.calls[t].ids[state.calls[t].held - 1]
      modifies `operations, `state, active
      ensures Valid() && (id in old(operations) && old(operations[id]) == active ==> active.done)
      ensures state == UnlockStep(old(state), t, outcome)
    {
      if id in operations && operations[id] == active {
        operations := operations - {id};
        active.done := true;
      }
      state := UnlockStep(state, t, outcome);
    }

    /** publishPrepared: the checks and the insertion are one critical section. */
    method Publish(id: Id, prepared: Prepared, ghost t: Handle, ghost restoring: bool) returns (r: Published)
      requires Valid() && t in state.calls && state.calls[t].pc == Publishing(prepared, restoring)
      modifies `workers, `state
      ensures Valid()
      ensures state == PublishStep(old(state), t, id, prepared, restoring)
      ensures t in state.calls && state.calls[t].pc ==
                match r
                case SupervisorClosed => StartFailed(restoring, ErrClosed)
                case RootCanceled => StartFailed(restoring, ErrOther)
                case AlreadyOwned => AfterCheckMap(old(state), id, restoring)
                case Owned(w) => Unlock(if restoring then ErrStop(Republished(w.handle)) else Ok)
      ensures r.Owned? ==> id in workers && workers[id] == r.worker && Known(r.worker)
    {
      if closing {
        Follow(PublishStep(state, t, id, prepared, restoring));
        return SupervisorClosed;
      }
      if rootCanceled {
        Follow(PublishStep(state, t, id, prepared, restoring));
        return RootCanceled;
      }
      if id in workers {
        Follow(PublishStep(state, t, id, prepared, restoring));
        return AlreadyOwned;
      }
      var worker := Insert(id, prepared, PublishStep(state, t, id, prepared, restoring));
      r := Owned(worker);
    }

    /** The end of the worker's goroutine: it removes its own map entry, as the machine's worker does. */
    method Remove(id: Id, worker: RunningWorker)
      requires Valid() && Known(worker) && worker.session == id
      modifies `workers, `state
      ensures Valid() && Known(worker)
      ensures state == RemoveStep(old(state), worker.handle)
    {
      RemoveChanges(state, worker.handle);
      if id in workers && workers[id] == worker {
        workers := workers - {id};
      }
      state := RemoveStep(state, worker.handle);
    }

    /** The start of stop: the owned worker, if any, is told to end. */
    method PickAndCancel(id: Id, ghost t: Handle) returns (r: Option<RunningWorker>)
      requires Valid() && t in state.calls
      modifies `state, (if id in workers then {workers[id]} else {})`canceled
      ensures Valid() && (r.Some? ==> Known(r.value))
      ensures state == StopPickStep(old(state), t, id)
      ensures t in state.calls && state.calls[t].pc == if r.Some? then StopWait(r.value.handle) else StopRead
    {
      if id in workers {
        r := Some(workers[id]);
        workers[id].canceled := true;
      } else {
        r := None;
      }
      state := StopPickStep(state, t, id);
    }

    /** scheduleRecovery: at most one recovery per worker, and none while shutting down. */
    method ScheduleRecovery(worker: RunningWorker, ghost t: Handle) returns (r: Scheduled)
      requires Valid() && t in state.calls && Known(worker)
      modifies `state, worker`recoveryScheduled
      ensures Valid() && Known(worker)
      ensures state == ScheduleStep(old(state), t, worker.handle)
      ensures r == NewRecovery <==> old(!worker.recoveryScheduled) && worker.recoveryScheduled
      ensures r == NotAccepted <==> !worker.recoveryScheduled
    {
      ghost var next := ScheduleStep(state, t, worker.handle);
      ScheduleMarks(state, t, worker.handle);
      if worker.recoveryScheduled {
        Follow(next);
        return AlreadyScheduled;
      }
      if closing || recoveryCanceled {
        Follow(next);
        return NotAccepted;
      }
      Mark(worker, next);
      r := NewRecovery;
    }

    /** The start of Wait. */
    method BeginClose()
      requires Valid()
      modifies `closing, `recoveryCanceled, `state
      ensures Valid()
      ensures state == Apply(old(state), Close)
    {
      closing, recoveryCanceled := true, true;
      state := state.(closing := true);
    }
  }
}
