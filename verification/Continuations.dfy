/** Continuing a run of the lifecycle protocol: what is reachable from a state, the actions of one call that
    is alone with a session, and two continuations that are always open: the writer can drain its channel,
    and a session whose row does not run can be deleted. */
module Continuations {
  import opened Common
  import opened Supervisor
  import opened SupervisorSafety
  import Store = SessionStore
  import Writer = SampleWriter

  // ----- Building runs -----

  ghost predicate IsPath(states: seq<State>, steps: seq<Step>) {
    && |states| == |steps| + 1
    && forall i {:trigger StepAt(states, steps, i)} | 0 <= i < |steps| :: StepAt(states, steps, i)
  }

  ghost predicate Links(s: State, s': State, states: seq<State>, steps: seq<Step>) {
    IsPath(states, steps) && states[0] == s && states[|states| - 1] == s'
  }

  ghost predicate Reaches(s: State, s': State) {
    exists states, steps :: Links(s, s', states, steps)
  }

  lemma Stay(s: State)
    ensures Reaches(s, s)
  {
    assert Links(s, s, [s], []);
  }

  lemma Then(s: State, s1: State, step: Step)
    requires Reaches(s, s1) && Enabled(s1, step)
    ensures Reaches(s, Apply(s1, step))
  {
    var states, steps :| Links(s, s1, states, steps);
    var longer, more := states + [Apply(s1, step)], steps + [step];
    forall i | 0 <= i < |more| ensures StepAt(longer, more, i) {
      assert i < |steps| ==> StepAt(states, steps, i);
    }
    assert Links(s, Apply(s1, step), longer, more);
  }

  lemma RunTo(s0: State, s: State) returns (states: seq<State>, steps: seq<Step>)
    requires Init(s0) && Reaches(s0, s)
    ensures IsRun(states, steps) && states[|states| - 1] == s
  {
    states, steps :| Links(s0, s, states, steps);
  }

  // ----- One action of call t, which is busy with the session -----

  lemma Advances(s0: State, s: State, t: Handle, s': State)
    requires Reaches(s0, s) && CanStep(s, t) && s' == Advance(s, t)
    ensures Reaches(s0, s')
  {
    Then(s0, s, CallStep(t));
  }

  /** Where call t of the kind stands. */
  predicate At(s: State, t: Handle, kind: Kind, id: Id, held: nat, pc: Pc) {
    t in s.calls && s.calls[t] == Call(kind, [id], held, 0, pc)
  }

  /** The call starts and takes the free lock. */
  lemma Enter(s0: State, s: State, kind: Kind, id: Id) returns (s': State)
    requires Reaches(s0, s) && CanBegin(s, kind, [id]) && id !in s.operations && !s.closing && id in s.named
    ensures Reaches(s0, s')
    ensures s' == s.(calls := s.calls[s.next := Call(kind, [id], 1, 0, Entry(kind))],
                     operations := s.operations[id := s.next], next := s.next + 1)
  {
    var s1 := Begun(s0, s, kind, id);
    s' := TakeLock(s0, s1, s.next, kind, id);
    assert s'.calls == s.calls[s.next := Call(kind, [id], 1, 0, Entry(kind))];
  }

  lemma Begun(s0: State, s: State, kind: Kind, id: Id) returns (s': State)
    requires Reaches(s0, s) && CanBegin(s, kind, [id]) && id in s.named
    ensures Reaches(s0, s')
    ensures s' == s.(calls := s.calls[s.next := Call(kind, [id], 0, 0, Acquire)], next := s.next + 1)
  {
    NamedAlready(s.named, id);
    s' := s.(calls := s.calls[s.next := Call(kind, [id], 0, 0, Acquire)], next := s.next + 1);
    Then(s0, s, Begin(kind, [id]));
  }

  lemma NamedAlready(named: set<Id>, id: Id)
    requires id in named
    ensures named + (set x | x in [id]) == named
  {
  }

  lemma TakeLock(s0: State, s: State, t: Handle, kind: Kind, id: Id) returns (s': State)
    requires Reaches(s0, s) && At(s, t, kind, id, 0, Acquire) && id !in s.operations && !s.closing
    ensures Reaches(s0, s')
    ensures s' == s.(calls := s.calls[t := Call(kind, [id], 1, 0, Entry(kind))], operations := s.operations[id := t])
  {
    s' := Advance(s, t);
    Advances(s0, s, t, s');
  }

  /** The call gives its lock back. */
  lemma Release(s0: State, s: State, t: Handle, kind: Kind, id: Id, outcome: Outcome) returns (s': State)
    requires Reaches(s0, s) && At(s, t, kind, id, 1, Unlock(outcome)) && id in s.operations && s.operations[id] == t
    ensures Reaches(s0, s')
    ensures s' == s.(calls := s.calls[t := Call(kind, [id], 0, 0, Unlock(outcome))], operations := s.operations - {id})
  {
    s' := Advance(s, t);
    Advances(s0, s, t, s');
  }

  /** The call, without its lock, returns. */
  lemma Return(s0: State, s: State, t: Handle, kind: Kind, id: Id, outcome: Outcome) returns (s': State)
    requires Reaches(s0, s) && At(s, t, kind, id, 0, Unlock(outcome)) && !kind.Recovering? && !kind.Creating?
    ensures Reaches(s0, s')
    ensures s' == s.(calls := s.calls - {t},
                     deleted := if IsDeletion(kind) && outcome == Ok then s.deleted + {id} else s.deleted)
  {
    assert (set x | x in [id]) == {id};
    s' := Advance(s, t);
    Advances(s0, s, t, s');
  }

  /** The call gives its lock back and returns. */
  lemma Leave(s0: State, s: State, t: Handle, kind: Kind, id: Id, outcome: Outcome) returns (s': State)
    requires Reaches(s0, s) && At(s, t, kind, id, 1, Unlock(outcome)) && id in s.operations && s.operations[id] == t
    requires !kind.Recovering? && !kind.Creating?
    ensures Reaches(s0, s')
    ensures s' == s.(calls := s.calls - {t}, operations := s.operations - {id},
                     deleted := if IsDeletion(kind) && outcome == Ok then s.deleted + {id} else s.deleted)
  {
    var s1 := Release(s0, s, t, kind, id, outcome);
    s' := Return(s0, s1, t, kind, id, outcome);
    assert s'.calls == s.calls - {t};
  }

  /** A step that changes nothing but where the call is. */
  lemma Move(s0: State, s: State, t: Handle, pc: Pc) returns (s': State)
    requires Reaches(s0, s) && CanStep(s, t) && Advance(s, t) == Goto(s, t, pc)
    ensures Reaches(s0, s') && s' == s.(calls := s.calls[t := s.calls[t].(pc := pc)])
  {
    s' := Goto(s, t, pc);
    Advances(s0, s, t, s');
  }

  // ----- Draining the channel -----

  /** Everything but the writer and what it stored is as before. */
  predicate OnlyWriter(s: State, s': State) {
    s' == s.(core := s'.core, stored := s'.stored)
  }

  lemma {:induction false} Drained(s0: State, s: State) returns (s': State)
    requires Reaches(s0, s)
    ensures Reaches(s0, s') && OnlyWriter(s, s') && s'.core.queue == []
    decreases |s.core.queue|
  {
    if s.core.queue == [] {
      s' := s;
    } else {
      var s1 := Received(s0, s);
      s' := Drained(s0, s1);
    }
  }

  lemma Received(s0: State, s: State) returns (s': State)
    requires Reaches(s0, s) && s.core.queue != []
    ensures Reaches(s0, s') && OnlyWriter(s, s') && s'.core.queue == s.core.queue[1..]
    ensures s.core.queue[0].BarrierCommand? ==>
              !s'.core.pendingErr && Answered(s'.core, s.core.queue[0].barrier, !s.core.pendingErr)
  {
    Then(s0, s, WriterReceive(true, true));
    s' := Apply(s, WriterReceive(true, true));
    match s.core.queue[0]
    case EventCommand(_) =>
    case BarrierCommand(b) => assert s'.core.log[|s'.core.log| - 1] == Writer.BarrierAnswered(b, !s.core.pendingErr);
  }

  // ----- Deleting a session whose row does not run -----

  /** What a deletion of the session leaves alone. */
  predicate OnlyDeleted(s: State, s': State, id: Id) {
    && s'.heap == s.heap && s'.now == s.now && s'.ticks == s.ticks && s'.capacity == s.capacity
    && s'.closing == s.closing && s'.rootCanceled == s.rootCanceled && s'.named == s.named
    && id !in s'.operations
  }

  /** The session's row does not run, nobody is busy with it, and the channel has room. */
  predicate Deletable(s: State, id: Id) {
    && !s.closing && id in s.named && id !in s.operations && 0 < s.capacity
    && (id in s.rows ==> s.rows[id].status != Store.Running)
  }

  /** Delete if there is a row; without one only a batch deletion goes on. */
  function DeletingKind(s: State, id: Id): Kind {
    if id in s.rows then Deleting else DeletingMany
  }

  lemma DeletionBegins(s: State, kind: Kind, id: Id)
    requires IsDeletion(kind)
    ensures CanBegin(s, kind, [id]) && Entry(kind) == DeleteRead
  {
  }

  /** Up to the barrier: the row does not run, so no worker is stopped. */
  lemma BarrierSent(s0: State, s: State, kind: Kind, id: Id) returns (s': State)
    requires Reaches(s0, s) && Deletable(s, id) && kind == DeletingKind(s, id) && s.core.queue == []
    ensures Reaches(s0, s') && OnlyCalls(s, s') && id in s'.operations && s'.operations[id] == s.next
    ensures At(s', s.next, kind, id, 1, FlushWait(s.next + 1))
    ensures s'.core.queue == [Writer.BarrierCommand(s.next + 1)] && s'.core.pendingErr == s.core.pendingErr
  {
    DeletionBegins(s, kind, id);
    var s1 := Enter(s0, s, kind, id);
    var s2 := Skipped(s0, s1, s.next, kind, id);
    s' := Flushing(s0, s2, s.next, kind, id);
  }

  /** Calls, locks and the channel move, nothing else. */
  predicate OnlyCalls(s: State, s': State) {
    s' == s.(calls := s'.calls, operations := s'.operations, core := s'.core, next := s'.next)
  }

  lemma Skipped(s0: State, s: State, t: Handle, kind: Kind, id: Id) returns (s': State)
    requires Reaches(s0, s) && At(s, t, kind, id, 1, DeleteRead)
    requires if id in s.rows then kind == Deleting && s.rows[id].status != Store.Running else kind == DeletingMany
    ensures Reaches(s0, s') && s' == s.(calls := s.calls[t := Call(kind, [id], 1, 0, FlushSend)])
  {
    s' := Move(s0, s, t, FlushSend);
  }

  lemma Flushing(s0: State, s: State, t: Handle, kind: Kind, id: Id) returns (s': State)
    requires Reaches(s0, s) && At(s, t, kind, id, 1, FlushSend) && s.core.queue == [] && 0 < s.capacity
    ensures Reaches(s0, s')
    ensures s' == s.(calls := s.calls[t := Call(kind, [id], 1, 0, FlushWait(s.next))], core := s'.core, next := s.next + 1)
    ensures s'.core.queue == [Writer.BarrierCommand(s.next)] && s'.core.pendingErr == s.core.pendingErr
  {
    s' := FlushSendStep(s, t);
    Advances(s0, s, t, s');
  }

  /** After the barrier: samples first, then the row. */
  lemma Purged(s0: State, s: State, t: Handle, kind: Kind, id: Id) returns (s': State)
    requires Reaches(s0, s) && At(s, t, kind, id, 1, DeleteSamples) && IsDeletion(kind)
    requires id in s.operations && s.operations[id] == t
    ensures Reaches(s0, s') && OnlyDeleted(s, s', id)
    ensures s'.deleted == s.deleted + {id} && s'.rows == s.rows - {id} && s'.core == s.core
  {
    var s1 := PurgeStep(s, t);
    Advances(s0, s, t, s1);
    var s2 := DeleteRowStep(s1, t, 0);
    Advances(s0, s1, t, s2);
    s' := Leave(s0, s2, t, kind, id, Ok);
  }

  /** One deletion. It fails only if a batch failed before its barrier, and that is forgotten afterwards. */
  lemma Attempted(s0: State, s: State, id: Id) returns (s': State, ok: bool)
    requires Reaches(s0, s) && Deletable(s, id) && s.core.queue == []
    ensures Reaches(s0, s') && OnlyDeleted(s, s', id) && s'.core.queue == [] && !s'.core.pendingErr
    ensures s'.rows == if ok then s.rows - {id} else s.rows
    ensures (ok ==> id in s'.deleted) && (!s.core.pendingErr ==> ok)
  {
    var t, kind := s.next, DeletingKind(s, id);
    var s1 := BarrierSent(s0, s, kind, id);
    var s2 := Received(s0, s1);
    ok := Answered(s2.core, t + 1, true);
    s' := Decided(s0, s2, t, kind, id, t + 1);
  }

  /** Whatever is queued, batched or pending: the session can be deleted, at the second attempt if a batch
      failed before the first. */
  lemma Deleted(s0: State, s: State, id: Id) returns (s': State)
    requires Reaches(s0, s) && Deletable(s, id)
    ensures Reaches(s0, s') && OnlyDeleted(s, s', id) && s'.core.queue == []
    ensures id in s'.deleted && s'.rows == s.rows - {id}
  {
    var s1 := Drained(s0, s);
    var ok;
    s', ok := Attempted(s0, s1, id);
    if !ok {
      s', ok := Attempted(s0, s', id);
    }
  }

  lemma Decided(s0: State, s: State, t: Handle, kind: Kind, id: Id, b: nat) returns (s': State)
    requires Reaches(s0, s) && At(s, t, kind, id, 1, FlushWait(b)) && IsDeletion(kind)
    requires id in s.operations && s.operations[id] == t
    requires Answered(s.core, b, true) || Answered(s.core, b, false)
    ensures Reaches(s0, s') && OnlyDeleted(s, s', id) && s'.core == s.core
    ensures Answered(s.core, b, true) ==> s'.deleted == s.deleted + {id} && s'.rows == s.rows - {id}
    ensures !Answered(s.core, b, true) ==> s'.deleted == s.deleted && s'.rows == s.rows
  {
    if Answered(s.core, b, true) {
      var s1 := Move(s0, s, t, DeleteSamples);
      s' := Purged(s0, s1, t, kind, id);
    } else {
      var s1 := Move(s0, s, t, Unlock(ErrOther));
      s' := Leave(s0, s1, t, kind, id, ErrOther);
    }
  }
}
