/** When an action of somebody else leaves a call's and a worker's claims alone. */
module SupervisorFrames {
  import opened Common
  import opened SamplingWorker
  import opened Supervisor
  import opened SupervisorInvariant
  import Store = SessionStore

  /** What no action takes back. */
  predicate Grows(s: State, s': State) {
    && s.now <= s'.now && s.named <= s'.named && s.next <= s'.next
    && (s.rootCanceled ==> s'.rootCanceled) && (s.closing ==> s'.closing) && s'.orphans <= s.orphans
    && (forall p | p in s.preparedFor :: p in s'.preparedFor && s'.preparedFor[p] == s.preparedFor[p])
    && (forall h | h in s.heap :: h in s'.heap && s'.heap[h].session == s.heap[h].session)
  }

  /** How a worker may change under a call that holds its session's lock. */
  predicate Evolves(s: State, s': State, h: Handle)
    requires h in s.heap && h in s'.heap
  {
    var w, w' := s.heap[h], s'.heap[h];
    && w'.canceled == w.canceled
    && (Idle(w, s.now) ==> Idle(w', s'.now) || !Attached(w'))
    && (!Attached(w) ==> !Attached(w') && w'.prepared == w.prepared)
    && (w.pc == Exited ==> w'.pc == Exited)
    && (Attached(w) && !Attached(w') ==> w.session !in s'.workers && Sound(s', w'.prepared))
    && w'.recovery == w.recovery
  }

  /** What an action may do to a session whose lock somebody else holds. */
  predicate SessionKept(s: State, s': State, id: Id) {
    && (id in s'.workers ==> id in s.workers && s'.workers[id] == s.workers[id])
    && (id !in s.rows ==> id !in s'.rows)
    && (id in s.rows && s.rows[id].status == Store.Running && id !in s.workers ==>
          id in s'.rows && s'.rows[id] == s.rows[id] && TicksOf(s', id) == TicksOf(s, id))
    && (forall h | h in s.heap && h in s'.heap && s.heap[h].session == id ::
          Evolves(s, s', h) && (RecoveryScheduled(s, h) ==> RecoveryScheduled(s', h)))
  }

  predicate SamplesKept(s: State, s': State, ids: seq<Id>) {
    && (NoneQueued(s.core, ids) ==> NoneQueued(s'.core, ids))
    && (NoneQueued(s.core, ids) && NoneStored(s, ids) ==> NoneStored(s', ids))
  }

  /** Program points whose claims mention the samples in flight. */
  predicate Fenced(pc: Pc) { pc.FlushWait? || pc.DeleteSamples? || pc.DeleteRows? }

  predicate FenceKept(s: State, s': State, b: nat, ids: seq<Id>) {
    Fence(s.core, b, ids) ==> Fence(s'.core, b, ids)
  }

  lemma SoundKept(s: State, s': State, p: Prepared, id: Id)
    requires Grows(s, s') && SessionKept(s, s', id) && id !in s.workers && p.session == id && Sound(s, p)
    ensures Sound(s', p)
  {
  }

  lemma QuietKept(s: State, s': State, id: Id)
    requires Grows(s, s') && SessionKept(s, s', id) && MapOk(s) && MapOk(s') && Quiet(s, id)
    ensures Quiet(s', id)
  {
  }

  lemma AllQuietKept(s: State, s': State, ids: seq<Id>)
    requires Grows(s, s') && MapOk(s) && MapOk(s') && AllQuiet(s, ids)
    requires forall i | 0 <= i < |ids| :: SessionKept(s, s', ids[i])
    ensures AllQuiet(s', ids)
  {
    forall i | 0 <= i < |ids| ensures Quiet(s', ids[i]) {
      QuietKept(s, s', ids[i]);
    }
  }

  lemma PickedKept(s: State, s': State, id: Id, w: Handle)
    requires Grows(s, s') && SessionKept(s, s', id) && Picked(s, id, w) && WorkerOk(s, w, s.heap[w])
    ensures Picked(s', id, w)
  {
    if !Attached(s.heap[w]) {
      SoundKept(s, s', s.heap[w].prepared, id);
    }
  }

  lemma PcKept(s: State, s': State, c: Call)
    requires c.cur < |c.ids| && c.held == |c.ids| && PcOk(s, c)
    requires Grows(s, s') && MapOk(s) && MapOk(s') && WorkersOk(s)
    requires forall i | 0 <= i < |c.ids| :: SessionKept(s, s', c.ids[i])
    requires Fenced(c.pc) ==> SamplesKept(s, s', c.ids)
    requires c.pc.FlushWait? ==> FenceKept(s, s', c.pc.barrier, c.ids)
    ensures PcOk(s', c)
  {
    var id := c.ids[c.cur];
    assert SessionKept(s, s', id);
    if Purging(c.pc) {
      PurgingKept(s, s', c);
    } else {
      match c.pc
      case Publishing(p, _) => SoundKept(s, s', p, id);
      case StopWait(w) => PickedKept(s, s', id, w);
      case StopStore(source) => if source.Some? { PickedKept(s, s', id, source.value); }
      case Unlock(outcome) =>
        forall i | outcome == Ok && IsDeletion(c.kind) && 0 <= i < |c.ids| ensures c.ids[i] !in s'.rows {
          assert SessionKept(s, s', c.ids[i]);
        }
      case _ =>
    }
  }

  /** Program points of a deletion whose sessions are all quiet. */
  predicate Purging(pc: Pc) { pc.FlushSend? || pc.FlushWait? || pc.DeleteSamples? || pc.DeleteRows? }

  lemma PurgingKept(s: State, s': State, c: Call)
    requires c.cur < |c.ids| && PcOk(s, c) && Purging(c.pc)
    requires Grows(s, s') && MapOk(s) && MapOk(s')
    requires forall i | 0 <= i < |c.ids| :: SessionKept(s, s', c.ids[i])
    requires Fenced(c.pc) ==> SamplesKept(s, s', c.ids)
    requires c.pc.FlushWait? ==> FenceKept(s, s', c.pc.barrier, c.ids)
    ensures PcOk(s', c)
  {
    AllQuietKept(s, s', c.ids);
    if c.pc.DeleteRows? {
      forall i | 0 <= i < c.pc.count ensures c.ids[i] !in s'.rows {
        assert SessionKept(s, s', c.ids[i]);
      }
    }
  }

  /** The claims of a call that does not move survive an action of somebody else. */
  lemma CallKept(s: State, s': State, t: Handle, c: Call)
    requires CallOk(s, t, c)
    requires Grows(s, s') && MapOk(s) && MapOk(s') && WorkersOk(s)
    requires forall i | 0 <= i < c.held :: c.ids[i] in s'.operations && s'.operations[c.ids[i]] == t
    requires c.held == |c.ids| ==> forall i | 0 <= i < |c.ids| :: SessionKept(s, s', c.ids[i])
    requires c.held == |c.ids| && Fenced(c.pc) ==> SamplesKept(s, s', c.ids)
    requires c.held == |c.ids| && c.pc.FlushWait? ==> FenceKept(s, s', c.pc.barrier, c.ids)
    requires c.pc.Unlock? && c.held < |c.ids| ==> forall i | 0 <= i < |c.ids| && c.ids[i] !in s.rows :: c.ids[i] !in s'.rows
    requires c.kind.Recovering? ==> s'.heap[c.kind.worker].recovery == Some(t)
    ensures CallOk(s', t, c)
  {
    if c.held == |c.ids| {
      PcKept(s, s', c);
      ShapeKept(s, s', t, c);
    }
  }

  lemma ShapeKept(s: State, s': State, t: Handle, c: Call)
    requires CallShape(s, t, c) && c.held == |c.ids|
    requires Grows(s, s') && MapOk(s) && MapOk(s')
    requires forall i | 0 <= i < c.held :: c.ids[i] in s'.operations && s'.operations[c.ids[i]] == t
    requires forall i | 0 <= i < |c.ids| :: SessionKept(s, s', c.ids[i])
    requires c.kind.Recovering? ==> s'.heap[c.kind.worker].recovery == Some(t)
    ensures CallShape(s', t, c)
  {
    forall i | IsDeletion(c.kind) && OnTheWay(c.pc) && 0 <= i < c.cur ensures Quiet(s', c.ids[i]) {
      QuietKept(s, s', c.ids[i]);
    }
  }

  /** The claims of a worker that does not move survive an action of somebody else. */
  lemma WorkerKept(s: State, s': State, h: Handle, w: Worker)
    requires WorkerOk(s, h, w) && Grows(s, s')
    requires w.session in s.workers && s.workers[w.session] == h && Attached(w) ==>
               && w.session in s'.workers && s'.workers[w.session] == h
               && (w.session in s.rows && s.rows[w.session].status == Store.Running && !Idle(w, s.now) ==>
                     w.session in s'.rows && s'.rows[w.session] == s.rows[w.session] && TicksOf(s', w.session) == TicksOf(s, w.session))
    ensures WorkerOk(s', h, w)
  {
  }
}
