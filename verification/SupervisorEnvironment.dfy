/** The actions of the writer goroutine and of the environment keep the protocol's invariant. */
module SupervisorEnvironment {
  import opened Common
  import opened SamplingWorker
  import opened Supervisor
  import opened SupervisorInvariant
  import opened SupervisorFrames
  import Store = SessionStore
  import Writer = SampleWriter

  /** No worker, lock or call moves, running rows stay as they are, and no used id gets a new row. */
  predicate Around(s: State, s': State) {
    && s'.heap == s.heap && s'.workers == s.workers && s'.operations == s.operations && s'.calls == s.calls
    && s'.preparedFor == s.preparedFor && s'.next == s.next
    && s.now <= s'.now && s.named <= s'.named && s'.orphans == s.orphans
    && (s.rootCanceled ==> s'.rootCanceled) && (s.closing ==> s'.closing)
    && (forall id | id in s.rows && s.rows[id].status == Store.Running ::
          id in s'.rows && s'.rows[id] == s.rows[id] && TicksOf(s', id) == TicksOf(s, id))
    && (forall id | id in s.named && id !in s.rows :: id !in s'.rows)
  }

  ghost predicate ChannelsKept(s: State, s': State, ids: seq<Id>) {
    SamplesKept(s, s', ids) && forall b :: FenceKept(s, s', b, ids)
  }

  lemma SessionsKept(s: State, s': State, id: Id)
    requires Around(s, s') && id in s.named
    ensures SessionKept(s, s', id)
  {
  }

  lemma CallKeptAround(s: State, s': State, t: Handle)
    requires MapOk(s) && WorkersOk(s) && t in s.calls && CallOk(s, t, s.calls[t]) && Around(s, s')
    requires ChannelsKept(s, s', s.calls[t].ids)
    ensures CallOk(s', t, s.calls[t])
  {
    var c := s.calls[t];
    forall i | 0 <= i < |c.ids| ensures SessionKept(s, s', c.ids[i]) {
      SessionsKept(s, s', c.ids[i]);
    }
    assert MapOk(s');
    CallKept(s, s', t, c);
  }

  lemma AroundKeeps(s: State, s': State)
    requires Inv(s) && Around(s, s')
    requires forall t | t in s.calls :: ChannelsKept(s, s', s.calls[t].ids)
    ensures MapOk(s') && WorkersOk(s') && CallsOk(s') && LocksOk(s') && RecoveriesWait(s')
  {
    forall h | h in s'.heap ensures WorkerOk(s', h, s'.heap[h]) {
      WorkerKept(s, s', h, s.heap[h]);
    }
    forall t | t in s'.calls ensures CallOk(s', t, s'.calls[t]) {
      CallKeptAround(s, s', t);
    }
    forall h | h in s'.heap ensures RecoveryWaits(s', h) {
      assert RecoveryWaits(s, h);
    }
  }

  /** A step that leaves rows, history and samples alone. */
  lemma QuietStepKeeps(s: State, s': State)
    requires Inv(s) && Around(s, s')
    requires s' == s.(now := s'.now, rootCanceled := s'.rootCanceled, closing := s'.closing)
    ensures Inv(s')
  {
    AroundKeeps(s, s');
  }

  /** Only rows change, and only rows that are not running. */
  predicate RowsAround(s: State, s': State) {
    && s' == s.(rows := s'.rows, ticks := s'.ticks, named := s'.named) && s.named <= s'.named
    && (forall id | id in s.rows && s.rows[id].status == Store.Running ::
          id in s'.rows && s'.rows[id] == s.rows[id] && TicksOf(s', id) == TicksOf(s, id))
    && (forall id | id in s.named && id !in s.rows :: id !in s'.rows)
    && s.rows.Keys <= s'.rows.Keys
  }

  lemma RowsAroundKeeps(s: State, s': State)
    requires Inv(s) && RowsAround(s, s') && RowsOk(s')
    ensures Inv(s')
  {
    assert Around(s, s');
    forall t | t in s.calls ensures ChannelsKept(s, s', s.calls[t].ids) {
      assert s'.core == s.core && s'.stored == s.stored;
    }
    AroundKeeps(s, s');
    SamplesStillHaveRows(s, s');
  }

  lemma SamplesStillHaveRows(s: State, s': State)
    requires SamplesHaveRows(s) && HandlesOk(s) && RowsAround(s, s')
    ensures SamplesHaveRows(s') && HandlesOk(s')
  {
  }

  lemma CreatedRowsOk(s: State, s': State, id: Id, row: Store.Row)
    requires RowsOk(s) && id !in s.named
    requires s' == s.(rows := s.rows[id := row], ticks := s.ticks[id := []], named := s.named + {id})
    requires row.ips == map[] && row.distinctIPs == 0 && row.samplesTaken == 0 && row.sequenceOffset == 0
    requires row.maxSamples.Some? ==> 0 <= row.maxSamples.value
    ensures RowsOk(s') && RowsAround(s, s')
  {
    assert RowAgrees(row, []);
    forall x | x in s'.rows ensures x in s'.named && x in s'.ticks && RowAgrees(s'.rows[x], s'.ticks[x]) {
      assert x != id ==> RowAgrees(s.rows[x], s.ticks[x]);
    }
  }

  lemma CreatedKeeps(s: State, s': State, id: Id, row: Store.Row)
    requires Inv(s) && id !in s.named && s' == CreateStep(s, id, row, false)
    requires row.ips == map[] && row.distinctIPs == 0 && row.samplesTaken == 0 && row.sequenceOffset == 0
    requires row.maxSamples.Some? ==> 0 <= row.maxSamples.value
    ensures Inv(s')
  {
    CreatedRowsOk(s, s', id, row);
    RowsAroundKeeps(s, s');
  }

  function Refolded(row: Store.Row, at: int): Store.Row {
    row.(status := Store.Running, sequenceOffset := row.sequenceOffset + row.samplesTaken,
         samplesTaken := 0, probesOK := 0, startedAt := Some(at))
  }

  lemma FoldKeepsAgreement(row: Store.Row, ticks: seq<Tick>, at: int)
    requires RowAgrees(row, ticks)
    ensures RowAgrees(Refolded(row, at), ticks)
  {
  }

  lemma ReplacedRowOk(s: State, s': State, id: Id, row: Store.Row)
    requires RowsOk(s) && id in s.rows && s.rows[id].status != Store.Running
    requires s' == s.(rows := s.rows[id := row]) && RowAgrees(row, s.ticks[id])
    ensures RowsOk(s') && RowsAround(s, s')
  {
    forall x | x in s'.rows ensures x in s'.named && x in s'.ticks && RowAgrees(s'.rows[x], s'.ticks[x]) {
      assert x != id ==> RowAgrees(s.rows[x], s.ticks[x]);
    }
  }

  /** Re-enabling folds the finished life into the offset: the lifetime count stays the number of
      committed ticks. */
  lemma ReenableKeeps(s: State, id: Id)
    requires Inv(s)
    ensures Inv(s.(rows := Store.Reenable(s.rows, id, s.now).0))
  {
    var s' := s.(rows := Store.Reenable(s.rows, id, s.now).0);
    if Store.Reenable(s.rows, id, s.now).1.Done? {
      assert RowAgrees(s.rows[id], s.ticks[id]);
      FoldKeepsAgreement(s.rows[id], s.ticks[id], s.now);
      ReplacedRowOk(s, s', id, Refolded(s.rows[id], s.now));
      RowsAroundKeeps(s, s');
    }
  }

  lemma CrashKeeps(s: State)
    requires Inv(s)
    ensures Inv(Apply(s, Crash))
  {
    assert RowsOk(Apply(s, Crash));
  }

  // ----- The writer goroutine -----

  /** A step of the writer goroutine: it takes at most the head of the channel, and every event it
      keeps or stores was there before. */
  ghost predicate Drains(s: State, s': State) {
    && s' == s.(core := s'.core, stored := s'.stored)
    && (s'.core.queue == s.core.queue || (s.core.queue != [] && s'.core.queue == s.core.queue[1..]))
    && (forall e | e in s'.core.batch :: e in s.core.batch || (s.core.queue != [] && s.core.queue[0] == Writer.EventCommand(e)))
    && (forall e | e in s'.stored ::
          e in s.stored || e in s.core.batch || (s.core.queue != [] && s.core.queue[0] == Writer.EventCommand(e)))
    && (forall entry | entry in s.core.log :: entry in s'.core.log)
    && (forall b, ok | Writer.BarrierAnswered(b, ok) in s'.core.log ::
          Writer.BarrierAnswered(b, ok) in s.core.log
          || (s.core.queue != [] && s.core.queue[0] == Writer.BarrierCommand(b) && s'.core.batch == []))
    && (s.core.queue != [] && s.core.queue[0].BarrierCommand? && s'.core.queue != s.core.queue ==>
          Answered(s'.core, s.core.queue[0].barrier, true) || Answered(s'.core, s.core.queue[0].barrier, false))
  }

  lemma ReceiveDrains(s: State, sent: bool, landed: bool)
    requires s.core.queue != []
    ensures Drains(s, s.(core := Writer.Receive(s.core, sent, s.batchSize),
                         stored := s.stored + (if landed then Writer.Handed(s.core, s.batchSize) else [])))
  {
    if s.core.queue[0].EventCommand? {} else {}
  }

  lemma FlushDrains(s: State, sent: bool, landed: bool)
    ensures Drains(s, s.(core := Writer.Flush(s.core, sent), stored := s.stored + (if landed then s.core.batch else [])))
  {
  }

  lemma DrainKeepsChannels(s: State, s': State, ids: seq<Id>)
    requires Drains(s, s')
    ensures ChannelsKept(s, s', ids)
  {
    if NoneQueued(s.core, ids) {
      DrainKeepsNone(s, s', ids);
    }
    forall b ensures FenceKept(s, s', b, ids) {
      if Fence(s.core, b, ids) {
        DrainKeepsFence(s, s', b, ids);
      }
    }
  }

  lemma DrainKeepsNone(s: State, s': State, ids: seq<Id>)
    requires Drains(s, s') && NoneQueued(s.core, ids)
    ensures NoneQueued(s'.core, ids) && (NoneStored(s, ids) ==> NoneStored(s', ids))
  {
    forall i | 0 <= i < |s'.core.batch| ensures s'.core.batch[i].session !in ids {
      assert s'.core.batch[i] in s'.core.batch;
      if s'.core.batch[i] !in s.core.batch {
        assert !EventOf(s.core.queue[0], ids);
      }
    }
    forall i | NoneStored(s, ids) && 0 <= i < |s'.stored| ensures s'.stored[i].session !in ids {
      assert s'.stored[i] in s'.stored;
      if s'.stored[i] !in s.stored && s'.stored[i] !in s.core.batch {
        assert !EventOf(s.core.queue[0], ids);
      }
    }
  }

  lemma DrainKeepsFence(s: State, s': State, b: nat, ids: seq<Id>)
    requires Drains(s, s') && Fence(s.core, b, ids)
    ensures Fence(s'.core, b, ids)
  {
    if Answered(s.core, b, true) || Answered(s.core, b, false) {
      DrainKeepsNone(s, s', ids);
    } else if Answered(s'.core, b, true) || Answered(s'.core, b, false) {
      assert s.core.queue[0] == Writer.BarrierCommand(b);
      assert forall j | 0 < j < |s.core.queue| :: !EventOf(s.core.queue[j], ids);
    }
  }

  lemma DrainKeepsData(s: State, s': State)
    requires Drains(s, s') && SamplesHaveRows(s) && HandlesOk(s)
    ensures SamplesHaveRows(s') && HandlesOk(s')
  {
    forall i | 0 <= i < |s'.stored| ensures MayHaveSamples(s', s'.stored[i].session) {
      assert s'.stored[i] in s'.stored;
    }
    forall i | 0 <= i < |s'.core.batch| ensures MayHaveSamples(s', s'.core.batch[i].session) {
      assert s'.core.batch[i] in s'.core.batch;
    }
    forall i | 0 <= i < |s'.core.log| && s'.core.log[i].BarrierAnswered? ensures s'.core.log[i].barrier < s'.next {
      assert Writer.BarrierAnswered(s'.core.log[i].barrier, s'.core.log[i].ok) in s'.core.log;
    }
  }

  lemma DrainKeeps(s: State, s': State)
    requires Inv(s) && Drains(s, s')
    ensures Inv(s')
  {
    assert Around(s, s');
    forall t | t in s.calls ensures ChannelsKept(s, s', s.calls[t].ids) {
      DrainKeepsChannels(s, s', s.calls[t].ids);
    }
    AroundKeeps(s, s');
    DrainKeepsData(s, s');
    assert RowsOk(s');
  }

  lemma ReceiveKeeps(s: State, s': State, sent: bool, landed: bool)
    requires Inv(s) && s.core.queue != []
    requires s' == s.(core := Writer.Receive(s.core, sent, s.batchSize),
                      stored := s.stored + (if landed then Writer.Handed(s.core, s.batchSize) else []))
    ensures Inv(s')
  {
    ReceiveDrains(s, sent, landed);
    DrainKeeps(s, s');
  }

  lemma FlushKeeps(s: State, s': State, sent: bool, landed: bool)
    requires Inv(s)
    requires s' == s.(core := Writer.Flush(s.core, sent), stored := s.stored + (if landed then s.core.batch else []))
    ensures Inv(s')
  {
    FlushDrains(s, sent, landed);
    DrainKeeps(s, s');
  }
}
