/** The samples on their way to ClickHouse: what is stored, then the writer's batch, then its queue. Every
    event belongs to a committed tick of its session, and no number is ever stored twice. */
module SupervisorSamples {
  import opened Common
  import opened Samples
  import opened SamplingWorker
  import opened Supervisor
  import opened SupervisorInvariant
  import Writer = SampleWriter
  import Store = SessionStore
  import Safety = SupervisorSafety

  type Events = seq<Writer.Event>

  // ----- The pipeline of one session -----

  function EventsOf(events: Events, id: Id): Events {
    if events == [] then []
    else
      EventsOf(events[..|events| - 1], id)
      + (if events[|events| - 1].session == id then [events[|events| - 1]] else [])
  }

  function Queued(queue: seq<Writer.Command>): Events {
    if queue == [] then []
    else
      Queued(queue[..|queue| - 1])
      + (if queue[|queue| - 1].EventCommand? then [queue[|queue| - 1].event] else [])
  }

  function Pipe(s: State, id: Id): Events {
    EventsOf(s.stored, id) + (EventsOf(s.core.batch, id) + EventsOf(Queued(s.core.queue), id))
  }

  lemma EventsNext(a: Events, e: Writer.Event, id: Id)
    ensures EventsOf(a + [e], id) == EventsOf(a, id) + (if e.session == id then [e] else [])
  {
    assert (a + [e])[..|a|] == a;
  }

  lemma EventsGrow(a: Events, b: Events, e: Writer.Event, id: Id)
    requires EventsOf(a + b, id) == EventsOf(a, id) + EventsOf(b, id)
    ensures EventsOf((a + b) + [e], id) == EventsOf(a, id) + EventsOf(b + [e], id)
  {
    EventsNext(a + b, e, id);
    EventsNext(b, e, id);
    Writer.Assoc(EventsOf(a, id), EventsOf(b, id), if e.session == id then [e] else []);
  }

  lemma {:induction false} EventsConcat(a: Events, b: Events, id: Id)
    ensures EventsOf(a + b, id) == EventsOf(a, id) + EventsOf(b, id)
  {
    if b == [] {
      assert a + b == a;
    } else {
      EventsConcat(a, b[..|b| - 1], id);
      EventsGrow(a, b[..|b| - 1], b[|b| - 1], id);
      Writer.SplitLast(a, b);
    }
  }

  function EventIn(command: Writer.Command): Events {
    if command.EventCommand? then [command.event] else []
  }

  lemma QueuedNext(queue: seq<Writer.Command>, command: Writer.Command)
    ensures Queued(queue + [command]) == Queued(queue) + EventIn(command)
  {
    assert (queue + [command])[..|queue|] == queue;
  }

  lemma QueuedGrow(a: seq<Writer.Command>, b: seq<Writer.Command>, command: Writer.Command)
    requires Queued(a + b) == Queued(a) + Queued(b)
    ensures Queued((a + b) + [command]) == Queued(a) + Queued(b + [command])
  {
    QueuedNext(a + b, command);
    QueuedNext(b, command);
    Writer.Assoc(Queued(a), Queued(b), EventIn(command));
  }

  lemma {:induction false} QueuedConcat(a: seq<Writer.Command>, b: seq<Writer.Command>)
    ensures Queued(a + b) == Queued(a) + Queued(b)
  {
    if b == [] {
      assert a + b == a;
    } else {
      QueuedConcat(a, b[..|b| - 1]);
      QueuedGrow(a, b[..|b| - 1], b[|b| - 1]);
      Writer.SplitLast(a, b);
    }
  }

  lemma QueuedHead(queue: seq<Writer.Command>)
    requires queue != []
    ensures Queued(queue) == EventIn(queue[0]) + Queued(queue[1..])
  {
    assert queue == [queue[0]] + queue[1..];
    QueuedConcat([queue[0]], queue[1..]);
    QueuedNext([], queue[0]);
    assert [] + [queue[0]] == [queue[0]];
  }

  // ----- Invariant -----

  /** Strictly increasing numbers, each of a committed tick and with its count of new addresses. */
  predicate Orderly(events: Events, ticks: seq<Tick>) {
    && (forall i, j | 0 <= i < j < |events| :: events[i].sequence < events[j].sequence)
    && (forall i | 0 <= i < |events| ::
          1 <= events[i].sequence <= |ticks| && ticks[events[i].sequence - 1].newIPs == events[i].newIPs)
  }

  /** The event of the newest tick, ahead of everything in the pipeline. */
  predicate Ahead(e: Writer.Event, events: Events, ticks: seq<Tick>) {
    && ticks != [] && e.sequence == |ticks| && e.newIPs == ticks[|ticks| - 1].newIPs
    && forall i | 0 <= i < |events| :: events[i].sequence < e.sequence
  }

  ghost predicate PipeOk(s: State, id: Id) {
    Countable(TicksOf(s, id)) ==>
      && Orderly(Pipe(s, id), TicksOf(s, id))
      && forall h | h in s.heap && s.heap[h].session == id && s.heap[h].pc.Enqueueing? ::
           Ahead(s.heap[h].pc.event, Pipe(s, id), TicksOf(s, id))
  }

  // ----- Actions that at most lose events -----

  /** thin is full without a stretch of it. */
  ghost predicate Thinner(thin: Events, full: Events) {
    exists a, b, c :: full == a + (b + c) && thin == a + c
  }

  lemma CutIndex(a: Events, b: Events, c: Events, i: nat) returns (j: nat)
    requires i < |a + c|
    ensures j == (if i < |a| then i else i + |b|) && j < |a + (b + c)| && (a + c)[i] == (a + (b + c))[j]
  {
    j := if i < |a| then i else i + |b|;
  }

  lemma CutOrderly(a: Events, b: Events, c: Events, ticks: seq<Tick>)
    requires Orderly(a + (b + c), ticks)
    ensures Orderly(a + c, ticks)
  {
    var thin, full := a + c, a + (b + c);
    forall i | 0 <= i < |thin|
      ensures 1 <= thin[i].sequence <= |ticks| && ticks[thin[i].sequence - 1].newIPs == thin[i].newIPs
    {
      var x := CutIndex(a, b, c, i);
    }
    forall i, j | 0 <= i < j < |thin| ensures thin[i].sequence < thin[j].sequence {
      var x := CutIndex(a, b, c, i);
      var y := CutIndex(a, b, c, j);
      assert full[x].sequence < full[y].sequence;
    }
  }

  lemma CutAhead(a: Events, b: Events, c: Events, ticks: seq<Tick>, e: Writer.Event)
    requires Ahead(e, a + (b + c), ticks)
    ensures Ahead(e, a + c, ticks)
  {
    forall i | 0 <= i < |a + c| ensures (a + c)[i].sequence < e.sequence {
      var x := CutIndex(a, b, c, i);
    }
  }

  lemma ThinnerOrderly(thin: Events, full: Events, ticks: seq<Tick>)
    requires Thinner(thin, full) && Orderly(full, ticks)
    ensures Orderly(thin, ticks)
    ensures forall e :: Ahead(e, full, ticks) ==> Ahead(e, thin, ticks)
  {
    var a, b, c :| full == a + (b + c) && thin == a + c;
    CutOrderly(a, b, c, ticks);
    forall e | Ahead(e, full, ticks) ensures Ahead(e, thin, ticks) {
      CutAhead(a, b, c, ticks, e);
    }
  }

  lemma ThinnerSame(full: Events)
    ensures Thinner(full, full)
  {
    assert full == full + ([] + []) && full == full + [];
  }

  predicate NoNewEnqueuer(s: State, s': State, id: Id) {
    forall h | h in s'.heap && s'.heap[h].session == id && s'.heap[h].pc.Enqueueing? ::
      h in s.heap && s.heap[h].session == id && s.heap[h].pc == s'.heap[h].pc
  }

  lemma ThinnerPipe(s: State, s': State, id: Id)
    requires PipeOk(s, id) && Thinner(Pipe(s', id), Pipe(s, id)) && TicksOf(s', id) == TicksOf(s, id)
    requires NoNewEnqueuer(s, s', id)
    ensures PipeOk(s', id)
  {
    if Countable(TicksOf(s, id)) {
      ThinnerOrderly(Pipe(s', id), Pipe(s, id), TicksOf(s, id));
    }
  }

  /** Neither events nor ticks change. */
  lemma SamePipe(s: State, s': State, id: Id)
    requires PipeOk(s, id) && TicksOf(s', id) == TicksOf(s, id) && NoNewEnqueuer(s, s', id)
    requires s'.stored == s.stored && s'.core.batch == s.core.batch && s'.core.queue == s.core.queue
    ensures PipeOk(s', id)
  {
    ThinnerSame(Pipe(s, id));
    ThinnerPipe(s, s', id);
  }

  // ----- The writer -----

  lemma Regroup(a: Events, b: Events, c: Events)
    ensures a + b + c == a + (b + c)
  {
  }

  /** The writer hands its batch to ClickHouse, which may or may not keep it. */
  lemma FlushPipe(s: State, s': State, id: Id, landed: bool)
    requires PipeOk(s, id) && s' == s.(core := s'.core, stored := s.stored + (if landed then s.core.batch else []))
    requires s'.core.batch == [] && s'.core.queue == s.core.queue
    ensures PipeOk(s', id)
  {
    var a, b, c := EventsOf(s.stored, id), EventsOf(s.core.batch, id), EventsOf(Queued(s.core.queue), id);
    EventsConcat(s.stored, s.core.batch, id);
    assert s.stored + [] == s.stored;
    if landed {
      Regroup(a, b, c);
      assert Pipe(s', id) == a + b + ([] + c) == Pipe(s, id);
      ThinnerSame(Pipe(s, id));
    } else {
      assert Pipe(s', id) == a + ([] + c) == a + c;
    }
    ThinnerPipe(s, s', id);
  }

  /** The writer takes an event from the channel into its batch. */
  lemma TakePipe(s: State, s': State, id: Id)
    requires PipeOk(s, id) && s.core.queue != [] && s.core.queue[0].EventCommand?
    requires s' == s.(core := s'.core)
    requires s'.core.batch == s.core.batch + [s.core.queue[0].event] && s'.core.queue == s.core.queue[1..]
    ensures PipeOk(s', id)
  {
    var e := s.core.queue[0].event;
    QueuedHead(s.core.queue);
    EventsNext(s.core.batch, e, id);
    EventsConcat([e], Queued(s.core.queue[1..]), id);
    EventsNext([], e, id);
    assert [] + [e] == [e];
    assert Pipe(s', id) == Pipe(s, id);
    ThinnerSame(Pipe(s, id));
    ThinnerPipe(s, s', id);
  }

  predicate Receives(s: State, s': State, sent: bool, landed: bool)
    requires s.core.queue != []
  {
    s' == s.(core := Writer.Receive(s.core, sent, s.batchSize),
             stored := s.stored + (if landed then Writer.Handed(s.core, s.batchSize) else []))
  }

  lemma ReceiveEventPipe(s: State, s': State, id: Id, sent: bool, landed: bool)
    requires PipeOk(s, id) && s.core.queue != [] && s.core.queue[0].EventCommand? && Receives(s, s', sent, landed)
    ensures PipeOk(s', id)
  {
    var taken := s.(core := s.core.(queue := s.core.queue[1..], batch := s.core.batch + [s.core.queue[0].event]));
    TakePipe(s, taken, id);
    if |s.core.batch| + 1 >= s.batchSize {
      FlushPipe(taken, s', id, landed);
    } else {
      assert s.stored + [] == s.stored;
      SamePipe(taken, s', id);
    }
  }

  lemma DropBarrierPipe(s: State, s': State, id: Id)
    requires PipeOk(s, id) && s.core.queue != [] && s.core.queue[0].BarrierCommand?
    requires s' == s.(core := s.core.(queue := s.core.queue[1..]))
    ensures PipeOk(s', id)
  {
    QueuedHead(s.core.queue);
    assert [] + Queued(s.core.queue[1..]) == Queued(s.core.queue[1..]);
    assert Pipe(s', id) == Pipe(s, id);
    ThinnerSame(Pipe(s, id));
    ThinnerPipe(s, s', id);
  }

  lemma ReceiveBarrierPipe(s: State, s': State, id: Id, sent: bool, landed: bool)
    requires PipeOk(s, id) && s.core.queue != [] && s.core.queue[0].BarrierCommand? && Receives(s, s', sent, landed)
    ensures PipeOk(s', id)
  {
    var taken := s.(core := s.core.(queue := s.core.queue[1..]));
    DropBarrierPipe(s, taken, id);
    FlushPipe(taken, s', id, landed);
  }

  lemma ReceivePipe(s: State, s': State, id: Id, sent: bool, landed: bool)
    requires PipeOk(s, id) && s.core.queue != [] && Receives(s, s', sent, landed)
    ensures PipeOk(s', id)
  {
    if s.core.queue[0].EventCommand? {
      ReceiveEventPipe(s, s', id, sent, landed);
    } else {
      ReceiveBarrierPipe(s, s', id, sent, landed);
    }
  }

  lemma TickerPipe(s: State, id: Id, sent: bool, landed: bool)
    requires PipeOk(s, id)
    ensures PipeOk(s.(core := Writer.Flush(s.core, sent), stored := s.stored + (if landed then s.core.batch else [])), id)
  {
    FlushPipe(s, s.(core := Writer.Flush(s.core, sent), stored := s.stored + (if landed then s.core.batch else [])), id, landed);
  }

  // ----- The worker -----

  lemma EnqueuePipe(s: State, h: Handle, event: Writer.Event, accepting: bool, id: Id)
    requires Inv(s) && PipeOk(s, id) && h in s.heap && s.heap[h].pc == Enqueueing(event)
    ensures PipeOk(EnqueueStep(s, h, event, accepting), id)
  {
    var s' := EnqueueStep(s, h, event, accepting);
    assert WorkerOk(s, h, s.heap[h]);
    var offered := Writer.Offer(s.core, Writer.EventCommand(event), s.capacity);
    if accepting && Writer.ValidEvent(event) && offered.1 {
      AcceptedPipe(s, s', h, event, id);
    } else {
      assert s'.core.queue == s.core.queue;
      DroppedPipe(s, s', h, id);
    }
  }

  lemma DroppedPipe(s: State, s': State, h: Handle, id: Id)
    requires PipeOk(s, id) && h in s.heap
    requires s' == s.(heap := s.heap[h := s.heap[h].(pc := Resting(true))])
    ensures PipeOk(s', id)
  {
    SamePipe(s, s', id);
  }

  lemma AcceptedPipe(s: State, s': State, h: Handle, event: Writer.Event, id: Id)
    requires WorkersOk(s) && PipeOk(s, id) && h in s.heap && s.heap[h].pc == Enqueueing(event) && WorkerOk(s, h, s.heap[h])
    requires s' == s.(heap := s.heap[h := s.heap[h].(pc := Resting(true))], core := s'.core)
    requires s'.core.batch == s.core.batch && s'.core.queue == s.core.queue + [Writer.EventCommand(event)]
    ensures PipeOk(s', id)
  {
    QueuedNext(s.core.queue, Writer.EventCommand(event));
    EventsNext(Queued(s.core.queue), event, id);
    if event.session != id {
      OtherAcceptedPipe(s, s', h, id);
    } else {
      PipeGrows(s, s', event, id);
      OwnAcceptedPipe(s, s', h, event, id);
    }
  }

  lemma PipeGrows(s: State, s': State, event: Writer.Event, id: Id)
    requires s'.stored == s.stored && s'.core.batch == s.core.batch
    requires EventsOf(Queued(s'.core.queue), id) == EventsOf(Queued(s.core.queue), id) + [event]
    ensures Pipe(s', id) == Pipe(s, id) + [event]
  {
    var a, b, c := EventsOf(s.stored, id), EventsOf(s.core.batch, id), EventsOf(Queued(s.core.queue), id);
    assert a + (b + (c + [event])) == a + (b + c) + [event];
  }

  lemma OtherAcceptedPipe(s: State, s': State, h: Handle, id: Id)
    requires PipeOk(s, id) && h in s.heap
    requires s' == s.(heap := s.heap[h := s.heap[h].(pc := Resting(true))], core := s'.core)
    requires s'.core.batch == s.core.batch && EventsOf(Queued(s'.core.queue), id) == EventsOf(Queued(s.core.queue), id)
    ensures PipeOk(s', id)
  {
    assert Pipe(s', id) == Pipe(s, id);
    ThinnerSame(Pipe(s, id));
    ThinnerPipe(s, s', id);
  }

  lemma OwnAcceptedPipe(s: State, s': State, h: Handle, event: Writer.Event, id: Id)
    requires WorkersOk(s) && PipeOk(s, id) && h in s.heap && s.heap[h].pc == Enqueueing(event) && WorkerOk(s, h, s.heap[h])
    requires s' == s.(heap := s.heap[h := s.heap[h].(pc := Resting(true))], core := s'.core)
    requires event.session == id && Pipe(s', id) == Pipe(s, id) + [event]
    ensures PipeOk(s', id)
  {
    forall g | g in s'.heap && s'.heap[g].session == id ensures !s'.heap[g].pc.Enqueueing? {
      assert WorkerOk(s, g, s.heap[g]);
    }
    if Countable(TicksOf(s, id)) {
      AppendOrderly(Pipe(s, id), TicksOf(s, id), event);
    }
  }

  lemma AppendOrderly(events: Events, ticks: seq<Tick>, e: Writer.Event)
    requires Orderly(events, ticks) && Ahead(e, events, ticks)
    ensures Orderly(events + [e], ticks)
  {
  }

  lemma NewestTick(events: Events, ticks: seq<Tick>, tick: Tick, e: Writer.Event)
    requires Orderly(events, ticks) && e.sequence == |ticks| + 1 && e.newIPs == tick.newIPs
    ensures Orderly(events, ticks + [tick]) && Ahead(e, events, ticks + [tick])
  {
  }

  /** The state after a committed tick of worker h, in so many words. */
  predicate Ticks(s: State, s': State, h: Handle, sample: Sample)
    requires h in s.heap && s.heap[h].session in s.rows
  {
    var w := s.heap[h];
    s' == s.(heap := s.heap[h := w.(prepared := AfterTick(w.prepared, sample), pc := Enqueueing(TickEvent(w.prepared, sample)))],
             rows := s.rows[w.session := SavedRow(w.prepared, s.rows[w.session], sample)],
             ticks := s.ticks[w.session := TicksOf(s, w.session) + [Committed(w.prepared, sample)]])
  }

  lemma OwnTickPipe(s: State, s': State, h: Handle, sample: Sample, id: Id)
    requires WorkersOk(s) && PipeOk(s, id) && h in s.heap && s.heap[h].session == id && id in s.rows && Ticks(s, s', h, sample)
    requires Countable(TicksOf(s', id)) ==> TickEvent(s.heap[h].prepared, sample).sequence == |TicksOf(s', id)|
    requires WorkerOk(s, h, s.heap[h]) && Attached(s.heap[h])
    ensures PipeOk(s', id)
  {
    if Countable(TicksOf(s', id)) {
      assert Pipe(s', id) == Pipe(s, id);
      NewestTick(Pipe(s, id), TicksOf(s, id), Committed(s.heap[h].prepared, sample), TickEvent(s.heap[h].prepared, sample));
      forall g | g in s'.heap && s'.heap[g].session == id && s'.heap[g].pc.Enqueueing? ensures g == h {
        assert WorkerOk(s, g, s.heap[g]);
      }
    }
  }

  lemma SavedPipe(s: State, s': State, h: Handle, sample: Sample, id: Id)
    requires Inv(s) && PipeOk(s, id) && h in s.heap && s.heap[h].pc == Ticking && Tallied(sample, s.heap[h].prepared.seen)
    requires WorkerOk(s, h, s.heap[h]) && s.heap[h].session in s.rows && Ticks(s, s', h, sample)
    requires RowAgrees(s.rows[s.heap[h].session], TicksOf(s, s.heap[h].session))
    ensures PipeOk(s', id)
  {
    var w := s.heap[h];
    if w.session != id {
      SamePipe(s, s', id);
    } else {
      TickKeepsAgreement(w.prepared, s.rows[id], TicksOf(s, id), sample);
      OwnTickPipe(s, s', h, sample, id);
    }
  }

  lemma TickIs(s: State, h: Handle, sample: Sample)
    requires h in s.heap && s.heap[h].session in s.rows
    ensures Ticks(s, TickStep(s, h, sample, true), h, sample)
  {
  }

  lemma TickPipe(s: State, h: Handle, sample: Sample, saved: bool, id: Id)
    requires Inv(s) && PipeOk(s, id) && h in s.heap && s.heap[h].pc == Ticking && Tallied(sample, s.heap[h].prepared.seen)
    ensures PipeOk(TickStep(s, h, sample, saved), id)
  {
    if saved {
      var w := s.heap[h];
      assert WorkerOk(s, h, w) && RowAgrees(s.rows[w.session], s.ticks[w.session]);
      TickIs(s, h, sample);
      SavedPipe(s, TickStep(s, h, sample, true), h, sample, id);
    } else {
      GoPipe(s, h, Resting(false), id);
    }
  }

  lemma GoPipe(s: State, h: Handle, pc: WorkerPc, id: Id)
    requires PipeOk(s, id) && h in s.heap && !pc.Enqueueing?
    ensures PipeOk(GoWorker(s, h, pc), id)
  {
    SamePipe(s, GoWorker(s, h, pc), id);
  }

  lemma WorkersPipe(s: State, workers: map<Id, Handle>, id: Id)
    requires PipeOk(s, id)
    ensures PipeOk(s.(workers := workers), id)
  {
    SamePipe(s, s.(workers := workers), id);
  }

  lemma TopPipe(s: State, h: Handle, id: Id)
    requires PipeOk(s, id) && h in s.heap
    ensures PipeOk(TopStep(s, h), id)
  {
    var w := s.heap[h];
    GoPipe(s, h, if Halted(s, w) then Returned else if CapReached(w.prepared, s.now) then Finishing else Ticking, id);
  }

  lemma RestPipe(s: State, h: Handle, persisted: bool, id: Id)
    requires PipeOk(s, id) && h in s.heap
    ensures PipeOk(RestStep(s, h, persisted), id)
  {
    var w := s.heap[h];
    GoPipe(s, h, if Halted(s, w) then Returned else if persisted && CapReached(w.prepared, s.now) then Finishing else Top, id);
  }

  lemma RemovePipe(s: State, h: Handle, id: Id)
    requires PipeOk(s, id) && h in s.heap
    ensures PipeOk(RemoveStep(s, h), id)
  {
    var gone := GoWorker(s, h, Removed);
    GoPipe(s, h, Removed, id);
    WorkersPipe(gone, RemoveStep(s, h).workers, id);
  }

  lemma FinishPipe(s: State, h: Handle, reached: bool, id: Id)
    requires PipeOk(s, id) && h in s.heap
    requires s.heap[h].pc == Finishing
    ensures PipeOk(FinishStep(s, h, reached), id)
  {
    SamePipe(s, FinishStep(s, h, reached), id);
  }

  lemma WorkerPipe(s: State, step: Step, id: Id)
    requires Inv(s) && PipeOk(s, id) && Enabled(s, step) && Safety.WorkerStep(step)
    ensures PipeOk(Apply(s, step), id)
  {
    match step
    case WorkerTick(h, sample, saved) => TickPipe(s, h, sample, saved, id);
    case WorkerEnqueue(h, accepting) => EnqueuePipe(s, h, s.heap[h].pc.event, accepting, id);
    case WorkerTop(h) => TopPipe(s, h, id);
    case WorkerRest(h) => RestPipe(s, h, s.heap[h].pc.persisted, id);
    case WorkerFinish(h, reached) => FinishPipe(s, h, reached, id);
    case WorkerRemove(h) => RemovePipe(s, h, id);
    case WorkerExit(h) => GoPipe(s, h, Exited, id);
  }

  // ----- Calls -----

  lemma {:induction false} WithoutOf(stored: Events, ids: seq<Id>, id: Id)
    ensures EventsOf(Without(stored, ids), id) == if id in ids then [] else EventsOf(stored, id)
  {
    if stored != [] {
      var init, last := stored[..|stored| - 1], stored[|stored| - 1];
      WithoutOf(init, ids, id);
      EventsNext(Without(init, ids), last, id);
      if last.session in ids {
        assert Without(init, ids) + [] == Without(init, ids);
      }
    }
  }

  lemma CalmPipe(s: State, s': State, id: Id)
    requires PipeOk(s, id) && Safety.Calm(s, s')
    ensures PipeOk(s', id)
  {
    var a, b, c := EventsOf(s.stored, id), EventsOf(s.core.batch, id), EventsOf(Queued(s.core.queue), id);
    if s'.core.queue != s.core.queue {
      var barrier :| s'.core.queue == s.core.queue + [Writer.BarrierCommand(barrier)];
      QueuedNext(s.core.queue, Writer.BarrierCommand(barrier));
      assert Queued(s.core.queue) + [] == Queued(s.core.queue);
    }
    if s'.stored != s.stored {
      var ids :| s'.stored == Without(s.stored, ids);
      WithoutOf(s.stored, ids, id);
      if id in ids {
        assert Pipe(s', id) == [] + (b + c) && Pipe(s, id) == [] + (a + (b + c));
      } else {
        ThinnerSame(Pipe(s, id));
      }
    } else {
      ThinnerSame(Pipe(s, id));
    }
    ThinnerPipe(s, s', id);
  }

  lemma CrashPipe(s: State, id: Id)
    requires PipeOk(s, id)
    ensures PipeOk(Apply(s, Crash), id)
  {
    var s' := Apply(s, Crash);
    var a, b := EventsOf(s.stored, id), EventsOf(s.core.batch, id) + EventsOf(Queued(s.core.queue), id);
    assert Pipe(s', id) == a + ([] + []) == a + [] && Pipe(s, id) == a + (b + []);
    ThinnerPipe(s, s', id);
  }

  lemma QuietPipe(s: State, step: Step, id: Id)
    requires Inv(s) && PipeOk(s, id) && Enabled(s, step)
    requires step.ReenableRow? || step.AdvanceClock? || step.CancelRoot? || step.Close? || step.Begin?
    ensures PipeOk(Apply(s, step), id)
  {
    SamePipe(s, Apply(s, step), id);
  }

  lemma AdvancePipe(s: State, t: Handle, id: Id)
    requires Inv(s) && PipeOk(s, id) && CanStep(s, t)
    ensures PipeOk(Advance(s, t), id)
  {
    Safety.AdvanceCalm(s, t);
    CalmPipe(s, Advance(s, t), id);
  }

  lemma FailPipe(s: State, t: Handle, id: Id)
    requires Inv(s) && PipeOk(s, id) && CanFail(s, t)
    ensures PipeOk(Fail(s, t), id)
  {
    Safety.SetCallCalm(s, t, s.calls[t].(pc := AfterFailure(s.heap, s.calls[t].pc)));
    CalmPipe(s, Fail(s, t), id);
  }

  lemma CallerPipe(s: State, step: Step, id: Id)
    requires Inv(s) && PipeOk(s, id) && Enabled(s, step) && Safety.CallerStep(step)
    ensures PipeOk(Apply(s, step), id)
  {
    match step
    case CallStep(t) => AdvancePipe(s, t, id);
    case CallFails(t) => FailPipe(s, t, id);
    case Begin(_, _) => QuietPipe(s, step, id);
  }

  lemma ReceivedPipe(s: State, sent: bool, landed: bool, id: Id)
    requires PipeOk(s, id) && Enabled(s, WriterReceive(sent, landed))
    ensures PipeOk(Apply(s, WriterReceive(sent, landed)), id)
  {
    ReceivePipe(s, Apply(s, WriterReceive(sent, landed)), id, sent, landed);
  }

  lemma OutsidePipe(s: State, step: Step, id: Id)
    requires Inv(s) && PipeOk(s, id) && Enabled(s, step) && !Safety.CallerStep(step) && !Safety.WorkerStep(step)
    ensures PipeOk(Apply(s, step), id)
  {
    match step
    case WriterReceive(sent, landed) => ReceivedPipe(s, sent, landed, id);
    case WriterTick(sent, landed) => TickerPipe(s, id, sent, landed);
    case Crash => CrashPipe(s, id);
    case Create(created, maxSamples, maxDuration, startedAt, alone) =>
      CreatePipe(s, created, Store.Row(Store.Running, 0, 0, maxSamples, maxDuration, Some(startedAt), 0, 0, map[]), alone, id);
    case _ => QuietPipe(s, step, id);
  }

  lemma StepKeepsPipe(s: State, step: Step, id: Id)
    requires Inv(s) && PipeOk(s, id) && Enabled(s, step)
    ensures PipeOk(Apply(s, step), id)
  {
    if Safety.WorkerStep(step) {
      WorkerPipe(s, step, id);
    } else if Safety.CallerStep(step) {
      CallerPipe(s, step, id);
    } else {
      OutsidePipe(s, step, id);
    }
  }

  lemma CreatedPipe(s: State, s': State, created: Id, id: Id)
    requires RowsOk(s) && PipeOk(s, id) && created !in s.named
    requires s' == s.(rows := s'.rows, ticks := s.ticks[created := []], named := s'.named)
    ensures PipeOk(s', id)
  {
    assert created !in s.ticks;
    SamePipe(s, s', id);
  }

  lemma BegunPipe(s: State, calls: map<Handle, Call>, next: Handle, id: Id)
    requires PipeOk(s, id)
    ensures PipeOk(s.(calls := calls, next := next), id)
  {
    SamePipe(s, s.(calls := calls, next := next), id);
  }

  lemma CreatePipe(s: State, created: Id, row: Store.Row, alone: bool, id: Id)
    requires RowsOk(s) && PipeOk(s, id) && created !in s.named
    ensures PipeOk(CreateStep(s, created, row, alone), id)
  {
    var plain := CreateStep(s, created, row, false);
    CreatedPipe(s, plain, created, id);
    if alone {
      BegunPipe(plain, CreateStep(s, created, row, true).calls, s.next + 1, id);
    }
  }

  // ----- Results -----

  lemma GoesKeepsPipe(s: State, step: Step, s': State, id: Id)
    requires Inv(s) && PipeOk(s, id) && Safety.Goes(s, step, s')
    ensures PipeOk(s', id)
  {
    StepKeepsPipe(s, step, id);
  }

  lemma InitPipe(s: State, id: Id)
    requires Init(s)
    ensures PipeOk(s, id)
  {
    assert Pipe(s, id) == [];
  }

  lemma {:induction false} RunKeepsPipe(states: seq<State>, steps: seq<Step>, i: nat, id: Id)
    requires Safety.IsCarefulRun(states, steps) && i < |states|
    ensures PipeOk(states[i], id)
  {
    if i == 0 {
      InitPipe(states[0], id);
    } else {
      Safety.RunKeepsInv(states, steps, i - 1);
      RunKeepsPipe(states, steps, i - 1, id);
      assert Safety.StepAt(states, steps, i - 1);
      GoesKeepsPipe(states[i - 1], steps[i - 1], states[i], id);
    }
  }

  /** In every run, crashes and failed batches included: the samples stored for a session carry strictly
      increasing numbers, so none is stored twice, and each is the number of a committed tick. */
  lemma NoNumberStoredTwice(states: seq<State>, steps: seq<Step>, i: nat, id: Id)
    requires Safety.IsCarefulRun(states, steps) && i < |states| && Countable(TicksOf(states[i], id))
    ensures Orderly(EventsOf(states[i].stored, id), TicksOf(states[i], id))
  {
    RunKeepsPipe(states, steps, i, id);
    var a := EventsOf(states[i].stored, id);
    var b := Pipe(states[i], id)[|a|..];
    assert Pipe(states[i], id) == a + (b + []) && a == a + [];
    ThinnerOrderly(a, Pipe(states[i], id), TicksOf(states[i], id));
  }
}
