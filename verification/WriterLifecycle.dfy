/** Any number of concurrent Enqueue, Flush and Close calls against the writer's run loop: the
    read-write lock around the channel, the close protocol, and what is left when done closes. */
module WriterLifecycle {
  import Core = SampleWriter

  type Handle = nat

  datatype Op = Enqueueing(event: Core.Event) | Flushing | Closing

  /** Where a call is. Holding, Sending and Releasing hold the read lock; a returned call is kept as
      history with its result. */
  datatype Pc = Enter | AwaitLock | Holding | Sending | Releasing(sent: bool) | Awaiting | Returned(result: bool)

  datatype Call = Call(op: Op, pc: Pc)

  /** The goroutine that initiates the close, once per writer. */
  datatype Closer = Idle | WaitLock | Locked | Refusing | Closed | Finished

  /** owners is history: which call sent each accepted command. panicked says a send or close hit a
      closed channel. closeErr is set together with done; closeFailed is the outcome of closing the
      owned connection just before. */
  datatype State = State(
    core: Core.Core,
    accepting: bool,
    closing: bool,
    channelClosed: bool,
    closer: Closer,
    done: bool,
    closeErr: bool,
    closeFailed: bool,
    calls: map<Handle, Call>,
    owners: seq<Handle>,
    panicked: bool,
    capacity: nat,
    batchSize: nat)

  datatype Step =
    | Begin(t: Handle, op: Op)
    | Go(t: Handle)
    | TimesOut(t: Handle)
    | CloserGo
    | Receive(sent: bool)
    | Ticker(sent: bool)
    | Finish(sent: bool, closed: bool)

  function Goto(s: State, t: Handle, pc: Pc): State
    requires t in s.calls
  {
    s.(calls := s.calls[t := s.calls[t].(pc := pc)])
  }

  predicate Reads(pc: Pc) { pc.Holding? || pc.Sending? || pc.Releasing? }

  predicate HoldsWriteLock(closer: Closer) { closer.Locked? || closer.Refusing? || closer.Closed? }

  function CommandOf(t: Handle, op: Op): Core.Command {
    match op
    case Enqueueing(event) => Core.EventCommand(event)
    case _ => Core.BarrierCommand(t)
  }

  function EnterStep(s: State, t: Handle): State
    requires t in s.calls
  {
    match s.calls[t].op
    case Enqueueing(event) =>
      if !Core.ValidEvent(event) || s.closing then Goto(s, t, Returned(false)) else Goto(s, t, AwaitLock)
    case Flushing => if s.closing then Goto(s, t, Returned(false)) else Goto(s, t, AwaitLock)
    case Closing =>
      var waiting := Goto(s, t, Awaiting);
      if s.closer.Idle? then waiting.(closing := true, closer := WaitLock) else waiting
  }

  /** The channel send. A full channel rejects an event and blocks a barrier. */
  function SendStep(s: State, t: Handle): State
    requires t in s.calls
  {
    var (core, sent) := Core.Offer(s.core, CommandOf(t, s.calls[t].op), s.capacity);
    if s.channelClosed then s.(panicked := true)
    else Goto(s, t, Releasing(sent)).(core := core, owners := if sent then s.owners + [t] else s.owners)
  }

  predicate Answered(core: Core.Core, t: Handle, ok: bool) { Core.BarrierAnswered(t, ok) in core.log }

  predicate CanGo(s: State, t: Handle) {
    t in s.calls &&
    match s.calls[t].pc
    case Enter | Holding | Releasing(_) => true
    case AwaitLock => !HoldsWriteLock(s.closer)
    case Sending => s.calls[t].op.Enqueueing? || s.channelClosed || |s.core.queue| < s.capacity
    case Awaiting => if s.calls[t].op.Closing? then s.done else Answered(s.core, t, true) || Answered(s.core, t, false)
    case Returned(_) => false
  }

  function GoStep(s: State, t: Handle): State
    requires CanGo(s, t)
  {
    match s.calls[t].pc
    case Enter => EnterStep(s, t)
    case AwaitLock => Goto(s, t, Holding)
    case Holding => if !s.accepting || s.closing then Goto(s, t, Releasing(false)) else Goto(s, t, Sending)
    case Sending => SendStep(s, t)
    case Releasing(sent) =>
      if sent && s.calls[t].op.Flushing? then Goto(s, t, Awaiting) else Goto(s, t, Returned(sent))
    case Awaiting =>
      Goto(s, t, Returned(if s.calls[t].op.Closing? then !s.closeErr else Answered(s.core, t, true)))
  }

  /** A Flush gives up waiting for room or for its answer, a Close for done. */
  predicate CanTimeOut(s: State, t: Handle) {
    t in s.calls && !s.calls[t].op.Enqueueing? && (s.calls[t].pc.Sending? || s.calls[t].pc.Awaiting?)
  }

  predicate NoReaders(s: State) {
    forall t | t in s.calls :: !Reads(s.calls[t].pc)
  }

  function CloserStep(s: State): State {
    match s.closer
    case WaitLock => s.(closer := Locked)
    case Locked => s.(accepting := false, closer := Refusing)
    case Refusing => if s.channelClosed then s.(panicked := true) else s.(channelClosed := true, closer := Closed)
    case Closed => s.(closer := Finished)
    case _ => s
  }

  predicate Enabled(s: State, step: Step) {
    match step
    case Begin(t, _) => t !in s.calls
    case Go(t) => CanGo(s, t)
    case TimesOut(t) => CanTimeOut(s, t)
    case CloserGo => s.closer.Locked? || s.closer.Refusing? || s.closer.Closed? || (s.closer.WaitLock? && NoReaders(s))
    case Receive(_) => !s.done && s.core.queue != []
    case Ticker(_) => !s.done
    case Finish(_, _) => !s.done && s.channelClosed && s.core.queue == []
  }

  function Apply(s: State, step: Step): State
    requires Enabled(s, step)
  {
    match step
    case Begin(t, op) => s.(calls := s.calls[t := Call(op, Enter)])
    case Go(t) => GoStep(s, t)
    case TimesOut(t) => Goto(s, t, if s.calls[t].pc.Sending? then Releasing(false) else Returned(false))
    case CloserGo => CloserStep(s)
    case Receive(sent) => s.(core := Core.Receive(s.core, sent, s.batchSize))
    case Ticker(sent) => s.(core := Core.Flush(s.core, sent))
    case Finish(sent, closed) =>
      var flushed := Core.Flush(s.core, sent);
      s.(core := flushed, done := true, closeErr := flushed.pendingErr || !closed, closeFailed := !closed)
  }

  predicate Init(s: State) {
    && s.core == Core.EMPTY && s.accepting && !s.closing && !s.channelClosed && s.closer == Idle && !s.done && !s.closeErr && !s.closeFailed
    && s.calls == map[] && s.owners == [] && !s.panicked && 0 < s.batchSize
  }

  // ----- Invariant -----

  predicate CloserOk(s: State) {
    && (s.closing <==> s.closer != Idle)
    && (s.accepting <==> s.closer.Idle? || s.closer.WaitLock? || s.closer.Locked?)
    && (s.channelClosed <==> s.closer.Closed? || s.closer.Finished?)
    && (s.done ==> s.channelClosed && s.core.queue == [] && s.core.batch == []
                   && s.closeErr == (Core.FailedSinceBarrier(s.core.log) || s.closeFailed))
    && !s.panicked
  }

  /** A reader excludes the write lock, so a call about to send faces an open channel. */
  predicate CallOk(s: State, t: Handle)
    requires t in s.calls
  {
    var c := s.calls[t];
    && (Reads(c.pc) ==> !HoldsWriteLock(s.closer))
    && (c.pc.Sending? ==> s.accepting)
    && (c.op.Closing? ==> c.pc.Enter? || c.pc.Awaiting? || c.pc.Returned?)
    && (c.op.Enqueueing? ==> !c.pc.Awaiting?)
    && (c.pc.Enter? || c.pc.AwaitLock? || c.pc.Holding? || c.pc.Sending? ==> t !in s.owners)
    && (c.op.Enqueueing? ==> (t in s.owners <==> c.pc == Releasing(true) || c.pc == Returned(true)))
    && (c.op.Flushing? && c.pc == Returned(true) ==> Answered(s.core, t, true))
    && (c.op.Closing? && c.pc == Returned(true) ==> s.done && !s.closeErr)
  }

  predicate CallsOk(s: State) {
    forall t {:trigger CallOk(s, t)} | t in s.calls :: CallOk(s, t)
  }

  /** Every accepted command was sent by one call, and every call sends at most one. */
  predicate OwnersOk(s: State) {
    && |s.owners| == |s.core.accepted|
    && (forall i, j | 0 <= i < j < |s.owners| :: s.owners[i] != s.owners[j])
    && (forall i | 0 <= i < |s.owners| ::
          s.owners[i] in s.calls && s.core.accepted[i] == CommandOf(s.owners[i], s.calls[s.owners[i]].op))
  }

  predicate Inv(s: State) {
    CloserOk(s) && CallsOk(s) && OwnersOk(s) && Core.Inv(s.core, s.batchSize)
  }

  // ----- Preservation -----

  /** Only call t moves; lock, channel and history stay. */
  lemma MoveKeeps(s: State, t: Handle, pc: Pc)
    requires Inv(s) && t in s.calls && CallOk(Goto(s, t, pc), t)
    ensures Inv(Goto(s, t, pc))
  {
    var s' := Goto(s, t, pc);
    forall u | u in s'.calls ensures CallOk(s', u) {
      assert CallOk(s, u);
    }
  }

  lemma BeginKeeps(s: State, t: Handle, op: Op)
    requires Inv(s) && t !in s.calls
    ensures Inv(s.(calls := s.calls[t := Call(op, Enter)]))
  {
    var s' := s.(calls := s.calls[t := Call(op, Enter)]);
    forall u | u in s'.calls ensures CallOk(s', u) {
      assert u != t ==> CallOk(s, u);
    }
  }

  lemma CloseBeginsKeeps(s: State, t: Handle)
    requires Inv(s) && t in s.calls && s.calls[t] == Call(Closing, Enter) && s.closer.Idle?
    ensures Inv(Goto(s, t, Awaiting).(closing := true, closer := WaitLock))
  {
    var s' := Goto(s, t, Awaiting).(closing := true, closer := WaitLock);
    forall u | u in s'.calls ensures CallOk(s', u) {
      assert CallOk(s, u);
    }
  }

  lemma SentCallsOk(s: State, s': State, t: Handle, sent: bool)
    requires CallsOk(s) && t in s.calls && s.calls[t].pc.Sending? && !s.calls[t].op.Closing?
    requires s' == Goto(s, t, Releasing(sent)).(core := s'.core, owners := if sent then s.owners + [t] else s.owners)
    requires s'.core.log == s.core.log
    ensures CallsOk(s')
  {
    forall u | u in s'.calls ensures CallOk(s', u) {
      assert CallOk(s, u);
      if sent {
        assert u in s'.owners <==> u in s.owners || u == t;
      }
    }
  }

  /** The channel is open, so the send does not panic. */
  lemma SendKeeps(s: State, t: Handle)
    requires Inv(s) && t in s.calls && s.calls[t].pc.Sending?
    ensures Inv(SendStep(s, t))
  {
    assert CallOk(s, t);
    var command := CommandOf(t, s.calls[t].op);
    var sent := Core.Offer(s.core, command, s.capacity).1;
    var s' := SendStep(s, t);
    Core.OfferKeepsInv(s.core, command, s.capacity, s.batchSize);
    SentCallsOk(s, s', t, sent);
  }

  lemma EnterKeeps(s: State, t: Handle)
    requires Inv(s) && t in s.calls && s.calls[t].pc.Enter?
    ensures Inv(EnterStep(s, t))
  {
    assert CallOk(s, t);
    match s.calls[t].op
    case Enqueueing(event) =>
      MoveKeeps(s, t, if !Core.ValidEvent(event) || s.closing then Returned(false) else AwaitLock);
    case Flushing => MoveKeeps(s, t, if s.closing then Returned(false) else AwaitLock);
    case Closing =>
      if s.closer.Idle? {
        CloseBeginsKeeps(s, t);
      } else {
        MoveKeeps(s, t, Awaiting);
      }
  }

  lemma GoKeeps(s: State, t: Handle)
    requires Inv(s) && CanGo(s, t)
    ensures Inv(GoStep(s, t))
  {
    match s.calls[t].pc
    case Enter => EnterKeeps(s, t);
    case AwaitLock => LockKeeps(s, t);
    case Holding => CheckKeeps(s, t);
    case Sending => SendKeeps(s, t);
    case Releasing(sent) => ReleaseKeeps(s, t, sent);
    case Awaiting => AnswerKeeps(s, t);
  }

  lemma LockKeeps(s: State, t: Handle)
    requires Inv(s) && CanGo(s, t) && s.calls[t].pc == AwaitLock
    ensures Inv(Goto(s, t, Holding))
  {
    assert CallOk(s, t);
    MoveKeeps(s, t, Holding);
  }

  lemma CheckKeeps(s: State, t: Handle)
    requires Inv(s) && t in s.calls && s.calls[t].pc == Holding
    ensures Inv(Goto(s, t, if !s.accepting || s.closing then Releasing(false) else Sending))
  {
    assert CallOk(s, t);
    MoveKeeps(s, t, if !s.accepting || s.closing then Releasing(false) else Sending);
  }

  lemma ReleaseKeeps(s: State, t: Handle, sent: bool)
    requires Inv(s) && t in s.calls && s.calls[t].pc == Releasing(sent)
    ensures Inv(Goto(s, t, if sent && s.calls[t].op.Flushing? then Awaiting else Returned(sent)))
  {
    assert CallOk(s, t);
    MoveKeeps(s, t, if sent && s.calls[t].op.Flushing? then Awaiting else Returned(sent));
  }

  lemma AnswerKeeps(s: State, t: Handle)
    requires Inv(s) && CanGo(s, t) && s.calls[t].pc == Awaiting
    ensures Inv(Goto(s, t, Returned(if s.calls[t].op.Closing? then !s.closeErr else Answered(s.core, t, true))))
  {
    assert CallOk(s, t);
    MoveKeeps(s, t, Returned(if s.calls[t].op.Closing? then !s.closeErr else Answered(s.core, t, true)));
  }

  lemma CloserKeeps(s: State)
    requires Inv(s) && Enabled(s, CloserGo)
    ensures Inv(CloserStep(s))
  {
    var s' := CloserStep(s);
    forall u | u in s'.calls ensures CallOk(s', u) {
      assert CallOk(s, u);
    }
  }

  lemma RunLoopKeeps(s: State, core: Core.Core)
    requires Inv(s) && !s.done && Core.Inv(core, s.batchSize) && core.accepted == s.core.accepted && s.core.log <= core.log
    ensures Inv(s.(core := core))
  {
    var s' := s.(core := core);
    forall u | u in s'.calls ensures CallOk(s', u) {
      assert CallOk(s, u);
    }
  }

  lemma FinishKeeps(s: State, sent: bool, closed: bool)
    requires Inv(s) && Enabled(s, Finish(sent, closed))
    ensures Inv(Apply(s, Finish(sent, closed)))
  {
    Core.FlushKeepsInv(s.core, sent, s.batchSize);
    Core.LogGrows(s.core, sent, s.batchSize);
    var s' := Apply(s, Finish(sent, closed));
    forall u | u in s'.calls ensures CallOk(s', u) {
      assert CallOk(s, u);
    }
  }

  lemma StepKeepsInv(s: State, step: Step)
    requires Inv(s) && Enabled(s, step)
    ensures Inv(Apply(s, step))
  {
    match step
    case Begin(t, op) => BeginKeeps(s, t, op);
    case Go(t) => GoKeeps(s, t);
    case TimesOut(t) =>
      assert CallOk(s, t);
      MoveKeeps(s, t, if s.calls[t].pc.Sending? then Releasing(false) else Returned(false));
    case CloserGo => CloserKeeps(s);
    case Receive(sent) =>
      Core.ReceiveKeepsInv(s.core, sent, s.batchSize);
      Core.LogGrows(s.core, sent, s.batchSize);
      RunLoopKeeps(s, Core.Receive(s.core, sent, s.batchSize));
    case Ticker(sent) =>
      Core.FlushKeepsInv(s.core, sent, s.batchSize);
      Core.LogGrows(s.core, sent, s.batchSize);
      RunLoopKeeps(s, Core.Flush(s.core, sent));
    case Finish(sent, closed) => FinishKeeps(s, sent, closed);
  }

  // ----- Results -----

  ghost predicate StepAt(states: seq<State>, steps: seq<Step>, i: nat)
    requires i + 1 < |states| && i < |steps|
  {
    Enabled(states[i], steps[i]) && states[i + 1] == Apply(states[i], steps[i])
  }

  ghost predicate IsRun(states: seq<State>, steps: seq<Step>) {
    && |states| == |steps| + 1 && Init(states[0])
    && forall i {:trigger StepAt(states, steps, i)} | 0 <= i < |steps| :: StepAt(states, steps, i)
  }

  lemma {:induction false} RunKeepsInv(states: seq<State>, steps: seq<Step>, i: nat)
    requires IsRun(states, steps) && i < |states|
    ensures Inv(states[i])
  {
    if i > 0 {
      RunKeepsInv(states, steps, i - 1);
      assert StepAt(states, steps, i - 1);
      StepKeepsInv(states[i - 1], steps[i - 1]);
    }
  }

  /** Nothing is ever sent on, or closes, a closed channel. */
  lemma NeverPanics(states: seq<State>, steps: seq<Step>, i: nat)
    requires IsRun(states, steps) && i < |states|
    ensures !states[i].panicked
  {
    RunKeepsInv(states, steps, i);
  }

  /** In every run, the accepted commands, in order, are the handled ones, then the batch, then the
      queue; and the batch is below its limit. */
  lemma Conservation(states: seq<State>, steps: seq<Step>, i: nat)
    requires IsRun(states, steps) && i < |states|
    ensures var c := states[i].core;
            && c.accepted == Core.Replay(c.log) + Core.EventCommands(c.batch) + c.queue
            && |c.batch| < states[i].batchSize
  {
    RunKeepsInv(states, steps, i);
  }

  /** When done is closed, queue and batch are empty and everything accepted was handled, in order. An
      Enqueue that returned true owns exactly one of the handled commands, its own event; one that
      returned false owns none. */
  lemma DoneMeansDrained(states: seq<State>, steps: seq<Step>, i: nat)
    requires IsRun(states, steps) && i < |states| && states[i].done
    ensures var s := states[i];
            && s.core.queue == [] && s.core.batch == [] && Core.Replay(s.core.log) == s.core.accepted
            && |s.owners| == |s.core.accepted|
            && (forall t | t in s.calls && s.calls[t].op.Enqueueing? && s.calls[t].pc == Returned(true) ::
                  exists k :: HandledAt(s, t, k) && forall j | HandledAt(s, t, j) :: j == k)
            && (forall t | t in s.calls && s.calls[t].op.Enqueueing? && s.calls[t].pc == Returned(false) :: t !in s.owners)
            && (s.closeErr <==> Core.FailedSinceBarrier(s.core.log) || s.closeFailed)
  {
    RunKeepsInv(states, steps, i);
    var s := states[i];
    assert Core.Replay(s.core.log) + Core.EventCommands([]) + [] == Core.Replay(s.core.log);
    forall t | t in s.calls && s.calls[t].op.Enqueueing? && s.calls[t].pc == Returned(true)
      ensures exists k :: HandledAt(s, t, k) && forall j | HandledAt(s, t, j) :: j == k
    {
      assert CallOk(s, t);
      var k :| 0 <= k < |s.owners| && s.owners[k] == t;
      assert HandledAt(s, t, k);
    }
    forall t | t in s.calls && s.calls[t].op.Enqueueing? && s.calls[t].pc == Returned(false) ensures t !in s.owners {
      assert CallOk(s, t);
    }
  }

  /** Position k of the handled commands is the event of call t, sent by it. */
  predicate HandledAt(s: State, t: Handle, k: int) {
    && t in s.calls && 0 <= k < |s.owners| && s.owners[k] == t
    && k < |Core.Replay(s.core.log)| && Core.Replay(s.core.log)[k] == CommandOf(t, s.calls[t].op)
  }

  /** A Close never waits forever on the run loop: until done closes, once the channel is closed the run
      loop can always move, and what it still has to take only shrinks. */
  lemma DrainProgress(s: State, step: Step)
    requires Inv(s) && s.channelClosed && !s.done
    ensures Enabled(s, Receive(true)) || Enabled(s, Finish(true, true))
    ensures Enabled(s, step) ==> |Apply(s, step).core.queue| <= |s.core.queue|
    ensures Enabled(s, step) && step.Receive? ==> |Apply(s, step).core.queue| < |s.core.queue|
  {
    if step.Go? && step.t in s.calls {
      assert CallOk(s, step.t);
    }
  }

  /** The closer never waits forever for the write lock: whoever holds the read lock can move, or is a
      Flush blocked on a full channel that the run loop can take from. */
  lemma ReadersMove(s: State, t: Handle)
    requires Inv(s) && 0 < s.capacity && t in s.calls && Reads(s.calls[t].pc)
    ensures CanGo(s, t) || Enabled(s, Receive(true))
  {
    assert CallOk(s, t);
  }

  /** A Flush that returned nil: its own barrier was answered, and every batch handled since the barrier
      before it was sent. */
  lemma FlushNilMeansDelivered(states: seq<State>, steps: seq<Step>, i: nat, t: Handle) returns (at: nat)
    requires IsRun(states, steps) && i < |states|
    requires t in states[i].calls && states[i].calls[t] == Call(Flushing, Returned(true))
    ensures at < |states[i].core.log| && states[i].core.log[at] == Core.BarrierAnswered(t, true)
    ensures forall start | 0 <= start <= at && Core.NoBarrierIn(states[i].core.log, start, at)
                           && (start == 0 || states[i].core.log[start - 1].BarrierAnswered?) ::
              forall k | start <= k < at :: states[i].core.log[k].sent
  {
    RunKeepsInv(states, steps, i);
    var s := states[i];
    assert CallOk(s, t);
    at :| 0 <= at < |s.core.log| && s.core.log[at] == Core.BarrierAnswered(t, true);
    forall start | 0 <= start <= at && Core.NoBarrierIn(s.core.log, start, at)
                   && (start == 0 || s.core.log[start - 1].BarrierAnswered?)
      ensures forall k | start <= k < at :: s.core.log[k].sent
    {
      Core.BarrierMeaning(s.core, s.batchSize, start, at);
    }
  }

  /** A Close that returned nil: nothing is left, every batch since the last barrier was sent, and the
      connection was closed. */
  lemma CloseNilMeansDelivered(states: seq<State>, steps: seq<Step>, i: nat, t: Handle, start: nat)
    requires IsRun(states, steps) && i < |states|
    requires t in states[i].calls && states[i].calls[t] == Call(Closing, Returned(true))
    requires start <= |states[i].core.log| && Core.NoBarrierIn(states[i].core.log, start, |states[i].core.log|)
    requires start == 0 || states[i].core.log[start - 1].BarrierAnswered?
    ensures states[i].core.queue == [] && states[i].core.batch == [] && !states[i].closeFailed
    ensures forall k | start <= k < |states[i].core.log| :: states[i].core.log[k].sent
  {
    RunKeepsInv(states, steps, i);
    assert CallOk(states[i], t);
    Core.FailedSinceExactly(states[i].core.log, start);
  }
}
