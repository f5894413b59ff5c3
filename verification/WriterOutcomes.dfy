/** Why the writer's calls fail, and when the run loop hands a batch over. */
module WriterOutcomes {
  import Core = SampleWriter
  import opened WriterLifecycle

  // ----- Refusals -----

  /** The step is one of call t. */
  predicate OwnStep(step: Step, t: Handle) { step == Go(t) || step == TimesOut(t) }

  /** A reason for the call to fail: the writer closes or is closed, an event is invalid or finds the channel
      full, a flush or close runs out of time, its barrier's answer tells of a failed batch, or the close
      itself failed. */
  predicate Refuses(s: State, step: Step, t: Handle)
    requires t in s.calls
  {
    match s.calls[t].op
    case Enqueueing(event) => !Core.ValidEvent(event) || s.closing || !s.accepting || |s.core.queue| >= s.capacity
    case Flushing => s.closing || !s.accepting || step == TimesOut(t) || Answered(s.core, t, false)
    case Closing => step == TimesOut(t) || (s.done && s.closeErr)
  }

  predicate Failed(pc: Pc) { pc == Releasing(false) || pc == Returned(false) }

  lemma GoFails(s: State, t: Handle)
    requires Inv(s) && CanGo(s, t) && !Failed(s.calls[t].pc) && t in GoStep(s, t).calls && Failed(GoStep(s, t).calls[t].pc)
    ensures Refuses(s, Go(t), t)
  {
    assert CallOk(s, t);
  }

  lemma TimeOutFails(s: State, t: Handle)
    requires Inv(s) && CanTimeOut(s, t)
    ensures Refuses(s, TimesOut(t), t)
  {
    assert CallOk(s, t);
  }

  /** Call u moves, and keeps its operation. */
  predicate OnlyMoves(s: State, s': State, u: Handle)
    requires u in s.calls
  {
    u in s'.calls && s'.calls == s.calls[u := s'.calls[u]] && s'.calls[u].op == s.calls[u].op
  }

  lemma EnterMoves(s: State, u: Handle)
    requires u in s.calls
    ensures OnlyMoves(s, EnterStep(s, u), u)
  {
    match s.calls[u].op
    case Enqueueing(_) =>
    case Flushing =>
    case Closing => if s.closer.Idle? {}
  }

  lemma SendMoves(s: State, u: Handle)
    requires u in s.calls
    ensures OnlyMoves(s, SendStep(s, u), u)
  {
    if s.channelClosed {}
  }

  lemma GoMoves(s: State, u: Handle)
    requires CanGo(s, u)
    ensures OnlyMoves(s, GoStep(s, u), u)
  {
    match s.calls[u].pc
    case Enter => EnterMoves(s, u);
    case Sending => SendMoves(s, u);
    case AwaitLock => GotoMoves(s, u, Holding);
    case Holding => GotoMoves(s, u, if !s.accepting || s.closing then Releasing(false) else Sending);
    case Releasing(sent) => GotoMoves(s, u, if sent && s.calls[u].op.Flushing? then Awaiting else Returned(sent));
    case Awaiting =>
      GotoMoves(s, u, Returned(if s.calls[u].op.Closing? then !s.closeErr else Answered(s.core, u, true)));
  }

  lemma GotoMoves(s: State, u: Handle, pc: Pc)
    requires u in s.calls
    ensures OnlyMoves(s, Goto(s, u, pc), u)
  {
  }

  /** What a step does to the calls. */
  lemma CallsMove(s: State, step: Step)
    requires Enabled(s, step)
    ensures var s' := Apply(s, step);
            match step
            case Begin(t, op) => s'.calls == s.calls[t := Call(op, Enter)] && t !in s.calls
            case Go(u) => u in s.calls && OnlyMoves(s, s', u)
            case TimesOut(u) => u in s.calls && OnlyMoves(s, s', u)
            case _ => s'.calls == s.calls
  {
    match step
    case Go(u) => GoMoves(s, u);
    case CloserGo => CloserMoves(s);
    case _ =>
  }

  lemma CloserMoves(s: State)
    ensures CloserStep(s).calls == s.calls
  {
    if s.closer.Refusing? {
      if s.channelClosed {} else {}
    } else if s.closer.WaitLock? {
      assert CloserStep(s) == s.(closer := Locked);
    } else if s.closer.Locked? {
      assert CloserStep(s) == s.(accepting := false, closer := Refusing);
    }
  }

  /** Calls keep their operation, and only their own steps move them. */
  lemma CallsStay(s: State, step: Step, t: Handle)
    requires Enabled(s, step) && t in s.calls
    ensures t in Apply(s, step).calls && Apply(s, step).calls[t].op == s.calls[t].op
    ensures !OwnStep(step, t) ==> Apply(s, step).calls[t] == s.calls[t]
  {
    CallsMove(s, step);
  }

  lemma NewCallEnters(s: State, step: Step, t: Handle)
    requires Enabled(s, step) && t !in s.calls && t in Apply(s, step).calls
    ensures Apply(s, step).calls[t].pc == Enter
  {
    CallsMove(s, step);
  }

  ghost predicate RefusedAt(states: seq<State>, steps: seq<Step>, j: nat, t: Handle)
    requires |states| == |steps| + 1
  {
    j < |steps| && OwnStep(steps[j], t) && t in states[j].calls && Refuses(states[j], steps[j], t)
  }

  /** In every run: a call that failed, or is about to, has itself met a reason for it. */
  lemma {:induction false} FailureHasCause(states: seq<State>, steps: seq<Step>, i: nat, t: Handle) returns (j: nat)
    requires IsRun(states, steps) && i < |states| && t in states[i].calls && Failed(states[i].calls[t].pc)
    ensures j < i && RefusedAt(states, steps, j, t) && states[j].calls[t].op == states[i].calls[t].op
  {
    assert i > 0;
    assert StepAt(states, steps, i - 1);
    var s, step := states[i - 1], steps[i - 1];
    if t !in s.calls {
      NewCallEnters(s, step, t);
    } else {
      CallsStay(s, step, t);
      if Failed(s.calls[t].pc) {
        j := FailureHasCause(states, steps, i - 1, t);
      } else {
        RunKeepsInv(states, steps, i - 1);
        j := i - 1;
        if step == Go(t) {
          GoFails(s, t);
        } else {
          TimeOutFails(s, t);
        }
      }
    }
  }

  // ----- Batches -----

  /** The command at the head of the channel is all that was taken. */
  predicate Takes(c: Core.Core, r: Core.Core)
    requires c.queue != []
  {
    r.queue == c.queue[1..] && r.accepted == c.accepted
  }

  /** An event fills the batch up; the batch is handed over exactly when that makes it full. */
  lemma BatchWhenFull(c: Core.Core, event: Core.Event, sent: bool, batchSize: nat)
    requires Core.Inv(c, batchSize) && c.queue != [] && c.queue[0] == Core.EventCommand(event)
    ensures var r := Core.Receive(c, sent, batchSize);
            && Takes(c, r) && (r.batch == [] || r.batch == c.batch + [event])
            && (|c.batch| + 1 == batchSize <==> r.log != c.log)
            && (r.log != c.log ==> r.log == c.log + [Core.BatchHandled(c.batch + [event], sent)] && r.batch == []
                                   && r.pendingErr == (c.pendingErr || !sent))
            && (r.log == c.log ==> r.batch == c.batch + [event] && r.pendingErr == c.pendingErr)
  {
  }

  /** A barrier hands over what there is, is answered, and forgives. */
  lemma BarrierAnswers(c: Core.Core, barrier: nat, sent: bool, batchSize: nat)
    requires Core.Inv(c, batchSize) && c.queue != [] && c.queue[0] == Core.BarrierCommand(barrier)
    ensures var r := Core.Receive(c, sent, batchSize);
            && Takes(c, r) && r.batch == [] && !r.pendingErr
            && r.log == c.log + (if c.batch == [] then [] else [Core.BatchHandled(c.batch, sent)])
                        + [Core.BarrierAnswered(barrier, !c.pendingErr && (c.batch == [] || sent))]
  {
    assert c.log + [] == c.log;
  }
}
