/** The writer as an object: what its run loop does with one command, with a tick of the timer, and with
    a closed channel, against the functions the interleaved model is built from. */
module WriterObject {
  import opened SampleWriter

  class Writer {
    const capacity: nat
    const batchSize: nat
    var commands: seq<Command>
    var accepting: bool
    var batch: seq<Event>
    var pendingErr: bool
    ghost var accepted: seq<Command>
    ghost var log: seq<LogEntry>

    ghost function Value(): Core
      reads this
    {
      Core(commands, batch, pendingErr, accepted, log)
    }

    ghost predicate Valid()
      reads this
    {
      0 < batchSize && Inv(Value(), batchSize)
    }

    constructor (capacity: nat, batchSize: nat)
      requires 0 < batchSize
      ensures Valid() && Value() == EMPTY && accepting
      ensures this.capacity == capacity && this.batchSize == batchSize
    {
      this.capacity, this.batchSize := capacity, batchSize;
      commands, accepting, batch, pendingErr := [], true, [], false;
      accepted, log := [], [];
    }

    method Enqueue(event: Event) returns (ok: bool)
      requires Valid()
      modifies this
      ensures Valid() && accepting == old(accepting)
      ensures ok <==> ValidEvent(event) && old(accepting) && |old(commands)| < capacity
      ensures Value() == if ok then Offer(old(Value()), EventCommand(event), capacity).0 else old(Value())
    {
      if !ValidEvent(event) || !accepting || |commands| >= capacity {
        return false;
      }
      OfferKeepsInv(Value(), EventCommand(event), capacity, batchSize);
      commands := commands + [EventCommand(event)];
      accepted := accepted + [EventCommand(event)];
      ok := true;
    }

    /** The closure of the run loop; sent is what ClickHouse answers. */
    method FlushBatch(sent: bool)
      requires |batch| <= batchSize
      modifies `batch, `pendingErr, `log
      ensures Value() == Flush(old(Value()), sent)
    {
      if |batch| == 0 {
        return;
      }
      log := log + [BatchHandled(batch, sent)];
      batch := [];
      if !sent {
        pendingErr := true;
      }
    }

    method TimerFires(sent: bool)
      requires Valid()
      modifies `batch, `pendingErr, `log
      ensures Valid() && Value() == Flush(old(Value()), sent)
    {
      FlushKeepsInv(Value(), sent, batchSize);
      FlushBatch(sent);
    }

    /** One receive from the channel. A barrier is answered with the errors since the last one. */
    method HandleCommand(sent: bool) returns (answer: bool)
      requires Valid() && commands != []
      modifies `commands, `batch, `pendingErr, `log
      ensures Valid() && Value() == Receive(old(Value()), sent, batchSize)
      ensures old(commands[0]).BarrierCommand? ==> log != [] && log[|log| - 1] == BarrierAnswered(old(commands[0]).barrier, answer)
    {
      ReceiveKeepsInv(Value(), sent, batchSize);
      answer := true;
      var cmd := commands[0];
      commands := commands[1..];
      match cmd
      case EventCommand(event) =>
        batch := batch + [event];
        if |batch| >= batchSize {
          FlushBatch(sent);
        }
      case BarrierCommand(barrier) =>
        FlushBatch(sent);
        answer := !pendingErr;
        log := log + [BarrierAnswered(barrier, answer)];
        pendingErr := false;
    }

    /** The run loop once the channel is closed: it takes what is left, flushes, closes the connection and
        reports both errors. */
    method DrainAndFinish(outcomes: nat -> bool, closed: bool) returns (closeErr: bool)
      requires Valid() && !accepting
      modifies `commands, `batch, `pendingErr, `log
      ensures Valid() && commands == [] && batch == [] && accepted == old(accepted)
      ensures Replay(log) == accepted && closeErr == (FailedSinceBarrier(log) || !closed)
    {
      var flushes := 0;
      while commands != []
        invariant Valid() && accepted == old(accepted)
        decreases |commands|
      {
        var answer := HandleCommand(outcomes(flushes));
        flushes := flushes + 1;
      }
      TimerFires(outcomes(flushes));
      closeErr := pendingErr || !closed;
      assert Replay(log) + EventCommands([]) + [] == Replay(log);
    }
  }
}
