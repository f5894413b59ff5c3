/** The bounded asynchronous writer: a channel of events and barriers, drained by one goroutine that
    batches events, remembers failed batches until the next barrier, and answers barriers. */
module SampleWriter {
  import opened Common

  datatype Event = Event(session: Id, sequence: nat, newIPs: nat, probesAttempted: nat,
                         probeIPs: seq<Option<Ip>>, probeRTTs: seq<int>, probeOK: seq<bool>)

  predicate ValidEvent(e: Event) {
    |e.probeIPs| == e.probesAttempted && |e.probeRTTs| == e.probesAttempted && |e.probeOK| == e.probesAttempted
  }

  datatype Command = EventCommand(event: Event) | BarrierCommand(barrier: nat)

  /** What the run loop did: a non-empty batch handed to ClickHouse, or a barrier answered. */
  datatype LogEntry = BatchHandled(events: seq<Event>, sent: bool) | BarrierAnswered(barrier: nat, ok: bool)

  /** The channel buffer and the run loop's locals, with two history variables: every command the
      channel accepted, in order, and everything the loop has handled, in order. */
  datatype Core = Core(
    queue: seq<Command>,
    batch: seq<Event>,
    pendingErr: bool,
    accepted: seq<Command>,
    log: seq<LogEntry>)

  const EMPTY := Core([], [], false, [], [])

  /** A non-blocking channel send: it succeeds exactly when the buffer has room. */
  function Offer(c: Core, command: Command, capacity: nat): (Core, bool) {
    if |c.queue| < capacity
    then (c.(queue := c.queue + [command], accepted := c.accepted + [command]), true)
    else (c, false)
  }

  function Flush(c: Core, sent: bool): Core {
    if c.batch == [] then c
    else c.(batch := [], pendingErr := c.pendingErr || !sent, log := c.log + [BatchHandled(c.batch, sent)])
  }

  /** One receive from the channel; sent is the outcome of a flush, should there be one. */
  function Receive(c: Core, sent: bool, batchSize: nat): Core
    requires c.queue != []
  {
    var rest := c.(queue := c.queue[1..]);
    match c.queue[0]
    case EventCommand(event) =>
      var grown := rest.(batch := rest.batch + [event]);
      if |grown.batch| >= batchSize then Flush(grown, sent) else grown
    case BarrierCommand(barrier) =>
      var flushed := Flush(rest, sent);
      flushed.(pendingErr := false, log := flushed.log + [BarrierAnswered(barrier, !flushed.pendingErr)])
  }

  /** The events the receive step hands to ClickHouse. */
  function Handed(c: Core, batchSize: nat): seq<Event>
    requires c.queue != []
  {
    match c.queue[0]
    case EventCommand(event) => if |c.batch| + 1 >= batchSize then c.batch + [event] else []
    case BarrierCommand(_) => c.batch
  }

  // ----- What the log means -----

  function EventCommands(events: seq<Event>): (r: seq<Command>) {
    seq(|events|, i requires 0 <= i < |events| => EventCommand(events[i]))
  }

  function Commands(entry: LogEntry): seq<Command> {
    match entry
    case BatchHandled(events, _) => EventCommands(events)
    case BarrierAnswered(barrier, _) => [BarrierCommand(barrier)]
  }

  /** The commands a log accounts for, in the order they were taken from the channel. */
  function Replay(log: seq<LogEntry>): seq<Command> {
    if log == [] then [] else Replay(log[..|log| - 1]) + Commands(log[|log| - 1])
  }

  /** Nothing accepted is lost, duplicated or reordered. */
  predicate Conserved(c: Core) {
    c.accepted == Replay(c.log) + EventCommands(c.batch) + c.queue
  }

  /** Some batch failed since the last barrier of the log. */
  predicate FailedSinceBarrier(log: seq<LogEntry>) {
    log != [] &&
    match log[|log| - 1]
    case BarrierAnswered(_, _) => false
    case BatchHandled(_, sent) => !sent || FailedSinceBarrier(log[..|log| - 1])
  }

  /** Every barrier was answered according to the batches handled since the barrier before it. */
  predicate AnswersHonest(log: seq<LogEntry>) {
    forall i | 0 <= i < |log| && log[i].BarrierAnswered? :: log[i].ok == !FailedSinceBarrier(log[..i])
  }

  predicate BatchesProper(log: seq<LogEntry>, batchSize: nat) {
    forall i | 0 <= i < |log| && log[i].BatchHandled? :: 0 < |log[i].events| <= batchSize
  }

  /** What every step keeps. */
  predicate Inv(c: Core, batchSize: nat) {
    && Conserved(c)
    && |c.batch| < batchSize
    && c.pendingErr == FailedSinceBarrier(c.log)
    && AnswersHonest(c.log)
    && BatchesProper(c.log, batchSize)
  }

  lemma ReplayAppend(log: seq<LogEntry>, entry: LogEntry)
    ensures Replay(log + [entry]) == Replay(log) + Commands(entry)
  {
    assert (log + [entry])[..|log|] == log;
  }

  /** Appending an entry keeps the answers honest when the new entry is. */
  lemma LogAppend(log: seq<LogEntry>, entry: LogEntry)
    requires AnswersHonest(log)
    requires entry.BarrierAnswered? ==> entry.ok == !FailedSinceBarrier(log)
    ensures AnswersHonest(log + [entry])
    ensures FailedSinceBarrier(log + [entry]) == (entry.BatchHandled? && (!entry.sent || FailedSinceBarrier(log)))
  {
    var longer := log + [entry];
    assert longer[..|log|] == log;
    forall i | 0 <= i < |longer| && longer[i].BarrierAnswered?
      ensures longer[i].ok == !FailedSinceBarrier(longer[..i])
    {
      if i < |log| {
        assert longer[..i] == log[..i];
      }
    }
  }

  lemma OfferKeepsInv(c: Core, command: Command, capacity: nat, batchSize: nat)
    requires Inv(c, batchSize)
    ensures Inv(Offer(c, command, capacity).0, batchSize)
  {
    assert Replay(c.log) + EventCommands(c.batch) + c.queue + [command]
        == Replay(c.log) + EventCommands(c.batch) + (c.queue + [command]);
  }

  /** The run loop's flush closure, also what the ticker and the end of the channel run. The batch may
      momentarily hold batchSize events. */
  lemma FlushKeeps(c: Core, sent: bool, batchSize: nat)
    requires |c.batch| <= batchSize && c.pendingErr == FailedSinceBarrier(c.log)
    requires AnswersHonest(c.log) && BatchesProper(c.log, batchSize)
    ensures var r := Flush(c, sent);
            && r.batch == [] && r.queue == c.queue && r.accepted == c.accepted
            && Replay(r.log) == Replay(c.log) + EventCommands(c.batch)
            && r.pendingErr == FailedSinceBarrier(r.log)
            && AnswersHonest(r.log) && BatchesProper(r.log, batchSize)
  {
    if c.batch == [] {
      assert Replay(c.log) + EventCommands([]) == Replay(c.log);
    } else {
      ReplayAppend(c.log, BatchHandled(c.batch, sent));
      LogAppend(c.log, BatchHandled(c.batch, sent));
    }
  }

  lemma FlushedInv(c: Core, sent: bool, batchSize: nat)
    requires |c.batch| <= batchSize && 0 < batchSize && Conserved(c) && c.pendingErr == FailedSinceBarrier(c.log)
    requires AnswersHonest(c.log) && BatchesProper(c.log, batchSize)
    ensures Inv(Flush(c, sent), batchSize) && Flush(c, sent).batch == []
  {
    FlushKeeps(c, sent, batchSize);
    EmptyBatchConserved(Flush(c, sent), Replay(c.log) + EventCommands(c.batch));
  }

  lemma EmptyBatchConserved(c: Core, handled: seq<Command>)
    requires c.batch == [] && Replay(c.log) == handled && c.accepted == handled + c.queue
    ensures Conserved(c)
  {
    assert EventCommands(c.batch) == [];
    assert handled + [] == handled;
  }

  /** The ticker, and the last flush before done closes. */
  lemma FlushKeepsInv(c: Core, sent: bool, batchSize: nat)
    requires Inv(c, batchSize)
    ensures Inv(Flush(c, sent), batchSize) && Flush(c, sent).batch == []
  {
    FlushedInv(c, sent, batchSize);
  }

  lemma ReceiveKeepsInv(c: Core, sent: bool, batchSize: nat)
    requires Inv(c, batchSize) && c.queue != []
    ensures Inv(Receive(c, sent, batchSize), batchSize)
  {
    match c.queue[0]
    case EventCommand(event) => ReceiveEvent(c, event, sent, batchSize);
    case BarrierCommand(barrier) => ReceiveBarrier(c, barrier, sent, batchSize);
  }

  lemma TakeEvent(c: Core, event: Event)
    requires Conserved(c) && c.queue != [] && c.queue[0] == EventCommand(event)
    ensures Conserved(c.(queue := c.queue[1..], batch := c.batch + [event]))
  {
    assert EventCommands(c.batch + [event]) == EventCommands(c.batch) + [EventCommand(event)];
    assert c.queue == [EventCommand(event)] + c.queue[1..];
    Assoc(Replay(c.log), EventCommands(c.batch), [EventCommand(event)]);
    Assoc(Replay(c.log) + EventCommands(c.batch), [EventCommand(event)], c.queue[1..]);
  }

  lemma ReceiveEvent(c: Core, event: Event, sent: bool, batchSize: nat)
    requires Inv(c, batchSize) && c.queue != [] && c.queue[0] == EventCommand(event)
    ensures Inv(Receive(c, sent, batchSize), batchSize)
  {
    TakeEvent(c, event);
    if |c.batch| + 1 >= batchSize {
      FlushedInv(c.(queue := c.queue[1..], batch := c.batch + [event]), sent, batchSize);
    }
  }

  lemma ReceiveBarrier(c: Core, barrier: nat, sent: bool, batchSize: nat)
    requires Inv(c, batchSize) && c.queue != [] && c.queue[0] == BarrierCommand(barrier)
    ensures Inv(Receive(c, sent, batchSize), batchSize)
  {
    var rest := c.(queue := c.queue[1..]);
    FlushKeeps(rest, sent, batchSize);
    var flushed := Flush(rest, sent);
    assert c.queue == [BarrierCommand(barrier)] + flushed.queue;
    AnswerKeeps(flushed, barrier, Replay(flushed.log), batchSize);
  }

  lemma AnswerKeeps(c: Core, barrier: nat, handled: seq<Command>, batchSize: nat)
    requires Replay(c.log) == handled && c.batch == [] && 0 < batchSize
    requires c.pendingErr == FailedSinceBarrier(c.log) && AnswersHonest(c.log) && BatchesProper(c.log, batchSize)
    requires c.accepted == handled + ([BarrierCommand(barrier)] + c.queue)
    ensures Inv(c.(pendingErr := false, log := c.log + [BarrierAnswered(barrier, !c.pendingErr)]), batchSize)
  {
    var entry := BarrierAnswered(barrier, !c.pendingErr);
    ReplayAppend(c.log, entry);
    LogAppend(c.log, entry);
    MoveHead(handled, BarrierCommand(barrier), c.queue);
    assert EventCommands(c.batch) == [];
  }

  lemma MoveHead<T>(handled: seq<T>, head: T, rest: seq<T>)
    ensures handled + ([head] + rest) == handled + [head] + [] + rest
  {
  }

  lemma Assoc<T>(a: seq<T>, b: seq<T>, c: seq<T>)
    ensures a + b + c == a + (b + c)
  {
  }

  /** The log only grows. */
  lemma LogGrows(c: Core, sent: bool, batchSize: nat)
    ensures c.log <= Flush(c, sent).log
    ensures c.queue != [] ==> c.log <= Receive(c, sent, batchSize).log
  {
  }

  // ----- What a barrier's answer says -----

  /** Positions start..end of a log hold no barrier. */
  predicate NoBarrierIn(log: seq<LogEntry>, start: nat, end: nat) {
    end <= |log| && forall k | start <= k < end :: log[k].BatchHandled?
  }

  lemma {:induction false} FailedSinceExactly(log: seq<LogEntry>, start: nat)
    requires start <= |log| && NoBarrierIn(log, start, |log|)
    requires start == 0 || log[start - 1].BarrierAnswered?
    ensures FailedSinceBarrier(log) <==> exists k | start <= k < |log| :: !log[k].sent
    decreases |log|
  {
    if start < |log| {
      var n := |log| - 1;
      FailedSinceExactly(log[..n], start);
      assert forall k | start <= k < n :: log[..n][k] == log[k];
      if FailedSinceBarrier(log[..n]) {
        var k :| start <= k < n && !log[..n][k].sent;
        assert !log[k].sent;
      }
    }
  }

  /** A barrier answers nil exactly when every batch handled since the previous barrier was sent. */
  lemma BarrierMeaning(c: Core, batchSize: nat, start: nat, at: nat)
    requires Inv(c, batchSize) && at < |c.log| && c.log[at].BarrierAnswered?
    requires start <= at && NoBarrierIn(c.log, start, at)
    requires start == 0 || c.log[start - 1].BarrierAnswered?
    ensures c.log[at].ok <==> forall k | start <= k < at :: c.log[k].sent
  {
    FailedSinceExactly(c.log[..at], start);
    assert forall k | start <= k < at :: c.log[..at][k] == c.log[k];
  }

  // ----- Every accepted event between two answered barriers was in a batch between them -----

  /** All events of the batches in a barrier-free stretch of the log. */
  function Delivered(log: seq<LogEntry>): (r: seq<Event>)
    requires forall k | 0 <= k < |log| :: log[k].BatchHandled?
  {
    if log == [] then [] else Delivered(log[..|log| - 1]) + log[|log| - 1].events
  }

  lemma {:induction false} DeliveredReplay(log: seq<LogEntry>)
    requires forall k | 0 <= k < |log| :: log[k].BatchHandled?
    ensures Replay(log) == EventCommands(Delivered(log))
  {
    if log != [] {
      DeliveredReplay(log[..|log| - 1]);
      var a, b := Delivered(log[..|log| - 1]), log[|log| - 1].events;
      assert EventCommands(a + b) == EventCommands(a) + EventCommands(b);
    }
  }

  lemma SplitLast<T>(a: seq<T>, b: seq<T>)
    requires b != []
    ensures b == b[..|b| - 1] + [b[|b| - 1]] && a + b == (a + b[..|b| - 1]) + [b[|b| - 1]]
  {
  }

  lemma ReplayGrow(a: seq<LogEntry>, b: seq<LogEntry>, entry: LogEntry)
    requires Replay(a + b) == Replay(a) + Replay(b)
    ensures Replay((a + b) + [entry]) == Replay(a) + Replay(b + [entry])
  {
    ReplayAppend(a + b, entry);
    ReplayAppend(b, entry);
    Assoc(Replay(a), Replay(b), Commands(entry));
  }

  lemma {:induction false} ReplaySplit(a: seq<LogEntry>, b: seq<LogEntry>)
    ensures Replay(a + b) == Replay(a) + Replay(b)
  {
    if b == [] {
      assert a + b == a;
    } else {
      ReplaySplit(a, b[..|b| - 1]);
      ReplayGrow(a, b[..|b| - 1], b[|b| - 1]);
      SplitLast(a, b);
    }
  }

  lemma ReplayAround(a: seq<LogEntry>, entry: LogEntry, b: seq<LogEntry>)
    ensures Replay((a + [entry]) + b) == Replay(a) + (Commands(entry) + Replay(b))
  {
    ReplayAppend(a, entry);
    ReplaySplit(a + [entry], b);
    Assoc(Replay(a), Commands(entry), Replay(b));
  }

  lemma CutTwice<T>(s: seq<T>, i: nat, j: nat)
    requires i < j < |s|
    ensures s == (s[..i] + [s[i]]) + ((s[i + 1..j] + [s[j]]) + s[j + 1..])
  {
  }

  /** The log around two answers with only batches between them. */
  lemma ReplayBetween(log: seq<LogEntry>, first: nat, second: nat)
    requires first < second < |log| && log[first].BarrierAnswered? && log[second].BarrierAnswered?
    requires NoBarrierIn(log, first + 1, second)
    ensures Replay(log) == Replay(log[..first]) + ([BarrierCommand(log[first].barrier)]
                         + (EventCommands(Delivered(log[first + 1..second]))
                         + ([BarrierCommand(log[second].barrier)] + Replay(log[second + 1..]))))
  {
    var middle, rest := log[first + 1..second], log[second + 1..];
    CutTwice(log, first, second);
    ReplayAround(middle, log[second], rest);
    ReplayAround(log[..first], log[first], (middle + [log[second]]) + rest);
    DeliveredReplay(middle);
  }

  /** The accepted stream is: what came before the first barrier, that barrier, exactly the events of
      the batches between the two answers, the second barrier, and the rest. So when the second answer
      is nil, every event accepted between the two barriers was sent. */
  lemma BetweenBarriers(c: Core, batchSize: nat, first: nat, second: nat)
      returns (before: seq<Command>, after: seq<Command>)
    requires Inv(c, batchSize) && first < second < |c.log|
    requires c.log[first].BarrierAnswered? && c.log[second].BarrierAnswered?
    requires NoBarrierIn(c.log, first + 1, second)
    ensures c.accepted == before + ([BarrierCommand(c.log[first].barrier)]
                          + (EventCommands(Delivered(c.log[first + 1..second]))
                          + ([BarrierCommand(c.log[second].barrier)] + after)))
    ensures c.log[second].ok <==> forall k | first < k < second :: c.log[k].sent
  {
    BarrierMeaning(c, batchSize, first + 1, second);
    ReplayBetween(c.log, first, second);
    before := Replay(c.log[..first]);
    var tail := EventCommands(c.batch) + c.queue;
    after := Replay(c.log[second + 1..]) + tail;
    Assoc(Replay(c.log), EventCommands(c.batch), c.queue);
    Regroup(before, [BarrierCommand(c.log[first].barrier)], EventCommands(Delivered(c.log[first + 1..second])),
            [BarrierCommand(c.log[second].barrier)], Replay(c.log[second + 1..]), tail);
  }

  lemma {:induction false} FromBatch(log: seq<LogEntry>, e: Event) returns (j: nat)
    requires (forall k | 0 <= k < |log| :: log[k].BatchHandled?) && e in Delivered(log)
    ensures j < |log| && e in log[j].events
  {
    if e in log[|log| - 1].events {
      j := |log| - 1;
    } else {
      j := FromBatch(log[..|log| - 1], e);
    }
  }

  /** The accepted stream up to a barrier: what came before the stretch, exactly the events of its batches,
      the barrier, and the rest. */
  lemma UpToBarrier(c: Core, start: nat, at: nat) returns (before: seq<Command>, events: seq<Event>, after: seq<Command>)
    requires Conserved(c) && start <= at < |c.log| && c.log[at].BarrierAnswered? && NoBarrierIn(c.log, start, at)
    requires start == 0 || c.log[start - 1].BarrierAnswered?
    ensures c.accepted == before + (EventCommands(events) + ([BarrierCommand(c.log[at].barrier)] + after))
    ensures if start == 0 then before == [] else before != [] && before[|before| - 1] == BarrierCommand(c.log[start - 1].barrier)
    ensures events == Delivered(c.log[start..at])
  {
    var barrier, rest, tail := [BarrierCommand(c.log[at].barrier)], Replay(c.log[at + 1..]), EventCommands(c.batch) + c.queue;
    before, events, after := Replay(c.log[..start]), Delivered(c.log[start..at]), rest + tail;
    ReplayUpTo(c.log, start, at);
    Assoc(Replay(c.log), EventCommands(c.batch), c.queue);
    Assoc(barrier, rest, tail);
    Assoc(EventCommands(events), barrier + rest, tail);
    Assoc(before, EventCommands(events) + (barrier + rest), tail);
    if start > 0 {
      LastReplayed(c.log, start);
    }
  }

  lemma LastReplayed(log: seq<LogEntry>, n: nat)
    requires 0 < n <= |log| && log[n - 1].BarrierAnswered?
    ensures Replay(log[..n]) != [] && Replay(log[..n])[|Replay(log[..n])| - 1] == BarrierCommand(log[n - 1].barrier)
  {
    assert log[..n] == log[..n - 1] + [log[n - 1]];
    ReplayAppend(log[..n - 1], log[n - 1]);
  }

  lemma CutOnce<T>(s: seq<T>, i: nat, j: nat)
    requires i <= j < |s|
    ensures s == s[..i] + ((s[i..j] + [s[j]]) + s[j + 1..])
  {
  }

  lemma ReplayUpTo(log: seq<LogEntry>, start: nat, at: nat)
    requires start <= at < |log| && log[at].BarrierAnswered? && NoBarrierIn(log, start, at)
    ensures Replay(log) == Replay(log[..start]) + (EventCommands(Delivered(log[start..at]))
                         + ([BarrierCommand(log[at].barrier)] + Replay(log[at + 1..])))
  {
    var middle, rest := log[start..at], log[at + 1..];
    CutOnce(log, start, at);
    ReplaySplit(log[..start], (middle + [log[at]]) + rest);
    ReplayAround(middle, log[at], rest);
    DeliveredReplay(middle);
  }

  lemma Regroup<T>(a: seq<T>, b: seq<T>, c: seq<T>, d: seq<T>, e: seq<T>, f: seq<T>)
    ensures a + (b + (c + (d + e))) + f == a + (b + (c + (d + (e + f))))
  {
    Assoc(d, e, f);
    Assoc(c, d + e, f);
    Assoc(b, c + (d + e), f);
    Assoc(a, b + (c + (d + e)), f);
  }
}
