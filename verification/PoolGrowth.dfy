/** The cumulative curve of newly seen addresses, read back from the stored samples, against the
    inventory the control row keeps. */
module PoolGrowth {
  import opened Common
  import opened Folding
  import opened SamplingWorker
  import opened Supervisor
  import opened SupervisorSamples
  import Safety = SupervisorSafety

  function Plus(): (nat, nat) -> nat {
    (a, b) => a + b
  }

  function Total(values: seq<nat>): nat {
    Fold(Plus(), 0, values)
  }

  /** One point per row, in the order of the query: the running total of new addresses. */
  method Accumulate(newIPs: seq<nat>) returns (points: seq<nat>)
    ensures |points| == |newIPs| && forall i | 0 <= i < |points| :: points[i] == Total(newIPs[..i + 1])
  {
    points := [];
    var total, i := 0, 0;
    while i < |newIPs|
      invariant 0 <= i <= |newIPs| == |newIPs| && |points| == i && total == Total(newIPs[..i])
      invariant forall j | 0 <= j < i :: points[j] == Total(newIPs[..j + 1])
    {
      FoldAppend(Plus(), 0, newIPs[..i], newIPs[i]);
      assert newIPs[..i + 1] == newIPs[..i] + [newIPs[i]];
      total := total + newIPs[i];
      points := points + [total];
      i := i + 1;
    }
  }

  function NewOf(events: Events): seq<nat> {
    seq(|events|, i requires 0 <= i < |events| => events[i].newIPs)
  }

  /** When no event is missing, the stored events are the committed ticks one by one. */
  lemma {:induction false} AllStored(events: Events, ticks: seq<Tick>, k: nat)
    requires Orderly(events, ticks) && |events| == |ticks| && k < |events|
    ensures events[k].sequence == k + 1 && events[k].newIPs == ticks[k].newIPs
  {
    AtLeast(events, ticks, k);
    AtMost(events, ticks, k);
  }

  lemma {:induction false} AtLeast(events: Events, ticks: seq<Tick>, k: nat)
    requires Orderly(events, ticks) && k < |events|
    ensures k + 1 <= events[k].sequence
  {
    if k > 0 {
      AtLeast(events, ticks, k - 1);
      assert events[k - 1].sequence < events[k].sequence;
    }
  }

  lemma {:induction false} AtMost(events: Events, ticks: seq<Tick>, k: nat)
    requires Orderly(events, ticks) && |events| == |ticks| && k < |events|
    ensures events[k].sequence <= k + 1
    decreases |events| - k
  {
    if k + 1 < |events| {
      AtMost(events, ticks, k + 1);
      assert events[k].sequence < events[k + 1].sequence;
    }
  }

  lemma {:induction false} SameTotals(events: Events, ticks: seq<Tick>, n: nat)
    requires Orderly(events, ticks) && n <= |events| == |ticks|
    ensures Total(NewOf(events)[..n]) == TotalNew(ticks[..n])
  {
    if n > 0 {
      SameTotals(events, ticks, n - 1);
      AllStored(events, ticks, n - 1);
      var all := NewOf(events);
      FoldAppend(Plus(), 0, all[..n - 1], all[n - 1]);
      assert all[..n] == all[..n - 1] + [all[n - 1]];
      assert ticks[..n][..n - 1] == ticks[..n - 1];
    }
  }

  lemma TotalAnyOrder(a: seq<nat>, b: seq<nat>)
    requires multiset(a) == multiset(b)
    ensures Total(a) == Total(b)
  {
    AnyOrder(Plus(), 0, a, b);
  }

  lemma StoredTotal(events: Events, ticks: seq<Tick>)
    requires Orderly(events, ticks) && |events| == |ticks|
    ensures Total(NewOf(events)) == TotalNew(ticks)
  {
    var n := |events|;
    SameTotals(events, ticks, n);
    assert NewOf(events)[..n] == NewOf(events);
    assert ticks[..n] == ticks;
  }

  /** In every run: if no event of the session was dropped or is still on its way, the curve over all
      stored samples, in whatever order the query yields them, ends at the number of addresses in the
      inventory, which is what distinct_ips says. */
  lemma GrowthEndsAtInventory(states: seq<State>, steps: seq<Step>, i: nat, id: Id, newIPs: seq<nat>)
    requires Safety.IsCarefulRun(states, steps) && i < |states| && id in states[i].rows
    requires Countable(TicksOf(states[i], id))
    requires var events := EventsOf(states[i].stored, id);
             |events| == |TicksOf(states[i], id)| && multiset(newIPs) == multiset(NewOf(events))
    ensures Total(newIPs) == |states[i].rows[id].ips|
    ensures states[i].rows[id].distinctIPs == ToInt32(Total(newIPs))
  {
    NoNumberStoredTwice(states, steps, i, id);
    Safety.InventoryNeverDrifts(states, steps, i, id);
    StoredTotal(EventsOf(states[i].stored, id), TicksOf(states[i], id));
    TotalAnyOrder(newIPs, NewOf(EventsOf(states[i].stored, id)));
  }
}
