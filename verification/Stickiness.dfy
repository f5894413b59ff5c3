/** How long a session keeps an egress address, derived from its samples in time order. */
module Stickiness {
  import opened Common
  import opened Sorting

  datatype Observation = Observation(at: int, ip: string)
  datatype Hold = Hold(ip: string, startedAt: int, endedAt: int, samples: nat, durationSeconds: int)
  datatype Rotation = Rotation(at: int, fromIP: string, toIP: string, sincePreviousSeconds: int)

  /** Times count nanoseconds from the zero time. */
  const ZERO_TIME := 0
  const SECOND := 1_000_000_000

  /** The difference of two times, which saturates at the ends of 64 bits. */
  function Since(later: int, earlier: int): int {
    var d := later - earlier;
    if d > INT64_MAX then INT64_MAX else if d < -INT64_MAX - 1 then -INT64_MAX - 1 else d
  }

  /** Integer division by a second, which truncates towards zero. */
  function Seconds(duration: int): int {
    if duration >= 0 then duration / SECOND else -((-duration) / SECOND)
  }

  // ----- Specification -----

  function Closed(h: Hold): Hold {
    h.(durationSeconds := Seconds(Since(h.endedAt, h.startedAt)))
  }

  /** One more observation extends the last hold or starts a new one. */
  function Grow(runs: seq<Hold>, o: Observation): seq<Hold> {
    if runs != [] && runs[|runs| - 1].ip == o.ip then
      var last := runs[|runs| - 1];
      runs[..|runs| - 1] + [Closed(last.(endedAt := o.at, samples := last.samples + 1))]
    else runs + [Closed(Hold(o.ip, o.at, o.at, 1, 0))]
  }

  function Runs(seen: seq<Observation>): seq<Hold> {
    if seen == [] then [] else Grow(Runs(seen[..|seen| - 1]), seen[|seen| - 1])
  }

  function LastRotation(first: int, rotations: seq<Rotation>): int {
    if rotations == [] || rotations[|rotations| - 1].at == ZERO_TIME then first else rotations[|rotations| - 1].at
  }

  function Turn(rotations: seq<Rotation>, first: int, from: string, o: Observation): seq<Rotation> {
    if o.ip == from then rotations
    else rotations + [Rotation(o.at, from, o.ip, Seconds(Since(o.at, LastRotation(first, rotations))))]
  }

  function Rotations(seen: seq<Observation>): seq<Rotation> {
    if |seen| <= 1 then []
    else Turn(Rotations(seen[..|seen| - 1]), seen[0].at, seen[|seen| - 2].ip, seen[|seen| - 1])
  }

  function Durations(holds: seq<Hold>): seq<int> {
    seq(|holds|, i requires 0 <= i < |holds| => holds[i].durationSeconds)
  }

  function Total(s: seq<int>): int {
    if s == [] then 0 else Total(s[..|s| - 1]) + s[|s| - 1]
  }

  function Mean(values: seq<int>): real
    requires values != []
  {
    Total(values) as real / |values| as real
  }

  /** The middle value, or the mean of the two middle values, of a sorted sequence. */
  function Middle(sorted: seq<int>): real
    requires sorted != []
  {
    var m := |sorted| / 2;
    if |sorted| % 2 == 1 then sorted[m] as real else (sorted[m - 1] as real + sorted[m] as real) / 2.0
  }

  function Median(values: seq<int>): real
    requires values != []
  {
    SortIsSorted(values);
    Middle(Sort(values))
  }

  // ----- The loop -----

  /** What the loop knows after the observations seen so far. */
  predicate Tracks(seen: seq<Observation>, holds: seq<Hold>, current: Hold, rotations: seq<Rotation>, previousRotation: int) {
    && seen != [] && Runs(seen) == holds + [Closed(current)] && current.ip == seen[|seen| - 1].ip
    && rotations == Rotations(seen)
    && previousRotation == if rotations == [] then ZERO_TIME else rotations[|rotations| - 1].at
  }

  method DeriveHolds(observations: seq<Observation>) returns (holds: seq<Hold>, rotations: seq<Rotation>)
    requires observations != []
    ensures holds == Runs(observations) && rotations == Rotations(observations) && holds != []
  {
    holds, rotations := [], [];
    var first := observations[0].at;
    var current := Hold(observations[0].ip, first, first, 1, 0);
    var previousRotation := ZERO_TIME;
    TracksFirst(observations[0]);
    assert observations[..1] == [observations[0]];
    var i := 1;
    while i < |observations|
      invariant 1 <= i <= |observations|
      invariant Tracks(observations[..i], holds, current, rotations, previousRotation)
    {
      var observation := observations[i];
      assert observations[..i + 1] == observations[..i] + [observation];
      if observation.ip == current.ip {
        TracksSame(observations[..i], observation, holds, current, rotations, previousRotation);
        current := current.(endedAt := observation.at, samples := current.samples + 1);
      } else {
        TracksTurn(observations[..i], observation, holds, current, rotations, previousRotation);
        current := Closed(current);
        holds := holds + [current];
        var cadenceStart := if previousRotation == ZERO_TIME then first else previousRotation;
        rotations := rotations + [Rotation(observation.at, current.ip, observation.ip, Seconds(Since(observation.at, cadenceStart)))];
        previousRotation := observation.at;
        current := Hold(observation.ip, observation.at, observation.at, 1, 0);
      }
      i := i + 1;
    }
    assert observations[..i] == observations;
    holds := holds + [Closed(current)];
  }

  method DeriveStickiness(observations: seq<Observation>)
      returns (holds: seq<Hold>, rotations: seq<Rotation>, average: real, median: real)
    ensures holds == Runs(observations) && rotations == Rotations(observations)
    ensures observations != [] ==> holds != [] && average == Mean(Durations(holds)) && median == Median(Durations(holds))
  {
    holds, rotations, average, median := [], [], 0.0, 0.0;
    if observations != [] {
      holds, rotations := DeriveHolds(observations);
      average := Average(holds);
      var durations := Sort(Durations(holds));
      SortIsSorted(Durations(holds));
      var middle := |durations| / 2;
      if |durations| % 2 == 1 {
        median := durations[middle] as real;
      } else {
        median := (durations[middle - 1] as real + durations[middle] as real) / 2.0;
      }
    }
  }

  lemma TracksFirst(o: Observation)
    ensures Tracks([o], [], Hold(o.ip, o.at, o.at, 1, 0), [], ZERO_TIME)
  {
    assert [o][..0] == [];
  }

  lemma OneMore(seen: seq<Observation>, o: Observation)
    requires seen != []
    ensures Runs(seen + [o]) == Grow(Runs(seen), o)
    ensures Rotations(seen + [o]) == Turn(Rotations(seen), seen[0].at, seen[|seen| - 1].ip, o)
  {
    assert (seen + [o])[..|seen|] == seen;
  }

  lemma GrowLast(holds: seq<Hold>, current: Hold, o: Observation)
    ensures Grow(holds + [Closed(current)], o) ==
              if o.ip == current.ip then holds + [Closed(current.(endedAt := o.at, samples := current.samples + 1))]
              else holds + [Closed(current)] + [Closed(Hold(o.ip, o.at, o.at, 1, 0))]
  {
    assert (holds + [Closed(current)])[..|holds|] == holds;
  }

  lemma TracksSame(seen: seq<Observation>, o: Observation, holds: seq<Hold>, current: Hold, rotations: seq<Rotation>, previous: int)
    requires Tracks(seen, holds, current, rotations, previous) && o.ip == current.ip
    ensures Tracks(seen + [o], holds, current.(endedAt := o.at, samples := current.samples + 1), rotations, previous)
  {
    OneMore(seen, o);
    GrowLast(holds, current, o);
  }

  lemma TracksTurn(seen: seq<Observation>, o: Observation, holds: seq<Hold>, current: Hold, rotations: seq<Rotation>, previous: int)
    requires Tracks(seen, holds, current, rotations, previous) && o.ip != current.ip
    ensures var start := if previous == ZERO_TIME then seen[0].at else previous;
            Tracks(seen + [o], holds + [Closed(current)], Hold(o.ip, o.at, o.at, 1, 0),
                   rotations + [Rotation(o.at, current.ip, o.ip, Seconds(Since(o.at, start)))], o.at)
  {
    OneMore(seen, o);
    GrowLast(holds, current, o);
  }

  method Average(holds: seq<Hold>) returns (average: real)
    requires holds != []
    ensures average == Mean(Durations(holds))
  {
    average := 0.0;
    var i := 0;
    while i < |holds|
      invariant 0 <= i <= |holds|
      invariant average == Total(Durations(holds)[..i]) as real
    {
      average := average + holds[i].durationSeconds as real;
      assert Durations(holds)[..i + 1][..i] == Durations(holds)[..i];
      i := i + 1;
    }
    assert Durations(holds)[..i] == Durations(holds);
    average := average / |holds| as real;
  }

  // ----- The run-length encoding loses nothing and is canonical -----

  function Repeat(ip: string, n: nat): seq<string> {
    seq(n, _ => ip)
  }

  function Expand(holds: seq<Hold>): seq<string> {
    if holds == [] then [] else Expand(holds[..|holds| - 1]) + Repeat(holds[|holds| - 1].ip, holds[|holds| - 1].samples)
  }

  function Addresses(seen: seq<Observation>): seq<string> {
    seq(|seen|, i requires 0 <= i < |seen| => seen[i].ip)
  }

  /** Holds are not empty and neighbours differ. */
  predicate Canonical(holds: seq<Hold>) {
    && (forall i | 0 <= i < |holds| :: holds[i].samples > 0)
    && (forall i | 0 <= i < |holds| - 1 :: holds[i].ip != holds[i + 1].ip)
  }

  lemma ExpandAppend(holds: seq<Hold>, last: Hold)
    ensures Expand(holds + [last]) == Expand(holds) + Repeat(last.ip, last.samples)
  {
    assert (holds + [last])[..|holds|] == holds;
  }

  lemma GrowExpands(runs: seq<Hold>, o: Observation)
    requires Canonical(runs)
    ensures Expand(Grow(runs, o)) == Expand(runs) + [o.ip] && Canonical(Grow(runs, o))
    ensures Grow(runs, o)[|Grow(runs, o)| - 1].ip == o.ip
  {
    if runs != [] && runs[|runs| - 1].ip == o.ip {
      var init, last := runs[..|runs| - 1], runs[|runs| - 1];
      ExpandAppend(init, Closed(last.(endedAt := o.at, samples := last.samples + 1)));
      assert Repeat(o.ip, last.samples + 1) == Repeat(o.ip, last.samples) + [o.ip];
    } else {
      ExpandAppend(runs, Closed(Hold(o.ip, o.at, o.at, 1, 0)));
      assert Repeat(o.ip, 1) == [o.ip];
    }
  }

  lemma AddressesNext(seen: seq<Observation>)
    requires seen != []
    ensures Addresses(seen) == Addresses(seen[..|seen| - 1]) + [seen[|seen| - 1].ip]
  {
  }

  /** Expanding the holds gives back the observed addresses. */
  lemma {:induction false} RunsLossless(seen: seq<Observation>)
    ensures Expand(Runs(seen)) == Addresses(seen) && Canonical(Runs(seen))
    ensures seen != [] ==> Runs(seen) != [] && Runs(seen)[|Runs(seen)| - 1].ip == seen[|seen| - 1].ip
  {
    if seen != [] {
      var init, o := seen[..|seen| - 1], seen[|seen| - 1];
      RunsLossless(init);
      GrowExpands(Runs(init), o);
      assert Runs(seen) == Grow(Runs(init), o);
      AddressesNext(seen);
    }
  }

  lemma ExpandEnd(holds: seq<Hold>)
    requires holds != [] && Canonical(holds)
    ensures var all, last := Expand(holds), holds[|holds| - 1];
            && |all| >= last.samples && all[|all| - last.samples..] == Repeat(last.ip, last.samples)
            && all[..|all| - last.samples] == Expand(holds[..|holds| - 1])
            && (|holds| > 1 ==> |all| > last.samples && all[|all| - last.samples - 1] != last.ip)
  {
    if |holds| > 1 {
      ExpandEnd(holds[..|holds| - 1]);
      var init := holds[..|holds| - 1];
      var all := Expand(init);
      assert all[|all| - 1] == all[|all| - init[|init| - 1].samples..][init[|init| - 1].samples - 1];
    }
  }

  lemma LastRunsAgree(a: seq<Hold>, b: seq<Hold>)
    requires a != [] && b != [] && Canonical(a) && Canonical(b) && Expand(a) == Expand(b)
    ensures a[|a| - 1].ip == b[|b| - 1].ip && a[|a| - 1].samples <= b[|b| - 1].samples
  {
    ExpandEnd(a);
    ExpandEnd(b);
    var all, x, y := Expand(a), a[|a| - 1], b[|b| - 1];
    assert all[|all| - 1] == all[|all| - x.samples..][x.samples - 1];
    assert all[|all| - 1] == all[|all| - y.samples..][y.samples - 1];
  }

  /** There is no other canonical encoding: which addresses are held, in which order, for how many
      samples, is determined by the observations. */
  lemma {:induction false} EncodingUnique(a: seq<Hold>, b: seq<Hold>)
    requires Canonical(a) && Canonical(b) && Expand(a) == Expand(b)
    ensures |a| == |b| && forall i | 0 <= i < |a| :: a[i].ip == b[i].ip && a[i].samples == b[i].samples
  {
    if a == [] || b == [] {
      if a != [] { ExpandEnd(a); }
      if b != [] { ExpandEnd(b); }
    } else {
      LastRunsAgree(a, b);
      LastRunsAgree(b, a);
      ExpandEnd(a);
      ExpandEnd(b);
      EncodingUnique(a[..|a| - 1], b[..|b| - 1]);
    }
  }

  // ----- When a hold starts and ends -----

  /** The number of samples in front of hold k. */
  function Offset(holds: seq<Hold>, k: nat): nat
    requires k <= |holds|
  {
    if k == 0 then 0 else Offset(holds, k - 1) + holds[k - 1].samples
  }

  /** The duration in whole seconds, rounded down, if the times are in order and not too far apart. */
  predicate LastsFor(h: Hold) {
    0 <= h.endedAt - h.startedAt <= INT64_MAX ==>
      h.durationSeconds * SECOND <= h.endedAt - h.startedAt < (h.durationSeconds + 1) * SECOND
  }

  /** The hold spans the observations at its place: it starts with the first of them and ends with the last. */
  predicate Spans(holds: seq<Hold>, k: nat, seen: seq<Observation>) {
    && k < |holds| && holds[k].samples > 0 && Offset(holds, k) + holds[k].samples <= |seen|
    && holds[k].startedAt == seen[Offset(holds, k)].at
    && holds[k].endedAt == seen[Offset(holds, k) + holds[k].samples - 1].at
    && LastsFor(holds[k])
  }

  lemma {:induction false} SameOffset(a: seq<Hold>, b: seq<Hold>, k: nat)
    requires k <= |a| && k <= |b| && a[..k] == b[..k]
    ensures Offset(a, k) == Offset(b, k)
  {
    if k > 0 {
      assert a[..k - 1] == a[..k][..k - 1] && b[..k - 1] == b[..k][..k - 1] && a[k - 1] == a[..k][k - 1] && b[k - 1] == b[..k][k - 1];
      SameOffset(a, b, k - 1);
    }
  }

  lemma ClosedLasts(h: Hold)
    ensures LastsFor(Closed(h))
  {
  }

  lemma GrowSpans(runs: seq<Hold>, init: seq<Observation>, o: Observation, k: nat)
    requires Offset(runs, |runs|) == |init| && (forall j | 0 <= j < |runs| :: Spans(runs, j, init)) && k < |Grow(runs, o)|
    ensures Spans(Grow(runs, o), k, init + [o])
  {
    var grown := Grow(runs, o);
    SameOffset(runs, grown, k);
    if k < |runs| {
      assert Spans(runs, k, init);
    }
    if k == |grown| - 1 {
      ClosedLasts(if |grown| == |runs| then runs[k].(endedAt := o.at, samples := runs[k].samples + 1) else Hold(o.ip, o.at, o.at, 1, 0));
    }
  }

  lemma GrowOffset(runs: seq<Hold>, o: Observation)
    ensures Offset(Grow(runs, o), |Grow(runs, o)|) == Offset(runs, |runs|) + 1
  {
    var grown := Grow(runs, o);
    SameOffset(runs, grown, |grown| - 1);
  }

  /** Every hold starts when its first sample was taken, ends with its last, and lasts for the whole seconds
      between them; together the holds take up all samples. */
  lemma {:induction false} HoldsSpan(seen: seq<Observation>)
    ensures Offset(Runs(seen), |Runs(seen)|) == |seen|
    ensures forall k | 0 <= k < |Runs(seen)| :: Spans(Runs(seen), k, seen)
  {
    if seen != [] {
      var init, o := seen[..|seen| - 1], seen[|seen| - 1];
      HoldsSpan(init);
      GrowOffset(Runs(init), o);
      assert seen == init + [o];
      forall k | 0 <= k < |Runs(seen)| ensures Spans(Runs(seen), k, seen) {
        GrowSpans(Runs(init), init, o, k);
      }
    }
  }

  // ----- Rotations -----

  predicate Linked(holds: seq<Hold>, rotations: seq<Rotation>) {
    && |rotations| == |holds| - 1
    && forall k | 0 <= k < |rotations| ::
         && rotations[k].fromIP == holds[k].ip && rotations[k].toIP == holds[k + 1].ip
         && rotations[k].at == holds[k + 1].startedAt
  }

  lemma TurnLinks(holds: seq<Hold>, rotations: seq<Rotation>, first: int, o: Observation)
    requires holds != [] && Linked(holds, rotations)
    ensures Linked(Grow(holds, o), Turn(rotations, first, holds[|holds| - 1].ip, o))
  {
  }

  /** One rotation per adjacent pair of holds, from the one to the other, when the other starts. */
  lemma {:induction false} RotationsLinkHolds(seen: seq<Observation>)
    requires seen != []
    ensures Linked(Runs(seen), Rotations(seen))
  {
    if |seen| == 1 {
      assert seen[..0] == [];
    } else {
      var init := seen[..|seen| - 1];
      RotationsLinkHolds(init);
      RunsLossless(init);
      TurnLinks(Runs(init), Rotations(init), seen[0].at, seen[|seen| - 1]);
    }
  }

  function Gaps(rotations: seq<Rotation>): seq<int> {
    seq(|rotations|, i requires 0 <= i < |rotations| => rotations[i].sincePreviousSeconds)
  }

  /** Whole seconds, never the zero time, and close enough for a 64-bit difference. */
  predicate Regular(seen: seq<Observation>) {
    && (forall i | 0 <= i < |seen| :: seen[i].at % SECOND == 0 && seen[i].at != ZERO_TIME)
    && (forall i, j | 0 <= i < |seen| && 0 <= j < |seen| :: seen[i].at - seen[j].at <= INT64_MAX)
  }

  lemma ExactSeconds(duration: int)
    requires duration % SECOND == 0
    ensures Seconds(duration) * SECOND == duration
  {
  }

  lemma {:induction false} RotationTimes(seen: seq<Observation>, k: nat) returns (i: nat)
    requires k < |Rotations(seen)|
    ensures 0 < i < |seen| && Rotations(seen)[k].at == seen[i].at
  {
    var init := seen[..|seen| - 1];
    if k < |Rotations(init)| {
      i := RotationTimes(init, k);
    } else {
      i := |seen| - 1;
    }
  }

  lemma DifferenceWhole(a: int, b: int)
    requires a % SECOND == 0 && b % SECOND == 0
    ensures (a - b) % SECOND == 0
  {
  }

  lemma TotalAppend(s: seq<int>, x: int)
    ensures Total(s + [x]) == Total(s) + x
  {
    assert (s + [x])[..|s|] == s;
  }

  lemma TurnTelescopes(rotations: seq<Rotation>, first: int, from: string, o: Observation)
    requires Total(Gaps(rotations)) * SECOND == LastRotation(first, rotations) - first
    requires o.at % SECOND == 0 && LastRotation(first, rotations) % SECOND == 0 && o.at != ZERO_TIME
    requires -INT64_MAX <= o.at - LastRotation(first, rotations) <= INT64_MAX
    ensures Total(Gaps(Turn(rotations, first, from, o))) * SECOND
         == LastRotation(first, Turn(rotations, first, from, o)) - first
  {
    if o.ip != from {
      var last := LastRotation(first, rotations);
      var gap := Seconds(Since(o.at, last));
      DifferenceWhole(o.at, last);
      ExactSeconds(o.at - last);
      assert Gaps(Turn(rotations, first, from, o)) == Gaps(rotations) + [gap];
      TotalAppend(Gaps(rotations), gap);
    }
  }

  lemma LastRotationTime(seen: seq<Observation>) returns (i: nat)
    requires seen != []
    ensures i < |seen| && LastRotation(seen[0].at, Rotations(seen)) == seen[i].at
  {
    i := 0;
    if Rotations(seen) != [] && LastRotation(seen[0].at, Rotations(seen)) != seen[0].at {
      i := RotationTimes(seen, |Rotations(seen)| - 1);
    }
  }

  /** The gaps between rotations telescope: together they span from the first observation to the last
      rotation. */
  lemma {:induction false} GapsTelescope(seen: seq<Observation>)
    requires seen != [] && Regular(seen)
    ensures Total(Gaps(Rotations(seen))) * SECOND == LastRotation(seen[0].at, Rotations(seen)) - seen[0].at
  {
    if |seen| > 1 {
      var n, init := |seen| - 1, seen[..|seen| - 1];
      GapsTelescope(init);
      var i := LastRotationTime(init);
      assert init[i] == seen[i];
      TurnTelescopes(Rotations(init), seen[0].at, seen[n - 1].ip, seen[n]);
    }
  }

  // ----- The median -----

  /** How many values are at most x. */
  function AtMost(values: seq<int>, x: real): nat {
    if values == [] then 0 else (if values[0] as real <= x then 1 else 0) + AtMost(values[1..], x)
  }

  function AtLeast(values: seq<int>, x: real): nat {
    if values == [] then 0 else (if values[0] as real >= x then 1 else 0) + AtLeast(values[1..], x)
  }

  lemma {:induction false} InsertCounts(y: int, s: seq<int>, x: real)
    ensures AtMost(Insert(y, s), x) == AtMost([y] + s, x) && AtLeast(Insert(y, s), x) == AtLeast([y] + s, x)
  {
    assert ([y] + s)[1..] == s;
    if s != [] && y > s[0] {
      InsertCounts(y, s[1..], x);
      assert ([y] + s[1..])[1..] == s[1..];
      assert ([s[0]] + Insert(y, s[1..]))[1..] == Insert(y, s[1..]);
    }
  }

  lemma {:induction false} SortCounts(s: seq<int>, x: real)
    ensures AtMost(Sort(s), x) == AtMost(s, x) && AtLeast(Sort(s), x) == AtLeast(s, x)
  {
    if s != [] {
      SortCounts(s[1..], x);
      InsertCounts(s[0], Sort(s[1..]), x);
      assert ([s[0]] + Sort(s[1..]))[1..] == Sort(s[1..]);
    }
  }

  lemma {:induction false} FrontAtMost(s: seq<int>, k: nat, x: real)
    requires k <= |s| && forall i | 0 <= i < k :: s[i] as real <= x
    ensures AtMost(s, x) >= k
  {
    if k > 0 {
      FrontAtMost(s[1..], k - 1, x);
    }
  }

  lemma {:induction false} BackAtLeast(s: seq<int>, k: nat, x: real)
    requires k <= |s| && forall i | k <= i < |s| :: s[i] as real >= x
    ensures AtLeast(s, x) >= |s| - k
  {
    if s != [] {
      BackAtLeast(s[1..], if k > 0 then k - 1 else 0, x);
    }
  }

  lemma MiddleSplits(values: seq<int>, low: nat, high: nat)
    requires low < |Sort(values)| == |values| && high < |values| && Sorted(Sort(values))
    requires 2 * (low + 1) >= |values| && 2 * (|values| - high) >= |values|
    ensures 2 * AtMost(values, Sort(values)[low] as real) >= |values|
    ensures 2 * AtLeast(values, Sort(values)[high] as real) >= |values|
  {
    var sorted := Sort(values);
    SortCounts(values, sorted[low] as real);
    SortCounts(values, sorted[high] as real);
    FrontAtMost(sorted, low + 1, sorted[low] as real);
    BackAtLeast(sorted, high, sorted[high] as real);
  }

  /** The median is midway between two durations: at least half of all are at most the one, and at least half
      are at least the other. For an odd number they are the same. */
  lemma MedianMidway(values: seq<int>) returns (low: int, high: int)
    requires values != []
    ensures low in values && high in values && low <= high && Median(values) * 2.0 == low as real + high as real
    ensures 2 * AtMost(values, low as real) >= |values| && 2 * AtLeast(values, high as real) >= |values|
    ensures |values| % 2 == 1 ==> low == high
  {
    var sorted, n := Sort(values), |values|;
    SortIsSorted(values);
    SameElements(sorted, values);
    var i, j := if n % 2 == 1 then n / 2 else n / 2 - 1, n / 2;
    low, high := sorted[i], sorted[j];
    assert low in sorted && high in sorted;
    MiddleSplits(values, i, j);
  }

  /** The median lies between the shortest and the longest hold. */
  lemma MedianBetween(holds: seq<Hold>, lo: int, hi: int)
    requires holds != [] && forall i | 0 <= i < |holds| :: lo <= holds[i].durationSeconds <= hi
    ensures lo as real <= Median(Durations(holds)) <= hi as real
  {
    var durations := Durations(holds);
    var sorted := Sort(durations);
    SortIsSorted(durations);
    SameElements(sorted, durations);
    forall i | 0 <= i < |sorted| ensures lo <= sorted[i] <= hi {
      assert sorted[i] in sorted;
      assert sorted[i] in durations;
    }
  }
}
