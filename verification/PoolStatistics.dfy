/** Counts over the rows of a pool: network categories, risk histogram, flags, and the rows in address
    order. */
module PoolStatistics {
  import opened Common
  import opened Sorting
  import opened PoolReport
  import Chao1

  datatype Composition = Composition(mobile: nat, residential: nat, datacenter: nat, unknown: nat)

  const NOTHING := Composition(0, 0, 0, 0)

  function Apply(c: Composition, category: Category): Composition {
    match category
    case Mobile => c.(mobile := c.mobile + 1)
    case Residential => c.(residential := c.residential + 1)
    case Datacenter => c.(datacenter := c.datacenter + 1)
    case Unknown => c.(unknown := c.unknown + 1)
  }

  function TotalOf(c: Composition): nat {
    c.mobile + c.residential + c.datacenter + c.unknown
  }

  // ----- The risk histogram -----

  const BUCKETS := 10

  /** Ten points wide, except that the last one includes 100. */
  predicate InBucket(score: int, b: nat) {
    b < BUCKETS && b * 10 <= score <= (if b == BUCKETS - 1 then 100 else b * 10 + 9)
  }

  /** Counts the score in the one bucket it belongs to, if any. */
  method AddRisk(buckets: array<nat>, score: int)
    requires buckets.Length == BUCKETS
    modifies buckets
    ensures forall b | 0 <= b < BUCKETS :: buckets[b] == old(buckets[b]) + (if InBucket(score, b) then 1 else 0)
  {
    if score < 0 || score > 100 {
      return;
    }
    var bucket := score / 10;
    if bucket == 10 {
      bucket := 9;
    }
    buckets[bucket] := buckets[bucket] + 1;
  }

  function ScoresIn(rows: seq<Accum>, b: nat): nat {
    if rows == [] then 0
    else
      var score := rows[|rows| - 1].row.standing.riskScore;
      ScoresIn(rows[..|rows| - 1], b) + (if score.Some? && InBucket(score.value, b) then 1 else 0)
  }

  // ----- Counting rows -----

  function CountOf(rows: seq<Accum>, category: Category): nat {
    if rows == [] then 0
    else CountOf(rows[..|rows| - 1], category) + (if rows[|rows| - 1].row.standing.category == category then 1 else 0)
  }

  function FlaggedCount(rows: seq<Accum>): nat {
    if rows == [] then 0 else FlaggedCount(rows[..|rows| - 1]) + (if rows[|rows| - 1].flagged then 1 else 0)
  }

  function ListedCount(rows: seq<Accum>): nat {
    if rows == [] then 0 else ListedCount(rows[..|rows| - 1]) + (if rows[|rows| - 1].row.standing.dnsblListed then 1 else 0)
  }

  function CountIn(c: Composition, category: Category): nat {
    match category
    case Mobile => c.mobile
    case Residential => c.residential
    case Datacenter => c.datacenter
    case Unknown => c.unknown
  }

  /** The categories partition the rows. */
  ghost predicate Partitions(c: Composition, rows: seq<Accum>) {
    TotalOf(c) == |rows| && forall category :: CountIn(c, category) == CountOf(rows, category)
  }

  // ----- Rows in address order -----

  /** The values of a map in increasing order of its keys: there is exactly one such sequence. */
  ghost predicate InKeyOrder(keys: seq<Ip>, rows: seq<Accum>, ips: map<Ip, Accum>) {
    && Increasing(keys) && (forall k :: k in keys <==> k in ips) && |rows| == |keys| == |ips|
    && forall i | 0 <= i < |keys| :: keys[i] in ips && rows[i] == ips[keys[i]]
  }

  method CollectKeys(ips: map<Ip, Accum>) returns (keys: seq<Ip>)
    ensures |keys| == |ips| && multiset(keys) == multiset(ips.Keys)
  {
    keys := [];
    var left := ips.Keys;
    while left != {}
      invariant left <= ips.Keys && multiset(keys) == multiset(ips.Keys - left) && |keys| == |ips.Keys - left|
      decreases |left|
    {
      var k :| k in left;
      assert ips.Keys - (left - {k}) == (ips.Keys - left) + {k};
      keys, left := keys + [k], left - {k};
    }
    assert ips.Keys - left == ips.Keys;
  }

  lemma SortedKeysIncrease(keys: seq<Ip>, s: set<Ip>)
    requires multiset(keys) == multiset(s)
    ensures Increasing(Sort(keys)) && |Sort(keys)| == |keys| && forall k :: k in Sort(keys) <==> k in s
  {
    SortIsSorted(keys);
    var sorted := Sort(keys);
    forall k ensures k in sorted <==> k in s {
      assert k in sorted <==> k in multiset(sorted);
    }
    forall i, j | 0 <= i < j < |sorted| ensures sorted[i] < sorted[j] {
      if sorted[i] == sorted[j] {
        TwiceIn(sorted, i, j);
      }
    }
  }

  lemma TwiceIn(s: seq<int>, i: nat, j: nat)
    requires i < j < |s| && s[i] == s[j]
    ensures multiset(s)[s[i]] >= 2
  {
    assert s == s[..i] + [s[i]] + s[i + 1..j] + [s[j]] + s[j + 1..];
  }

  method SortedIps(ips: map<Ip, Accum>) returns (ghost keys: seq<Ip>, out: seq<Accum>)
    ensures InKeyOrder(keys, out, ips)
  {
    var unsorted := CollectKeys(ips);
    SortedKeysIncrease(unsorted, ips.Keys);
    var increasing: seq<int> := Sort(unsorted);
    assert forall i | 0 <= i < |increasing| :: increasing[i] in increasing && increasing[i] in ips.Keys;
    var sorted: seq<Ip> := increasing;
    out := [];
    var i := 0;
    while i < |sorted|
      invariant 0 <= i <= |sorted| && |out| == i
      invariant forall j | 0 <= j < i :: sorted[j] in ips && out[j] == ips[sorted[j]]
    {
      assert sorted[i] in sorted;
      out := out + [ips[sorted[i]]];
      i := i + 1;
    }
    keys := sorted;
  }

  // ----- The statistics -----

  datatype Statistics = Statistics(
    composition: Composition, histogram: seq<nat>, flagged: nat, listed: nat, estimate: Chao1.Estimate, rows: seq<Row>)

  function Frequencies(rows: seq<Accum>): seq<nat> {
    seq(|rows|, i requires 0 <= i < |rows| => |rows[i].variants|)
  }

  function RowsOf(rows: seq<Accum>): seq<Row> {
    seq(|rows|, i requires 0 <= i < |rows| => rows[i].row)
  }

  /** What the statistics say about the rows, row order included. */
  ghost predicate Describes(s: Statistics, rows: seq<Accum>) {
    && Partitions(s.composition, rows)
    && |s.histogram| == BUCKETS && (forall b | 0 <= b < BUCKETS :: s.histogram[b] == ScoresIn(rows, b))
    && s.flagged == FlaggedCount(rows) && s.listed == ListedCount(rows)
    && Chao1.Estimates(s.estimate, Frequencies(rows)) && s.rows == RowsOf(rows)
  }

  /** What the loop over the rows accumulates, apart from the histogram. */
  datatype Counters = Counters(composition: Composition, flagged: nat, listed: nat, frequencies: seq<nat>, shown: seq<Row>)

  function CountRow(c: Counters, a: Accum): Counters {
    Counters(Apply(c.composition, a.row.standing.category), c.flagged + (if a.flagged then 1 else 0),
             c.listed + (if a.row.standing.dnsblListed then 1 else 0), c.frequencies + [|a.variants|], c.shown + [a.row])
  }

  function CountersOf(rows: seq<Accum>): Counters {
    if rows == [] then Counters(NOTHING, 0, 0, [], []) else CountRow(CountersOf(rows[..|rows| - 1]), rows[|rows| - 1])
  }

  lemma CountersNext(rows: seq<Accum>, i: nat)
    requires i < |rows|
    ensures CountersOf(rows[..i + 1]) == CountRow(CountersOf(rows[..i]), rows[i])
  {
    assert rows[..i + 1][..i] == rows[..i];
  }

  lemma ApplyCounts(c: Composition, applied: Category, category: Category)
    ensures CountIn(Apply(c, applied), category) == CountIn(c, category) + (if applied == category then 1 else 0)
    ensures TotalOf(Apply(c, applied)) == TotalOf(c) + 1
  {
  }

  lemma {:induction false} CompositionCounts(rows: seq<Accum>, category: Category)
    ensures CountIn(CountersOf(rows).composition, category) == CountOf(rows, category)
    ensures TotalOf(CountersOf(rows).composition) == |rows|
  {
    if rows != [] {
      var init, last := rows[..|rows| - 1], rows[|rows| - 1];
      CompositionCounts(init, category);
      ApplyCounts(CountersOf(init).composition, last.row.standing.category, category);
      assert CountersOf(rows) == CountRow(CountersOf(init), last);
    }
  }

  lemma {:induction false} CountersList(rows: seq<Accum>)
    ensures CountersOf(rows).flagged == FlaggedCount(rows) && CountersOf(rows).listed == ListedCount(rows)
    ensures CountersOf(rows).frequencies == Frequencies(rows) && CountersOf(rows).shown == RowsOf(rows)
  {
    if rows != [] {
      CountersList(rows[..|rows| - 1]);
    }
  }

  lemma ScoresNext(rows: seq<Accum>, i: nat, b: nat)
    requires i < |rows|
    ensures ScoresIn(rows[..i + 1], b)
         == ScoresIn(rows[..i], b) + (if rows[i].row.standing.riskScore.Some? && InBucket(rows[i].row.standing.riskScore.value, b) then 1 else 0)
  {
    assert rows[..i + 1][..i] == rows[..i];
  }

  /** The histogram of the first i rows. */
  predicate Histogram(buckets: seq<nat>, rows: seq<Accum>, i: nat) {
    i <= |rows| && |buckets| == BUCKETS && forall b | 0 <= b < BUCKETS :: buckets[b] == ScoresIn(rows[..i], b)
  }

  lemma HistogramNext(before: seq<nat>, after: seq<nat>, rows: seq<Accum>, i: nat)
    requires i < |rows| && Histogram(before, rows, i) && |after| == BUCKETS
    requires var score := rows[i].row.standing.riskScore;
             forall b | 0 <= b < BUCKETS :: after[b] == before[b] + (if score.Some? && InBucket(score.value, b) then 1 else 0)
    ensures Histogram(after, rows, i + 1)
  {
    forall b | 0 <= b < BUCKETS ensures after[b] == ScoresIn(rows[..i + 1], b) {
      ScoresNext(rows, i, b);
    }
  }

  method CountRows(rows: seq<Accum>, buckets: array<nat>)
      returns (composition: Composition, flagged: nat, listed: nat, frequencies: seq<nat>, shown: seq<Row>)
    requires buckets.Length == BUCKETS && forall b | 0 <= b < BUCKETS :: buckets[b] == 0
    modifies buckets
    ensures Counters(composition, flagged, listed, frequencies, shown) == CountersOf(rows)
    ensures Histogram(buckets[..], rows, |rows|)
  {
    composition, flagged, listed, frequencies, shown := NOTHING, 0, 0, [], [];
    var i := 0;
    while i < |rows|
      invariant 0 <= i <= |rows|
      invariant Counters(composition, flagged, listed, frequencies, shown) == CountersOf(rows[..i])
      invariant Histogram(buckets[..], rows, i)
    {
      var a := rows[i];
      CountersNext(rows, i);
      ghost var before := buckets[..];
      frequencies := frequencies + [|a.variants|];
      composition := Apply(composition, a.row.standing.category);
      if a.flagged {
        flagged := flagged + 1;
      }
      if a.row.standing.dnsblListed {
        listed := listed + 1;
      }
      if a.row.standing.riskScore.Some? {
        AddRisk(buckets, a.row.standing.riskScore.value);
      }
      HistogramNext(before, buckets[..], rows, i);
      shown := shown + [a.row];
      i := i + 1;
    }
    assert rows[..i] == rows;
  }

  method Summarise(rows: seq<Accum>) returns (s: Statistics)
    ensures Describes(s, rows)
  {
    var buckets := new nat[BUCKETS](_ => 0);
    var composition, flagged, listed, frequencies, shown := CountRows(rows, buckets);
    assert rows[..|rows|] == rows;
    CountersList(rows);
    forall category ensures CountIn(composition, category) == CountOf(rows, category) {
      CompositionCounts(rows, category);
    }
    CompositionCounts(rows, Unknown);
    var estimate := Chao1.EstimatePool(frequencies);
    s := Statistics(composition, buckets[..], flagged, listed, estimate, shown);
  }
}
