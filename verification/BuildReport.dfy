/** The whole pool report, and that it does not depend on the order in which observations arrive. */
module BuildReport {
  import opened Common
  import opened Folding
  import opened Sorting
  import opened PoolReport
  import opened PoolStatistics
  import opened HonorReport
  import Chao1

  datatype Report = Report(statistics: Statistics, cells: Cells)

  lemma GroupNext(sessionObs: map<Id, seq<Observation>>, observations: seq<Observation>, i: nat)
    requires i < |observations| && GroupedBySession(sessionObs, observations[..i])
    ensures var o := observations[i];
            GroupedBySession(sessionObs[o.session := (if o.session in sessionObs then sessionObs[o.session] else []) + [o]],
                             observations[..i + 1])
  {
    var o := observations[i];
    assert observations[..i + 1] == observations[..i] + [o];
    assert observations[..i + 1][..i] == observations[..i];
    if o.session !in sessionObs {
      NobodysObservations(observations[..i], o.session);
    }
  }

  /** The first pass: merge per address, group per session. */
  method Gather(observations: seq<Observation>, text: Text)
      returns (ips: map<Ip, Accum>, sessionObs: map<Id, seq<Observation>>)
    ensures ips == IpsOf(observations, text) && GroupedBySession(sessionObs, observations)
  {
    ips, sessionObs := map[], map[];
    var i := 0;
    while i < |observations|
      invariant 0 <= i <= |observations|
      invariant ips == IpsOf(observations[..i], text) && GroupedBySession(sessionObs, observations[..i])
    {
      var o := observations[i];
      GroupNext(sessionObs, observations, i);
      FoldAppend(Adder(text), map[], observations[..i], o);
      assert observations[..i + 1] == observations[..i] + [o];
      sessionObs := sessionObs[o.session := (if o.session in sessionObs then sessionObs[o.session] else []) + [o]];
      if o.ip !in ips {
        ips := ips[o.ip := NewAccum(o, text)];
      } else {
        ips := ips[o.ip := Merged(ips[o.ip], o)];
      }
      i := i + 1;
    }
    assert observations[..i] == observations;
  }

  /** The report of these variants and observations; keys and rows are the address order behind it. */
  ghost predicate Reports(r: Report, variants: seq<VariantSession>, observations: seq<Observation>, text: Text,
                          keys: seq<Ip>, rows: seq<Accum>) {
    && InKeyOrder(keys, rows, IpsOf(observations, text))
    && Describes(r.statistics, rows)
    && r.cells == CellsOf(variants, observations, text)
  }

  method BuildPoolReport(variants: seq<VariantSession>, observations: seq<Observation>, text: Text)
      returns (r: Report, ghost keys: seq<Ip>, ghost rows: seq<Accum>)
    ensures Reports(r, variants, observations, text, keys, rows)
  {
    var ips, sessionObs := Gather(observations, text);
    var sorted;
    keys, sorted := SortedIps(ips);
    rows := sorted;
    var statistics := Summarise(sorted);
    var cells := BuildHonorAndCells(variants, sessionObs, observations, text);
    r := Report(statistics, cells);
  }

  lemma SameComposition(a: Composition, b: Composition)
    requires forall category :: CountIn(a, category) == CountIn(b, category)
    ensures a == b
  {
    assert CountIn(a, Mobile) == CountIn(b, Mobile) && CountIn(a, Residential) == CountIn(b, Residential);
    assert CountIn(a, Datacenter) == CountIn(b, Datacenter) && CountIn(a, Unknown) == CountIn(b, Unknown);
  }

  lemma StatisticsUnique(s: Statistics, t: Statistics, rows: seq<Accum>)
    requires Describes(s, rows) && Describes(t, rows)
    ensures s == t
  {
    assert s.histogram == t.histogram;
    forall category ensures CountIn(s.composition, category) == CountIn(t.composition, category) {}
    SameComposition(s.composition, t.composition);
  }

  /** If reputation belongs to the address, any two reports of the same observations, in whatever order
      they came, are equal. */
  lemma ReportAnyOrder(variants: seq<VariantSession>, a: seq<Observation>, b: seq<Observation>, text: Text,
                       r: Report, rKeys: seq<Ip>, rRows: seq<Accum>, s: Report, sKeys: seq<Ip>, sRows: seq<Accum>)
    requires multiset(a) == multiset(b) && ReputationByIP(a)
    requires Reports(r, variants, a, text, rKeys, rRows) && Reports(s, variants, b, text, sKeys, sRows)
    ensures r == s
  {
    AdderCommutes(a, text);
    AnyOrder(Adder(text), map[], a, b);
    IncreasingUnique(rKeys, sKeys);
    assert rRows == sRows;
    StatisticsUnique(r.statistics, s.statistics, rRows);
    CellsAnyOrder(variants, a, b, text);
  }

  /** The rows are the group-by of the observations in strictly increasing address order, the categories
      partition them, and the estimate is not below their number. */
  lemma ReportRefinesGroupBy(r: Report, variants: seq<VariantSession>, observations: seq<Observation>, text: Text,
                             keys: seq<Ip>, rows: seq<Accum>)
    requires Reports(r, variants, observations, text, keys, rows)
    ensures |r.statistics.rows| == |keys| && forall i | 0 <= i < |keys| :: r.statistics.rows[i].ip == keys[i]
    ensures Increasing(keys) && forall ip: Ip :: ip in keys <==> exists o :: o in observations && o.ip == ip
    ensures forall i | 0 <= i < |keys| :: Grouped(rows[i], observations, keys[i], text) && rows[i].row == r.statistics.rows[i]
    ensures TotalOf(r.statistics.composition) == |keys| == r.statistics.estimate.observed <= r.statistics.estimate.estimate
    ensures SumsUp(r.cells, |variants|)
  {
    RowsGroupObservations(observations, text);
    CellsSumUp(variants, observations, text);
    Chao1.EstimateBounds(r.statistics.estimate, Frequencies(rows));
    forall i | 0 <= i < |keys| ensures Grouped(rows[i], observations, keys[i], text) {
      assert keys[i] in IpsOf(observations, text);
    }
    forall ip: Ip ensures ip in keys <==> exists o :: o in observations && o.ip == ip {
      assert ip in keys <==> ip in IpsOf(observations, text).Keys;
    }
  }
}
