/** A prepared worker: the in-memory state one goroutine ticks for one session. */
module SamplingWorker {
  import opened Common
  import opened Samples
  import opened SessionStore
  import SampleWriter

  /** The identity tells two PreparedWorker objects apart. */
  datatype Prepared = Prepared(
    identity: nat,
    session: Id,
    sequenceOffset: int,
    maxSamples: Option<int>,
    maxDuration: Option<int>,
    startedAt: Option<int>,
    probesOK: int,
    sequence: nat,
    seen: set<Ip>)

  /** Prepare: the row value read earlier, and the addresses read now. */
  function Prepare(identity: nat, session: Id, value: Row, seen: set<Ip>): Prepared {
    var taken := if value.samplesTaken < 0 then 0 else value.samplesTaken;
    Prepared(identity, session, value.sequenceOffset, value.maxSamples, value.maxDuration, value.startedAt,
             value.probesOK, if taken >= UINT32_LIMIT then UINT32_LIMIT - 1 else taken, seen)
  }

  predicate SamplesReached(p: Prepared) {
    p.maxSamples.Some? && p.sequence >= p.maxSamples.value
  }

  predicate CapReached(p: Prepared, now: int) {
    SamplesReached(p)
    || (p.maxDuration.Some? && p.startedAt.Some? && now - p.startedAt.value >= p.maxDuration.value)
  }

  function NextSequence(p: Prepared): nat {
    ToUint32(p.sequence + 1)
  }

  /** What tick asks the store to save. */
  function NextSnapshot(p: Prepared, sample: Sample): Snapshot {
    Snapshot(NextSequence(p), p.probesOK + sample.probesOK, |p.seen + sample.ipHits.Keys|)
  }

  /** What tick keeps in memory once the save succeeded. */
  function AfterTick(p: Prepared, sample: Sample): Prepared {
    p.(sequence := NextSequence(p), seen := p.seen + sample.ipHits.Keys, probesOK := p.probesOK + sample.probesOK)
  }

  function TickEvent(p: Prepared, sample: Sample): SampleWriter.Event {
    SampleWriter.Event(p.session, ToUint32(ToUint32(p.sequenceOffset) + NextSequence(p)), sample.newIPs,
                       sample.probesAttempted, sample.probeIPs, sample.probeRTTs, sample.probeOK)
  }

  // ----- The committed ticks of a session, and how row and memory agree with them -----

  datatype Tick = Tick(sequence: nat, hits: map<Ip, nat>, newIPs: nat)

  ghost function TotalHits(ticks: seq<Tick>): nat {
    if ticks == [] then 0 else TotalHits(ticks[..|ticks| - 1]) + Sum<Ip>(ticks[|ticks| - 1].hits)
  }

  function TotalNew(ticks: seq<Tick>): nat {
    if ticks == [] then 0 else TotalNew(ticks[..|ticks| - 1]) + ticks[|ticks| - 1].newIPs
  }

  function AddressesOf(ticks: seq<Tick>): set<Ip> {
    if ticks == [] then {} else AddressesOf(ticks[..|ticks| - 1]) + ticks[|ticks| - 1].hits.Keys
  }

  /** The counters are 32 bits wide, so numbering claims stop at 2^31 ticks of one session. */
  predicate Countable(ticks: seq<Tick>) {
    |ticks| < INT32_LIMIT
  }

  predicate Numbered(ticks: seq<Tick>) {
    forall k | 0 <= k < |ticks| :: ticks[k].sequence == k + 1
  }

  /** The inventory columns against the ticks ever committed. */
  ghost predicate InventoryAgrees(row: Row, ticks: seq<Tick>) {
    && row.ips.Keys == AddressesOf(ticks)
    && Sum<Ip>(row.ips) == TotalHits(ticks)
    && TotalNew(ticks) == |row.ips|
    && row.distinctIPs == ToInt32(|row.ips|)
  }

  predicate CountsAgree(row: Row, ticks: seq<Tick>) {
    && 0 <= row.samplesTaken && 0 <= row.sequenceOffset
    && row.sequenceOffset + row.samplesTaken == |ticks|
    && (row.maxSamples.Some? ==> row.samplesTaken <= row.maxSamples.value)
    && Numbered(ticks)
  }

  ghost predicate RowAgrees(row: Row, ticks: seq<Tick>) {
    InventoryAgrees(row, ticks) && (Countable(ticks) ==> CountsAgree(row, ticks))
  }

  /** The worker's memory matches its row. */
  predicate Synced(p: Prepared, row: Row, ticks: seq<Tick>) {
    && p.sequenceOffset == row.sequenceOffset
    && p.maxSamples == row.maxSamples
    && p.maxDuration == row.maxDuration
    && p.startedAt == row.startedAt
    && p.seen == row.ips.Keys
    && (Countable(ticks) ==> p.sequence == row.samplesTaken && p.probesOK == row.probesOK)
  }

  /** A freshly prepared worker is synced with the row it was read from. */
  lemma PrepareSynced(identity: nat, session: Id, row: Row, ticks: seq<Tick>)
    requires RowAgrees(row, ticks)
    ensures Synced(Prepare(identity, session, row, row.ips.Keys), row, ticks)
  {
  }

  /** The committed tick of a synced worker. */
  function Committed(p: Prepared, sample: Sample): Tick {
    Tick(TickEvent(p, sample).sequence, sample.ipHits, sample.newIPs)
  }

  lemma CardinalityOfUnion(a: set<Ip>, b: set<Ip>)
    ensures |a + b| == |a| + |b - a|
  {
    assert a + b == a + (b - a);
  }

  /** The row the tick transaction leaves behind. */
  function SavedRow(p: Prepared, row: Row, sample: Sample): Row {
    var snapshot := NextSnapshot(p, sample);
    row.(samplesTaken := ToInt32(snapshot.samplesTaken), probesOK := snapshot.probesOK,
         distinctIPs := ToInt32(snapshot.distinctIPs), ips := UpsertHits(row.ips, sample.ipHits))
  }

  lemma HistoryAppend(ticks: seq<Tick>, tick: Tick)
    ensures TotalHits(ticks + [tick]) == TotalHits(ticks) + Sum<Ip>(tick.hits)
    ensures TotalNew(ticks + [tick]) == TotalNew(ticks) + tick.newIPs
    ensures AddressesOf(ticks + [tick]) == AddressesOf(ticks) + tick.hits.Keys
  {
    assert (ticks + [tick])[..|ticks|] == ticks;
  }

  lemma UpsertHitsKeys(ips: map<Ip, nat>, hits: map<Ip, nat>)
    ensures UpsertHits(ips, hits).Keys == ips.Keys + hits.Keys
    ensures |UpsertHits(ips, hits)| == |ips| + |hits.Keys - ips.Keys|
  {
    CardinalityOfUnion(ips.Keys, hits.Keys);
    assert UpsertHits(ips, hits).Keys == ips.Keys + hits.Keys;
  }

  lemma TickKeepsInventory(p: Prepared, row: Row, ticks: seq<Tick>, sample: Sample)
    requires p.seen == row.ips.Keys && InventoryAgrees(row, ticks) && Tallied(sample, p.seen)
    ensures InventoryAgrees(SavedRow(p, row, sample), ticks + [Committed(p, sample)])
    ensures SavedRow(p, row, sample).ips.Keys == AfterTick(p, sample).seen
  {
    HistoryAppend(ticks, Committed(p, sample));
    UpsertHitsSum(row.ips, sample.ipHits);
    UpsertHitsKeys(row.ips, sample.ipHits);
    assert |SavedRow(p, row, sample).ips.Keys| == |p.seen + sample.ipHits.Keys|;
  }

  lemma TickKeepsCounts(p: Prepared, row: Row, ticks: seq<Tick>, sample: Sample)
    requires Synced(p, row, ticks) && CountsAgree(row, ticks) && !SamplesReached(p)
    requires Countable(ticks + [Committed(p, sample)])
    ensures CountsAgree(SavedRow(p, row, sample), ticks + [Committed(p, sample)])
    ensures TickEvent(p, sample).sequence == |ticks| + 1
  {
  }

  /** One committed tick keeps row, memory and history in agreement, whatever the probes saw: it
      carries the next lifetime number, and the inventory columns follow the sets. */
  lemma TickKeepsAgreement(p: Prepared, row: Row, ticks: seq<Tick>, sample: Sample)
    requires Synced(p, row, ticks) && RowAgrees(row, ticks) && !SamplesReached(p)
    requires Tallied(sample, p.seen)
    ensures var later := ticks + [Committed(p, sample)];
            && RowAgrees(SavedRow(p, row, sample), later)
            && Synced(AfterTick(p, sample), SavedRow(p, row, sample), later)
            && (Countable(later) ==> TickEvent(p, sample).sequence == |later|)
  {
    TickKeepsInventory(p, row, ticks, sample);
    if Countable(ticks + [Committed(p, sample)]) {
      TickKeepsCounts(p, row, ticks, sample);
    }
  }
}
