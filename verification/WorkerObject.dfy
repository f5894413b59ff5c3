/** The prepared worker as an object: one tick's bookkeeping, and the transaction that saves it. */
module WorkerObject {
  import opened Common
  import opened Samples
  import opened SamplingWorker
  import opened SessionStore
  import Writer = SampleWriter
  import Aggregation

  type Hits = seq<(Ip, nat)>

  /** The hits of one tick as a map, later entries winning. */
  function HitMap(hits: Hits): map<Ip, nat> {
    if hits == [] then map[] else HitMap(hits[..|hits| - 1])[hits[|hits| - 1].0 := hits[|hits| - 1].1]
  }

  /** The addresses of the first n probes. */
  function Seen(probeIPs: seq<Option<Ip>>, n: nat): set<Ip>
    requires n <= |probeIPs|
  {
    set i | 0 <= i < n && probeIPs[i].Some? :: probeIPs[i].value
  }

  lemma SeenNext(probeIPs: seq<Option<Ip>>, n: nat)
    requires n < |probeIPs|
    ensures Seen(probeIPs, n + 1) == Seen(probeIPs, n) + (if probeIPs[n].Some? then {probeIPs[n].value} else {})
  {
  }

  lemma HitMapNext(hits: Hits, ip: Ip, count: nat)
    ensures HitMap(hits + [(ip, count)]) == HitMap(hits)[ip := count]
  {
    assert (hits + [(ip, count)])[..|hits|] == hits;
  }

  predicate OncePerAddress(hits: Hits) {
    forall i, j | 0 <= i < j < |hits| :: hits[i].0 != hits[j].0
  }

  /** One entry per added address, with its count. */
  predicate Collected(hits: Hits, added: set<Ip>, counts: map<Ip, nat>) {
    && OncePerAddress(hits) && |hits| == |added| && (forall i | 0 <= i < |hits| :: hits[i].0 in added)
    && HitMap(hits).Keys == added <= counts.Keys && forall ip | ip in added :: HitMap(hits)[ip] == counts[ip]
  }

  lemma CollectedNext(hits: Hits, added: set<Ip>, counts: map<Ip, nat>, ip: Ip)
    requires Collected(hits, added, counts) && ip in counts && ip !in added
    ensures Collected(hits + [(ip, counts[ip])], added + {ip}, counts)
  {
    HitMapNext(hits, ip, counts[ip]);
  }

  /** The hit counts of a sample are about the addresses its probes saw. */
  predicate HitsMatchProbes(sample: Sample) {
    sample.ipHits.Keys == Seen(sample.probeIPs, |sample.probeIPs|)
  }

  /** What the loop over the probes knows after i of them. */
  predicate Progress(sample: Sample, i: nat, added: set<Ip>, hits: Hits) {
    i <= |sample.probeIPs| && added == Seen(sample.probeIPs, i) && Collected(hits, added, sample.ipHits)
  }

  lemma ProgressNext(sample: Sample, i: nat, added: set<Ip>, hits: Hits)
    requires HitsMatchProbes(sample) && Progress(sample, i, added, hits) && i < |sample.probeIPs|
    ensures var probe := sample.probeIPs[i];
            if probe.None? || probe.value in added then Progress(sample, i + 1, added, hits)
            else probe.value in sample.ipHits
                 && Progress(sample, i + 1, added + {probe.value}, hits + [(probe.value, sample.ipHits[probe.value])])
  {
    SeenNext(sample.probeIPs, i);
    if sample.probeIPs[i].Some? && sample.probeIPs[i].value !in added {
      assert sample.probeIPs[i].value in Seen(sample.probeIPs, |sample.probeIPs|);
      CollectedNext(hits, added, sample.ipHits, sample.probeIPs[i].value);
    }
  }

  lemma ProgressDone(sample: Sample, added: set<Ip>, hits: Hits)
    requires HitsMatchProbes(sample) && Progress(sample, |sample.probeIPs|, added, hits)
    ensures Lists(hits, sample.ipHits) && added == sample.ipHits.Keys
  {
  }

  lemma UnionNext(seen: set<Ip>, added: set<Ip>, ip: Ip)
    ensures seen + added + {ip} == seen + (added + {ip})
  {
  }

  /** The loop over the probes: each address once, with its hits, in probe order. */
  method CollectHits(sample: Sample, seen: set<Ip>) returns (hits: Hits, nextSeen: set<Ip>)
    requires HitsMatchProbes(sample)
    ensures Lists(hits, sample.ipHits) && nextSeen == seen + sample.ipHits.Keys
  {
    hits, nextSeen := [], seen;
    var added: set<Ip> := {};
    var i := 0;
    while i < |sample.probeIPs|
      invariant 0 <= i <= |sample.probeIPs| && nextSeen == seen + added
      invariant Progress(sample, i, added, hits)
    {
      ProgressNext(sample, i, added, hits);
      if sample.probeIPs[i].Some? {
        var ip := sample.probeIPs[i].value;
        if ip !in added {
          UnionNext(seen, added, ip);
          added := added + {ip};
          nextSeen := nextSeen + {ip};
          hits := hits + [(ip, sample.ipHits[ip])];
        }
      }
      i := i + 1;
    }
    ProgressDone(sample, added, hits);
  }

  /** The hits are the counts, one entry per address. */
  predicate Lists(hits: Hits, counts: map<Ip, nat>) {
    HitMap(hits) == counts && OncePerAddress(hits)
  }

  lemma SnapshotIs(p: Prepared, sample: Sample, nextSeen: set<Ip>)
    requires nextSeen == p.seen + sample.ipHits.Keys
    ensures NextSnapshot(p, sample) == Snapshot(NextSequence(p), p.probesOK + sample.probesOK, |nextSeen|)
    ensures AfterTick(p, sample) == p.(sequence := NextSequence(p), seen := nextSeen, probesOK := p.probesOK + sample.probesOK)
  {
  }

  class PreparedWorker {
    const identity: nat
    const session: Id
    const sequenceOffset: int
    const maxSamples: Option<int>
    const maxDuration: Option<int>
    const startedAt: Option<int>
    var probesOK: int
    var sampleSeq: nat
    var seen: set<Ip>
    var previousPrimary: Option<Ip>

    ghost function Value(): Prepared
      reads this
    {
      Prepared(identity, session, sequenceOffset, maxSamples, maxDuration, startedAt, probesOK, sampleSeq, seen)
    }

    /** Prepare: the worker starts where the row it was read from left off. */
    constructor (identity: nat, session: Id, value: Row, inventory: set<Ip>, lastPrimary: Option<Ip>)
      ensures Value() == Prepare(identity, session, value, inventory) && previousPrimary == lastPrimary
    {
      this.identity, this.session, this.sequenceOffset := identity, session, value.sequenceOffset;
      this.maxSamples, this.maxDuration, this.startedAt := value.maxSamples, value.maxDuration, value.startedAt;
      var sequence: nat := if value.samplesTaken < 0 then 0 else value.samplesTaken;
      if sequence >= UINT32_LIMIT {
        sequence := UINT32_LIMIT - 1;
      }
      probesOK, sampleSeq, seen, previousPrimary := value.probesOK, sequence, inventory, lastPrimary;
    }

    /** The rest of a tick after probing. saved is the outcome of the transaction; memory moves only with
        the row, and the event carries the next lifetime number. */
    method Tick(sample: Sample, saved: bool) returns (snapshot: Snapshot, hits: Hits, event: Option<Writer.Event>)
      requires HitsMatchProbes(sample)
      modifies `probesOK, `sampleSeq, `seen, `previousPrimary
      ensures snapshot == NextSnapshot(old(Value()), sample) && Lists(hits, sample.ipHits)
      ensures saved ==> Value() == AfterTick(old(Value()), sample) && event == Some(TickEvent(old(Value()), sample))
      ensures !saved ==> Value() == old(Value()) && event == None && previousPrimary == old(previousPrimary)
      ensures saved ==> previousPrimary == (if sample.primaryIP.Some? then sample.primaryIP else old(previousPrimary))
    {
      var nextSeen;
      hits, nextSeen := CollectHits(sample, seen);
      SnapshotIs(Value(), sample, nextSeen);
      var nextSequence := ToUint32(sampleSeq + 1);
      var clickhouseSequence := ToUint32(ToUint32(sequenceOffset) + nextSequence);
      var nextPrimary := previousPrimary;
      if sample.primaryIP.Some? {
        nextPrimary := sample.primaryIP;
      }
      snapshot := Snapshot(nextSequence, probesOK + sample.probesOK, |nextSeen|);
      event := None;
      if saved {
        event := Some(Writer.Event(session, clickhouseSequence, sample.newIPs, sample.probesAttempted,
                                   sample.probeIPs, sample.probeRTTs, sample.probeOK));
        seen, previousPrimary, sampleSeq, probesOK := nextSeen, nextPrimary, nextSequence, snapshot.probesOK;
      }
    }
  }

  lemma {:induction false} UpsertHit(ips: map<Ip, nat>, hits: map<Ip, nat>, ip: Ip, count: nat)
    requires ip !in hits
    ensures var before := UpsertHits(ips, hits);
            UpsertHits(ips, hits[ip := count]) == before[ip := (if ip in before then before[ip] else 0) + count]
  {
    assert hits[ip := count] - {ip} == hits;
    UpsertOne(ips, hits[ip := count], ip);
  }

  lemma {:induction false} HitMapKeys(hits: Hits)
    ensures forall ip :: ip in HitMap(hits) <==> exists i :: 0 <= i < |hits| && hits[i].0 == ip
  {
    if hits != [] {
      HitMapKeys(hits[..|hits| - 1]);
      assert forall i | 0 <= i < |hits| - 1 :: hits[..|hits| - 1][i] == hits[i];
    }
  }

  /** The statements of the tick transaction, one upsert per address: together they do what the
      transaction is specified to do. */
  method SaveHits(ips: map<Ip, nat>, hits: Hits) returns (r: map<Ip, nat>)
    requires OncePerAddress(hits)
    ensures r == UpsertHits(ips, HitMap(hits))
  {
    r := ips;
    var i := 0;
    assert UpsertHits(ips, map[]) == ips;
    while i < |hits|
      invariant 0 <= i <= |hits| && r == UpsertHits(ips, HitMap(hits[..i]))
    {
      var (ip, count) := hits[i];
      HitMapKeys(hits[..i]);
      UpsertHit(ips, HitMap(hits[..i]), ip, count);
      assert hits[..i + 1][..i] == hits[..i];
      r := r[ip := (if ip in r then r[ip] else 0) + count];
      i := i + 1;
    }
    assert hits[..i] == hits;
  }

  /** What Aggregate returns may be fed to a tick. */
  lemma AggregateFeedsTick(s: Sample, results: seq<Aggregation.ProbeResult>, previous: Option<Ip>, seen: set<Ip>)
    requires Aggregation.Counted(s, results, previous, seen)
    ensures HitsMatchProbes(s)
  {
    var all := Seen(s.probeIPs, |s.probeIPs|);
    forall ip ensures ip in s.ipHits.Keys <==> ip in all {
      if ip in s.ipHits.Keys {
        var j := Aggregation.OkFrom(results, ip);
        assert s.probeIPs[j] == Some(ip);
      }
      if ip in all {
        var j :| 0 <= j < |s.probeIPs| && s.probeIPs[j] == Some(ip);
        Aggregation.OkMember(results, j);
      }
    }
  }
}
