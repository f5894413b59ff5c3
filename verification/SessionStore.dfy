/** The control rows of a session and the guarded updates the store runs on them. Each function is
    one statement or one transaction: it has its full effect or none. */
module SessionStore {
  import opened Common

  datatype Status = Running | Stopped | Finished

  /** One row of sampling_sessions with its session_ips rows (ips maps an address to its hit count,
      and disappears with the row: the foreign key cascades). */
  datatype Row = Row(
    status: Status,
    samplesTaken: int,
    sequenceOffset: int,
    maxSamples: Option<int>,
    maxDuration: Option<int>,
    startedAt: Option<int>,
    probesOK: int,
    distinctIPs: int,
    ips: map<Ip, nat>)

  type Table = map<Id, Row>

  datatype StoreResult = Done | NotRunning | NotFound | AlreadyRunning | Overflow

  /** UPDATE ... SET status = 'stopped' WHERE id AND status = 'running'. */
  function Stop(rows: Table, id: Id): (Table, StoreResult) {
    if id in rows && rows[id].status == Running
    then (rows[id := rows[id].(status := Stopped)], Done)
    else (rows, NotRunning)
  }

  function Finish(rows: Table, id: Id): (Table, StoreResult) {
    if id in rows && rows[id].status == Running
    then (rows[id := rows[id].(status := Finished)], Done)
    else (rows, NotRunning)
  }

  /** Folds the finished life into the offset. The integer columns are 32 bits wide: a sum that
      does not fit fails the statement. */
  function Reenable(rows: Table, id: Id, at: int): (Table, StoreResult) {
    if id !in rows then (rows, NotFound)
    else
      var row := rows[id];
      if row.status == Running then (rows, AlreadyRunning)
      else if !(-INT32_LIMIT <= row.sequenceOffset + row.samplesTaken < INT32_LIMIT) then (rows, Overflow)
      else
        (rows[id := row.(status := Running, sequenceOffset := row.sequenceOffset + row.samplesTaken,
                         samplesTaken := 0, probesOK := 0, startedAt := Some(at))], Done)
  }

  /** INSERT ... ON CONFLICT DO UPDATE SET hit_count = hit_count + EXCLUDED.hit_count, for one tick. */
  function UpsertHits(ips: map<Ip, nat>, hits: map<Ip, nat>): map<Ip, nat> {
    map ip | ip in ips.Keys + hits.Keys ::
      (if ip in ips then ips[ip] else 0) + (if ip in hits then hits[ip] else 0)
  }

  datatype Snapshot = Snapshot(samplesTaken: int, probesOK: int, distinctIPs: int)

  /** The tick transaction. The snapshot UPDATE is not guarded by status and does not notice a
      missing row; an address insert for a missing row breaks the foreign key and rolls back. */
  function SaveTick(rows: Table, id: Id, snapshot: Snapshot, hits: map<Ip, nat>): Option<Table> {
    if id in rows then
      var row := rows[id];
      Some(rows[id := row.(samplesTaken := ToInt32(snapshot.samplesTaken), probesOK := snapshot.probesOK,
                           distinctIPs := ToInt32(snapshot.distinctIPs), ips := UpsertHits(row.ips, hits))])
    else if hits == map[] then Some(rows)
    else None
  }

  lemma UpsertOne(ips: map<Ip, nat>, hits: map<Ip, nat>, ip: Ip)
    requires ip in hits
    ensures var before := UpsertHits(ips, hits - {ip});
            && UpsertHits(ips, hits) == before[ip := (if ip in before then before[ip] else 0) + hits[ip]]
  {
  }

  lemma UpsertOneSum(ips: map<Ip, nat>, hits: map<Ip, nat>, ip: Ip)
    requires ip in hits
    ensures Sum(UpsertHits(ips, hits)) == Sum(UpsertHits(ips, hits - {ip})) + hits[ip]
  {
    UpsertOne(ips, hits, ip);
    var before := UpsertHits(ips, hits - {ip});
    var total := (if ip in before then before[ip] else 0) + hits[ip];
    SumUpdate<Ip>(before, ip, total);
    assert UpsertHits(ips, hits) == before[ip := total];
  }

  /** Hit counts add up: the tick's hits are neither lost nor counted twice. */
  lemma {:induction false} UpsertHitsSum(ips: map<Ip, nat>, hits: map<Ip, nat>)
    ensures Sum(UpsertHits(ips, hits)) == Sum(ips) + Sum(hits)
    decreases |hits|
  {
    if hits == map[] {
      assert UpsertHits(ips, hits) == ips;
    } else {
      var ip :| ip in hits;
      assert |hits - {ip}| < |hits|;
      UpsertHitsSum(ips, hits - {ip});
      SumRemove<Ip>(hits, ip);
      UpsertOneSum(ips, hits, ip);
    }
  }
}
