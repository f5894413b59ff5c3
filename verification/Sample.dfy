/** The aggregate of one tick's probes, as the worker uses it. */
module Samples {
  import opened Common

  const MAX_UINT8 := 255

  datatype Sample = Sample(
    probesAttempted: nat,
    probesOK: nat,
    primaryIP: Option<Ip>,
    distinctIPs: nat,
    ipChanged: bool,
    newIPs: nat,
    rttMin: int,
    rttMed: int,
    rttMax: int,
    egressCountry: string,
    probeIPs: seq<Option<Ip>>,
    probeRTTs: seq<int>,
    probeOK: seq<bool>,
    ipHits: map<Ip, nat>,
    error: string)

  /** The counters of a sample agree with the multiset of addresses they summarise. */
  ghost predicate Tallied(s: Sample, seen: set<Ip>) {
    && s.probesAttempted <= MAX_UINT8
    && |s.probeIPs| == |s.probeRTTs| == |s.probeOK| == s.probesAttempted
    && (forall ip | ip in s.ipHits :: s.ipHits[ip] > 0)
    && s.probesOK == Sum<Ip>(s.ipHits)
    && s.distinctIPs == |s.ipHits|
    && s.newIPs == |s.ipHits.Keys - seen|
  }
}
