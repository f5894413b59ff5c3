/** Folding the ordered probe results of one tick into a sample. */
module Aggregation {
  import opened Common
  import opened Samples
  import opened Sorting
  import opened ProbeErrors

  /** The round-trip time is a time.Duration: 64 bits. */
  datatype ProbeResult = ProbeResult(ip: Option<Ip>, err: Option<string>, rtt: Int64, country: string)

  const NEGATIVE_RTT := "probe returned negative RTT"
  const INVALID_IP := "probe returned invalid IP"

  function ClampUInt8(x: nat): nat {
    if x > MAX_UINT8 then MAX_UINT8 else x
  }

  // ----- Specification -----

  predicate Usable(r: ProbeResult) {
    r.err.None? && r.ip.Some? && r.rtt >= 0
  }

  /** The addresses of the usable probes, in probe order. */
  function OkIPs(results: seq<ProbeResult>): seq<Ip> {
    if results == [] then []
    else
      var last := results[|results| - 1];
      OkIPs(results[..|results| - 1]) + (if Usable(last) then [last.ip.value] else [])
  }

  function OkRTTs(results: seq<ProbeResult>): (r: seq<int>)
    ensures |r| == |OkIPs(results)| <= |results|
    ensures forall i | 0 <= i < |r| :: 0 <= r[i] <= INT64_MAX
  {
    if results == [] then []
    else
      var last := results[|results| - 1];
      OkRTTs(results[..|results| - 1]) + (if Usable(last) then [last.rtt] else [])
  }

  function Complaint(r: ProbeResult): string {
    if r.err.Some? then r.err.value else if r.ip.None? then INVALID_IP else NEGATIVE_RTT
  }

  function Complaints(results: seq<ProbeResult>): seq<string> {
    if results == [] then []
    else
      var last := results[|results| - 1];
      Complaints(results[..|results| - 1]) + (if Usable(last) then [] else [Complaint(last)])
  }

  function Hits(results: seq<ProbeResult>, ip: Ip): nat {
    multiset(OkIPs(results))[ip]
  }

  /** The probe whose address wins: no address has more hits, and every earlier one has fewer. */
  predicate Wins(results: seq<ProbeResult>, k: nat) {
    && k < |results| && Usable(results[k])
    && (forall j | 0 <= j < |results| && Usable(results[j]) ::
          Hits(results, results[j].ip.value) <= Hits(results, results[k].ip.value))
    && (forall j | 0 <= j < k && Usable(results[j]) ::
          Hits(results, results[j].ip.value) < Hits(results, results[k].ip.value))
  }

  /** One slot per probe, in probe order; slots of unusable probes stay empty. */
  predicate ProbesRecorded(s: Sample, results: seq<ProbeResult>) {
    && s.probesAttempted == |results| == |s.probeIPs| == |s.probeRTTs| == |s.probeOK|
    && forall i | 0 <= i < |results| ::
         && s.probeOK[i] == Usable(results[i])
         && s.probeIPs[i] == (if Usable(results[i]) then results[i].ip else None)
         && s.probeRTTs[i] == (if Usable(results[i]) then results[i].rtt else 0)
  }

  predicate AddressesCounted(s: Sample, ips: seq<Ip>, seen: set<Ip>) {
    s.probesOK == |ips| && Counts(s.ipHits, ips) && s.distinctIPs == |s.ipHits| && s.newIPs == |s.ipHits.Keys - seen|
  }

  ghost predicate PrimaryChosen(s: Sample, results: seq<ProbeResult>, previous: Option<Ip>) {
    && (s.primaryIP.None? <==> OkIPs(results) == [])
    && (s.primaryIP.Some? ==>
          exists k: nat :: Wins(results, k) && s.primaryIP == results[k].ip && s.egressCountry == results[k].country)
    && s.ipChanged == (previous.Some? && s.primaryIP.Some? && previous != s.primaryIP)
  }

  /** Extremes and lower median of the sorted times. */
  predicate Timed(low: int, middle: int, high: int, sorted: seq<int>) {
    var n := |sorted|;
    && n > 0 && low == sorted[0] && high == sorted[n - 1]
    && middle == if n % 2 == 1 then sorted[n / 2] else (sorted[n / 2 - 1] + sorted[n / 2]) / 2
  }

  /** Times if a probe was usable, the text of the complaints otherwise. */
  ghost predicate TimesOrError(s: Sample, rtts: seq<int>, complaints: seq<string>, toValid: string -> string, valid: string -> bool) {
    if rtts == [] then s.rttMin == s.rttMed == s.rttMax == 0 && IsErrorText(complaints, s.error, toValid, valid)
    else Timed(s.rttMin, s.rttMed, s.rttMax, Sort(rtts)) && s.error == ""
  }

  /** What the loops over the probes and the map determine. */
  ghost predicate Counted(s: Sample, results: seq<ProbeResult>, previous: Option<Ip>, seen: set<Ip>) {
    ProbesRecorded(s, results) && AddressesCounted(s, OkIPs(results), seen) && PrimaryChosen(s, results, previous)
  }

  /** The sample the results call for, field by field. */
  ghost predicate Summarises(s: Sample, results: seq<ProbeResult>, previous: Option<Ip>, seen: set<Ip>,
                             toValid: string -> string, valid: string -> bool) {
    && Counted(s, results, previous, seen)
    && TimesOrError(s, OkRTTs(results), Complaints(results), toValid, valid)
  }

  // ----- The folds -----

  predicate Counts(hits: map<Ip, nat>, ips: seq<Ip>) {
    hits.Keys == (set ip | ip in ips) && forall ip | ip in hits :: hits[ip] == multiset(ips)[ip]
  }

  /** The first usable probe of its address. */
  predicate FirstAt(results: seq<ProbeResult>, k: nat) {
    && k < |results| && Usable(results[k])
    && forall j | 0 <= j < k && Usable(results[j]) :: results[j].ip != results[k].ip
  }

  /** For every address among the first n probes, the country its first usable probe reported. */
  predicate FirstCountries(countries: map<Ip, string>, results: seq<ProbeResult>, n: nat)
    requires n <= |results|
  {
    && countries.Keys == (set ip | ip in OkIPs(results[..n]))
    && forall k {:trigger FirstAt(results, k)} | 0 <= k < n && FirstAt(results, k) ::
         results[k].ip.value in countries && countries[results[k].ip.value] == results[k].country
  }

  lemma OkOneMore(results: seq<ProbeResult>, i: nat)
    requires i < |results|
    ensures OkIPs(results[..i + 1]) == OkIPs(results[..i]) + (if Usable(results[i]) then [results[i].ip.value] else [])
    ensures OkRTTs(results[..i + 1]) == OkRTTs(results[..i]) + (if Usable(results[i]) then [results[i].rtt] else [])
    ensures Complaints(results[..i + 1]) == Complaints(results[..i]) + (if Usable(results[i]) then [] else [Complaint(results[i])])
  {
    assert results[..i + 1][..i] == results[..i];
  }

  lemma OkMember(results: seq<ProbeResult>, j: nat)
    requires j < |results| && Usable(results[j])
    ensures results[j].ip.value in OkIPs(results)
  {
    if j < |results| - 1 {
      OkMember(results[..|results| - 1], j);
    }
  }

  lemma OkFrom(results: seq<ProbeResult>, ip: Ip) returns (j: nat)
    requires ip in OkIPs(results)
    ensures j < |results| && Usable(results[j]) && results[j].ip.value == ip
  {
    var n := |results| - 1;
    if ip in OkIPs(results[..n]) {
      j := OkFrom(results[..n], ip);
    } else {
      j := n;
    }
  }

  lemma OneMoreHit(hits: map<Ip, nat>, ips: seq<Ip>, ip: Ip)
    requires Counts(hits, ips)
    ensures Counts(hits[ip := (if ip in hits then hits[ip] else 0) + 1], ips + [ip])
    ensures Sum<Ip>(hits[ip := (if ip in hits then hits[ip] else 0) + 1]) == Sum<Ip>(hits) + 1
    ensures |hits[ip := (if ip in hits then hits[ip] else 0) + 1]| <= |hits| + 1
  {
    SumUpdate<Ip>(hits, ip, (if ip in hits then hits[ip] else 0) + 1);
    assert forall x :: x in ips + [ip] <==> x in ips || x == ip;
  }

  lemma OneMoreCountry(countries: map<Ip, string>, results: seq<ProbeResult>, i: nat)
    requires i < |results| && Usable(results[i]) && FirstCountries(countries, results, i)
    ensures var ip := results[i].ip.value;
            FirstCountries(if ip in countries then countries else countries[ip := results[i].country], results, i + 1)
  {
    OkOneMore(results, i);
    var ip := results[i].ip.value;
    if ip in countries {
      var j := OkFrom(results[..i], ip);
      assert Usable(results[j]) && results[j].ip == results[i].ip;
    } else {
      forall k | 0 <= k < i && FirstAt(results, k) ensures results[k].ip.value != ip {
        OkMember(results[..i], k);
      }
    }
  }

  lemma SkippedCountry(countries: map<Ip, string>, results: seq<ProbeResult>, i: nat)
    requires i < |results| && !Usable(results[i]) && FirstCountries(countries, results, i)
    ensures FirstCountries(countries, results, i + 1)
  {
    OkOneMore(results, i);
  }

  datatype Folded = Folded(hits: map<Ip, nat>, countries: map<Ip, string>, rtts: seq<Int64>, errorsInOrder: seq<string>)

  /** One probe more. */
  function Step(f: Folded, r: ProbeResult): Folded {
    if !Usable(r) then f.(errorsInOrder := f.errorsInOrder + [Complaint(r)])
    else
      var ip := r.ip.value;
      Folded(f.hits[ip := (if ip in f.hits then f.hits[ip] else 0) + 1],
             if ip in f.countries then f.countries else f.countries[ip := r.country],
             f.rtts + [r.rtt], f.errorsInOrder)
  }

  function FoldOf(results: seq<ProbeResult>): Folded {
    if results == [] then Folded(map[], map[], [], []) else Step(FoldOf(results[..|results| - 1]), results[|results| - 1])
  }

  lemma FoldOneMore(results: seq<ProbeResult>, i: nat)
    requires i < |results|
    ensures FoldOf(results[..i + 1]) == Step(FoldOf(results[..i]), results[i])
  {
    assert results[..i + 1][..i] == results[..i];
  }

  lemma {:induction false} FoldLists(results: seq<ProbeResult>)
    ensures FoldOf(results).rtts == OkRTTs(results) && FoldOf(results).errorsInOrder == Complaints(results)
  {
    if results != [] {
      FoldLists(results[..|results| - 1]);
    }
  }

  ghost predicate Tallies(hits: map<Ip, nat>, ips: seq<Ip>) {
    Counts(hits, ips) && Sum<Ip>(hits) == |ips| && |hits| <= |ips|
  }

  lemma StepTallies(f: Folded, ips: seq<Ip>, r: ProbeResult)
    requires Tallies(f.hits, ips)
    ensures Tallies(Step(f, r).hits, ips + (if Usable(r) then [r.ip.value] else []))
  {
    if Usable(r) {
      OneMoreHit(f.hits, ips, r.ip.value);
    } else {
      assert ips + [] == ips;
    }
  }

  lemma {:induction false} FoldCounts(results: seq<ProbeResult>)
    ensures Tallies(FoldOf(results).hits, OkIPs(results))
  {
    if results != [] {
      var init, last := results[..|results| - 1], results[|results| - 1];
      FoldCounts(init);
      StepTallies(FoldOf(init), OkIPs(init), last);
    }
  }

  lemma {:induction false} FoldCountries(results: seq<ProbeResult>, n: nat)
    requires n <= |results|
    ensures FirstCountries(FoldOf(results[..n]).countries, results, n)
  {
    if n > 0 {
      FoldCountries(results, n - 1);
      FoldOneMore(results, n - 1);
      if Usable(results[n - 1]) {
        OneMoreCountry(FoldOf(results[..n - 1]).countries, results, n - 1);
      } else {
        SkippedCountry(FoldOf(results[..n - 1]).countries, results, n - 1);
      }
    }
  }

  method Tally(results: seq<ProbeResult>)
      returns (probeIPs: seq<Option<Ip>>, probeRTTs: seq<int>, probeOK: seq<bool>, hits: map<Ip, nat>,
               countries: map<Ip, string>, rtts: seq<Int64>, errorsInOrder: seq<string>)
    ensures |probeIPs| == |probeRTTs| == |probeOK| == |results|
    ensures forall i | 0 <= i < |results| ::
              && probeOK[i] == Usable(results[i])
              && probeIPs[i] == (if Usable(results[i]) then results[i].ip else None)
              && probeRTTs[i] == (if Usable(results[i]) then results[i].rtt else 0)
    ensures Folded(hits, countries, rtts, errorsInOrder) == FoldOf(results)
  {
    probeIPs := seq(|results|, _ => None);
    probeRTTs := seq(|results|, _ => 0);
    probeOK := seq(|results|, _ => false);
    hits, countries, rtts, errorsInOrder := map[], map[], [], [];
    var index := 0;
    while index < |results|
      invariant 0 <= index <= |results| == |probeIPs| == |probeRTTs| == |probeOK|
      invariant forall i | index <= i < |results| :: !probeOK[i] && probeIPs[i] == None && probeRTTs[i] == 0
      invariant forall i | 0 <= i < index ::
                  && probeOK[i] == Usable(results[i])
                  && probeIPs[i] == (if Usable(results[i]) then results[i].ip else None)
                  && probeRTTs[i] == (if Usable(results[i]) then results[i].rtt else 0)
      invariant Folded(hits, countries, rtts, errorsInOrder) == FoldOf(results[..index])
    {
      var result := results[index];
      FoldOneMore(results, index);
      if result.err.None? && result.ip.Some? && result.rtt < 0 {
        errorsInOrder := errorsInOrder + [NEGATIVE_RTT];
      } else if result.err.Some? || result.ip.None? {
        errorsInOrder := errorsInOrder + [if result.err.Some? then result.err.value else INVALID_IP];
      } else {
        var ip := result.ip.value;
        probeOK, probeIPs, probeRTTs := probeOK[index := true], probeIPs[index := result.ip], probeRTTs[index := result.rtt];
        hits := hits[ip := (if ip in hits then hits[ip] else 0) + 1];
        if ip !in countries {
          countries := countries[ip := result.country];
        }
        rtts := rtts + [result.rtt];
      }
      index := index + 1;
    }
    assert results[..index] == results;
  }

  /** The range over the map visits its keys in any order. */
  method CountNew(hits: map<Ip, nat>, seen: set<Ip>) returns (newIPs: nat)
    requires |hits| <= MAX_UINT8
    ensures newIPs == |hits.Keys - seen|
  {
    newIPs := 0;
    var left, visited: set<Ip> := hits.Keys, {};
    while left != {}
      invariant left + visited == hits.Keys && left !! visited
      invariant newIPs == |visited - seen| <= |visited|
      decreases |left|
    {
      var ip :| ip in left;
      NewNext(visited, ip, seen, hits.Keys);
      if ip !in seen {
        newIPs := ClampUInt8(newIPs + 1);
      }
      left, visited := left - {ip}, visited + {ip};
    }
    assert visited == hits.Keys;
  }

  lemma NewNext(visited: set<Ip>, ip: Ip, seen: set<Ip>, all: set<Ip>)
    requires ip !in visited && ip in all && visited <= all
    ensures |visited| < |visited + {ip}| <= |all|
    ensures |(visited + {ip}) - seen| == |visited - seen| + (if ip in seen then 0 else 1)
  {
    Subset(visited + {ip}, all);
    if ip in seen {
      assert (visited + {ip}) - seen == visited - seen;
    } else {
      assert (visited + {ip}) - seen == (visited - seen) + {ip};
    }
  }

  lemma Subset<T>(a: set<T>, b: set<T>)
    requires a <= b
    ensures |a| <= |b|
  {
    assert b == a + (b - a);
  }

  /** The leader among the probes seen so far. */
  predicate Leads(results: seq<ProbeResult>, upto: nat, primary: Option<Ip>, best: nat, leader: nat)
    requires upto <= |results|
  {
    && (primary.None? ==> best == 0 && forall j | 0 <= j < upto :: !Usable(results[j]))
    && (primary.Some? ==>
          && leader < upto && Usable(results[leader]) && results[leader].ip == primary && best == Hits(results, primary.value)
          && (forall j | 0 <= j < upto && Usable(results[j]) :: Hits(results, results[j].ip.value) <= best)
          && (forall j | 0 <= j < leader && Usable(results[j]) :: Hits(results, results[j].ip.value) < best))
  }

  lemma LeadsOn(results: seq<ProbeResult>, upto: nat, primary: Option<Ip>, best: nat, leader: nat)
    requires upto < |results| && Leads(results, upto, primary, best, leader)
    requires Usable(results[upto]) ==> Hits(results, results[upto].ip.value) <= best && 0 < best
    ensures Leads(results, upto + 1, primary, best, leader)
  {
  }

  lemma LeadsAnew(results: seq<ProbeResult>, upto: nat, primary: Option<Ip>, best: nat, leader: nat)
    requires upto < |results| && Leads(results, upto, primary, best, leader)
    requires Usable(results[upto]) && best < Hits(results, results[upto].ip.value)
    ensures Leads(results, upto + 1, results[upto].ip, Hits(results, results[upto].ip.value), upto)
  {
  }

  method PickPrimary(results: seq<ProbeResult>, probeIPs: seq<Option<Ip>>, probeOK: seq<bool>, hits: map<Ip, nat>)
      returns (primary: Option<Ip>, ghost leader: nat)
    requires |probeIPs| == |probeOK| == |results| && Counts(hits, OkIPs(results))
    requires forall i | 0 <= i < |results| ::
               probeOK[i] == Usable(results[i]) && probeIPs[i] == (if Usable(results[i]) then results[i].ip else None)
    ensures primary.None? <==> OkIPs(results) == []
    ensures primary.Some? ==> Wins(results, leader) && results[leader].ip == primary
  {
    primary, leader := None, 0;
    var bestHits := 0;
    var index := 0;
    while index < |probeOK|
      invariant 0 <= index <= |probeOK|
      invariant Leads(results, index, primary, bestHits, leader)
    {
      if probeOK[index] {
        var ip := probeIPs[index].value;
        OkMember(results, index);
        assert hits[ip] == Hits(results, ip) > 0;
        if hits[ip] > bestHits {
          LeadsAnew(results, index, primary, bestHits, leader);
          primary, bestHits, leader := Some(ip), hits[ip], index;
        } else {
          LeadsOn(results, index, primary, bestHits, leader);
        }
      } else {
        LeadsOn(results, index, primary, bestHits, leader);
      }
      index := index + 1;
    }
    if primary.None? && OkIPs(results) != [] {
      var j := OkFrom(results, OkIPs(results)[0]);
    }
    if primary.Some? {
      OkMember(results, leader);
    }
  }

  lemma WinnerIsFirst(results: seq<ProbeResult>, k: nat)
    requires Wins(results, k)
    ensures FirstAt(results, k)
  {
  }

  lemma MedianWithin(sorted: seq<int>)
    requires Sorted(sorted) && sorted != []
    ensures forall i | 0 <= i < |sorted| :: sorted[0] <= sorted[i] <= sorted[|sorted| - 1]
  {
  }

  /** The slice of times is sorted; no step of the median overflows. */
  method Times(rtts: seq<Int64>) returns (low: Int64, middle: Int64, high: Int64)
    requires rtts != [] && forall i | 0 <= i < |rtts| :: rtts[i] >= 0
    ensures Timed(low, middle, high, Sort(rtts))
    ensures low <= middle <= high
  {
    var values: seq<int> := Sort(rtts);
    SortIsSorted(rtts);
    SameElements(values, rtts);
    forall i | 0 <= i < |values| ensures values[i] in rtts {
      assert values[i] in values;
    }
    var sorted: seq<Int64> := values;
    MedianWithin(sorted);
    low, high := sorted[0], sorted[|sorted| - 1];
    var m := |sorted| / 2;
    if |sorted| % 2 == 0 {
      var gap: Int64 := sorted[m] - sorted[m - 1];
      middle := sorted[m - 1] + gap / 2;
    } else {
      middle := sorted[m];
    }
  }

  function FirstProbes(results: seq<ProbeResult>): seq<ProbeResult> {
    if |results| > MAX_UINT8 then results[..MAX_UINT8] else results
  }

  lemma CountryOfWinner(countries: map<Ip, string>, results: seq<ProbeResult>, leader: nat)
    requires FirstCountries(countries, results, |results|) && Wins(results, leader)
    ensures results[leader].ip.value in countries && countries[results[leader].ip.value] == results[leader].country
  {
    WinnerIsFirst(results, leader);
  }

  lemma WinnerChosen(s: Sample, results: seq<ProbeResult>, previous: Option<Ip>, leader: nat)
    requires s.primaryIP.None? <==> OkIPs(results) == []
    requires s.primaryIP.Some? ==>
               Wins(results, leader) && s.primaryIP == results[leader].ip && s.egressCountry == results[leader].country
    requires s.ipChanged == (previous.Some? && s.primaryIP.Some? && previous != s.primaryIP)
    ensures PrimaryChosen(s, results, previous)
  {
  }

  lemma HitsTallied(s: Sample, results: seq<ProbeResult>, seen: set<Ip>)
    requires ProbesRecorded(s, results) && AddressesCounted(s, OkIPs(results), seen) && |results| <= MAX_UINT8
    requires Tallies(s.ipHits, OkIPs(results))
    ensures Tallied(s, seen)
  {
    CountsPositive(s.ipHits, OkIPs(results));
  }

  method Primary(results: seq<ProbeResult>, probeIPs: seq<Option<Ip>>, probeOK: seq<bool>, hits: map<Ip, nat>, countries: map<Ip, string>)
      returns (primary: Option<Ip>, country: string, ghost leader: nat)
    requires |probeIPs| == |probeOK| == |results| && Counts(hits, OkIPs(results))
    requires FirstCountries(countries, results, |results|)
    requires forall i | 0 <= i < |results| ::
               probeOK[i] == Usable(results[i]) && probeIPs[i] == (if Usable(results[i]) then results[i].ip else None)
    ensures primary.None? <==> OkIPs(results) == []
    ensures primary.Some? ==> Wins(results, leader) && primary == results[leader].ip && country == results[leader].country
  {
    primary, leader := PickPrimary(results, probeIPs, probeOK, hits);
    country := "";
    if primary.Some? {
      CountryOfWinner(countries, results, leader);
      country := countries[primary.value];
    }
  }

  /** Everything but times and error text. */
  method Count(results: seq<ProbeResult>, previous: Option<Ip>, seen: set<Ip>)
      returns (s: Sample, rtts: seq<Int64>, errorsInOrder: seq<string>)
    requires |results| <= MAX_UINT8
    ensures Counted(s, results, previous, seen) && Tallied(s, seen)
    ensures rtts == OkRTTs(results) && errorsInOrder == Complaints(results)
    ensures s.rttMin == s.rttMed == s.rttMax == 0 && s.error == ""
  {
    var probeIPs, probeRTTs, probeOK, hits, countries;
    probeIPs, probeRTTs, probeOK, hits, countries, rtts, errorsInOrder := Tally(results);
    FoldLists(results);
    FoldCounts(results);
    FoldCountries(results, |results|);
    assert results[..|results|] == results;
    var newIPs := CountNew(hits, seen);
    var primary, country, leader := Primary(results, probeIPs, probeOK, hits, countries);
    var changed := previous.Some? && primary.Some? && previous != primary;
    s := Sample(ClampUInt8(|results|), ClampUInt8(|rtts|), primary, ClampUInt8(|hits|), changed, newIPs, 0, 0, 0, country,
                probeIPs, probeRTTs, probeOK, hits, "");
    WinnerChosen(s, results, previous, leader);
    HitsTallied(s, results, seen);
  }

  /** The sample of one tick. toValid and valid are the two UTF-8 primitives. */
  method Aggregate(results: seq<ProbeResult>, previous: Option<Ip>, seen: set<Ip>,
                   toValid: string -> string, valid: string -> bool) returns (s: Sample)
    requires valid("")
    ensures Summarises(s, FirstProbes(results), previous, seen, toValid, valid)
    ensures Tallied(s, seen)
  {
    var used := FirstProbes(results);
    var counted, rtts, errorsInOrder := Count(used, previous, seen);
    if rtts == [] {
      var text := JoinProbeErrors(errorsInOrder, toValid, valid);
      s := counted.(error := text);
    } else {
      var low, middle, high := Times(rtts);
      s := counted.(rttMin := low, rttMed := middle, rttMax := high);
    }
    CountedStays(counted, s, used, previous, seen);
  }

  lemma CountedStays(s: Sample, s': Sample, results: seq<ProbeResult>, previous: Option<Ip>, seen: set<Ip>)
    requires Counted(s, results, previous, seen) && Tallied(s, seen)
    requires s' == s.(rttMin := s'.rttMin, rttMed := s'.rttMed, rttMax := s'.rttMax, error := s'.error)
    ensures Counted(s', results, previous, seen) && Tallied(s', seen)
  {
  }

  lemma CountsPositive(hits: map<Ip, nat>, ips: seq<Ip>)
    requires Counts(hits, ips)
    ensures forall ip | ip in hits :: hits[ip] > 0
  {
    forall ip | ip in hits ensures hits[ip] > 0 {
      assert ip in multiset(ips);
    }
  }

  /** The primary address does not depend on how it is found: there is one winner. */
  lemma OneWinner(results: seq<ProbeResult>, a: nat, b: nat)
    requires Wins(results, a) && Wins(results, b)
    ensures a == b
  {
  }

  lemma DistinctAtMost(hits: map<Ip, nat>, ips: seq<Ip>)
    requires Counts(hits, ips)
    ensures |hits| <= |ips|
  {
    SetOfSeq(ips, hits.Keys);
  }

  lemma {:induction false} SetOfSeq(ips: seq<Ip>, distinct: set<Ip>)
    requires distinct == set ip | ip in ips
    ensures |distinct| <= |ips|
  {
    if ips != [] {
      var init := ips[..|ips| - 1];
      var fewer := set ip | ip in init;
      SetOfSeq(init, fewer);
      assert distinct == fewer + {ips[|ips| - 1]};
    }
  }

  lemma TimesOrdered(low: int, middle: int, high: int, rtts: seq<int>)
    requires Timed(low, middle, high, Sort(rtts))
    ensures low <= middle <= high
  {
    SortIsSorted(rtts);
    MedianWithin(Sort(rtts));
  }

  /** No clamp ever changes a count, and the counts are nested. */
  lemma CountsNested(s: Sample, results: seq<ProbeResult>, previous: Option<Ip>, seen: set<Ip>,
                     toValid: string -> string, valid: string -> bool)
    requires |results| <= MAX_UINT8 && Summarises(s, results, previous, seen, toValid, valid)
    ensures s.newIPs <= s.distinctIPs <= s.probesOK <= s.probesAttempted <= MAX_UINT8
    ensures s.rttMin <= s.rttMed <= s.rttMax
  {
    DistinctAtMost(s.ipHits, OkIPs(results));
    Subset(s.ipHits.Keys - seen, s.ipHits.Keys);
    assert |OkIPs(results)| == |OkRTTs(results)|;
    if OkRTTs(results) != [] {
      TimesOrdered(s.rttMin, s.rttMed, s.rttMax, OkRTTs(results));
    }
  }
}
