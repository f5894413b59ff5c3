/** The pool report: every statistic of a run, deduplicated by egress address. Case-insensitive
    comparison and the tolerant comparison of provider names are parameters. */
module PoolReport {
  import opened Common
  import opened Folding

  datatype Reputation = Reputation(
    category: string,
    country: string,
    isp: string,
    asn: string,
    riskScore: Option<int>,
    proxyCheckProxy: Option<bool>,
    greyNoiseClass: string,
    sfsAppears: Option<bool>,
    dnsblListed: Option<bool>,
    dnsblHits: seq<string>)

  datatype Observation = Observation(
    session: Id, ip: Ip, hitCount: int, firstSeen: int, lastSeen: int, reputation: Option<Reputation>)

  /** The params as decoded, empty when they do not decode. */
  datatype VariantSession = VariantSession(session: Id, params: map<string, string>, cellKey: string, targetCountry: string)

  datatype Text = Text(equalFold: (string, string) -> bool, ispMatches: (string, string) -> bool)

  const ZERO_TIME := 0

  // ----- One row per address -----

  /** The canonical buckets. */
  datatype Category = Mobile | Residential | Datacenter | Unknown

  function NormalizeCategory(value: string): Category {
    if value == "mobile" then Mobile else if value == "residential" then Residential
    else if value == "datacenter" then Datacenter else Unknown
  }

  function CategoryOf(r: Option<Reputation>): Category {
    if r.None? then Unknown else NormalizeCategory(r.value.category)
  }

  function Flagged(r: Option<Reputation>, text: Text): bool {
    r.Some? &&
    (r.value.proxyCheckProxy == Some(true)
     || (r.value.riskScore.Some? && r.value.riskScore.value >= 70)
     || text.equalFold(r.value.greyNoiseClass, "malicious")
     || r.value.sfsAppears == Some(true)
     || r.value.dnsblListed == Some(true))
  }

  /** The columns that come from the reputation, of which there may be none. */
  datatype Standing = Standing(category: Category, country: string, isp: string, asn: string, riskScore: Option<int>,
                               greyNoiseClass: string, dnsblListed: bool, dnsblHits: seq<string>)

  const NO_STANDING := Standing(Unknown, "", "", "", None, "", false, [])

  datatype Row = Row(ip: Ip, standing: Standing, hitCount: int, firstSeen: int, lastSeen: int)

  function StandingOf(reputation: Option<Reputation>): Standing {
    match reputation
    case None => NO_STANDING
    case Some(r) =>
      Standing(NormalizeCategory(r.category), r.country, r.isp, r.asn, r.riskScore, r.greyNoiseClass,
               r.dnsblListed == Some(true), r.dnsblHits)
  }

  datatype Accum = Accum(row: Row, variants: set<Id>, flagged: bool)

  function NewAccum(o: Observation, text: Text): Accum {
    Accum(Row(o.ip, StandingOf(o.reputation), o.hitCount, o.firstSeen, o.lastSeen), {o.session}, Flagged(o.reputation, text))
  }

  /** A zero time means unknown. */
  function Earlier(known: int, seen: int): int {
    if seen != ZERO_TIME && (known == ZERO_TIME || seen < known) then seen else known
  }

  function Later(known: int, seen: int): int {
    if seen > known then seen else known
  }

  function Merged(a: Accum, o: Observation): Accum {
    a.(row := a.row.(hitCount := a.row.hitCount + o.hitCount, firstSeen := Earlier(a.row.firstSeen, o.firstSeen),
                     lastSeen := Later(a.row.lastSeen, o.lastSeen)),
       variants := a.variants + {o.session})
  }

  function AddObservation(ips: map<Ip, Accum>, o: Observation, text: Text): map<Ip, Accum> {
    ips[o.ip := if o.ip in ips then Merged(ips[o.ip], o) else NewAccum(o, text)]
  }

  function Adder(text: Text): (map<Ip, Accum>, Observation) -> map<Ip, Accum> {
    (ips, o) => AddObservation(ips, o, text)
  }

  function IpsOf(observations: seq<Observation>, text: Text): map<Ip, Accum> {
    Fold(Adder(text), map[], observations)
  }

  /** Reputation belongs to the address, not to the observation. */
  predicate ReputationByIP(observations: seq<Observation>) {
    forall x, y | x in observations && y in observations && x.ip == y.ip :: x.reputation == y.reputation
  }

  lemma AddCommutes(ips: map<Ip, Accum>, x: Observation, y: Observation, text: Text)
    requires x.ip == y.ip ==> x.reputation == y.reputation
    ensures AddObservation(AddObservation(ips, x, text), y, text) == AddObservation(AddObservation(ips, y, text), x, text)
  {
    var xy, yx := AddObservation(AddObservation(ips, x, text), y, text), AddObservation(AddObservation(ips, y, text), x, text);
    if x.ip == y.ip {
      if x.ip in ips {
        assert Merged(Merged(ips[x.ip], x), y) == Merged(Merged(ips[x.ip], y), x);
      } else {
        assert Merged(NewAccum(x, text), y) == Merged(NewAccum(y, text), x);
      }
    }
    assert xy == yx;
  }

  lemma AdderCommutes(observations: seq<Observation>, text: Text)
    requires ReputationByIP(observations)
    ensures Commutes(Adder(text), observations)
  {
    forall ips, x, y | x in observations && y in observations
      ensures Adder(text)(Adder(text)(ips, x), y) == Adder(text)(Adder(text)(ips, y), x)
    {
      AddCommutes(ips, x, y, text);
    }
  }

  // ----- What a row shows of its reputation -----

  function Label(category: Category): string {
    match category
    case Mobile => "mobile"
    case Residential => "residential"
    case Datacenter => "datacenter"
    case Unknown => "unknown"
  }

  /** The canonical names are told apart, and every other text counts as unknown. */
  lemma CategoriesByName(r: Reputation)
    ensures forall category | category != Unknown :: CategoryOf(Some(r)) == category <==> r.category == Label(category)
    ensures CategoryOf(Some(r)) == Unknown <==> r.category !in {"mobile", "residential", "datacenter"}
    ensures CategoryOf(None) == Unknown
  {
    assert Label(Mobile)[0] != Label(Residential)[0] && Label(Residential)[0] != Label(Datacenter)[0]
        && Label(Mobile)[0] != Label(Datacenter)[0];
  }

  /** The sources that can speak against an address. */
  datatype Evidence = ProxyCheck | RiskScore | GreyNoise | StopForumSpam | BlockList

  const RISKY := 70

  predicate Speaks(r: Reputation, evidence: Evidence, text: Text) {
    match evidence
    case ProxyCheck => r.proxyCheckProxy.Some? && r.proxyCheckProxy.value
    case RiskScore => r.riskScore.Some? && RISKY <= r.riskScore.value
    case GreyNoise => text.equalFold(r.greyNoiseClass, "malicious")
    case StopForumSpam => r.sfsAppears.Some? && r.sfsAppears.value
    case BlockList => r.dnsblListed.Some? && r.dnsblListed.value
  }

  /** An address is flagged exactly if some source speaks against it: one is enough, and without a reputation
      there is none. */
  lemma FlaggedByEvidence(reputation: Option<Reputation>, text: Text)
    ensures Flagged(reputation, text) <==> exists evidence :: reputation.Some? && Speaks(reputation.value, evidence, text)
  {
    if reputation.Some? {
      var r := reputation.value;
      assert Speaks(r, ProxyCheck, text) <==> r.proxyCheckProxy == Some(true);
      assert Speaks(r, RiskScore, text) <==> r.riskScore.Some? && r.riskScore.value >= RISKY;
      assert Speaks(r, GreyNoise, text) <==> text.equalFold(r.greyNoiseClass, "malicious");
      assert Speaks(r, StopForumSpam, text) <==> r.sfsAppears == Some(true);
      assert Speaks(r, BlockList, text) <==> r.dnsblListed == Some(true);
    }
  }

  /** The row's columns are the reputation's, column by column, or empty without one. */
  predicate ShowsColumns(row: Row, reputation: Option<Reputation>) {
    var s := row.standing;
    match reputation
    case None => s.category == Unknown && s.country == s.isp == s.asn == s.greyNoiseClass == "" && s.riskScore == None
                 && !s.dnsblListed && s.dnsblHits == []
    case Some(r) =>
      && s.category == CategoryOf(reputation) && s.country == r.country && s.isp == r.isp && s.asn == r.asn
      && s.riskScore == r.riskScore && s.greyNoiseClass == r.greyNoiseClass && s.dnsblHits == r.dnsblHits
      && (s.dnsblListed <==> r.dnsblListed.Some? && r.dnsblListed.value)
  }

  lemma ShowsOneReputation(a: Accum, observations: seq<Observation>, ip: Ip, text: Text)
    requires Shows(a, observations, ip, text)
    ensures exists o :: o in observations && o.ip == ip && ShowsColumns(a.row, o.reputation)
                        && a.flagged == Flagged(o.reputation, text)
  {
    var o :| o in observations && o.ip == ip && a.row.standing == StandingOf(o.reputation) && a.flagged == Flagged(o.reputation, text);
    assert ShowsColumns(a.row, o.reputation);
  }

  // ----- The rows are a group-by -----

  function HitSum(observations: seq<Observation>, ip: Ip): int {
    if observations == [] then 0
    else
      var last := observations[|observations| - 1];
      HitSum(observations[..|observations| - 1], ip) + (if last.ip == ip then last.hitCount else 0)
  }

  /** MIN over the non-zero times, zero when there is none. */
  predicate IsFirstSeen(t: int, observations: seq<Observation>, ip: Ip) {
    && (forall o | o in observations && o.ip == ip && o.firstSeen != ZERO_TIME :: t != ZERO_TIME && t <= o.firstSeen)
    && (t != ZERO_TIME ==> exists o :: o in observations && o.ip == ip && o.firstSeen == t)
  }

  predicate IsLastSeen(t: int, observations: seq<Observation>, ip: Ip) {
    && (forall o | o in observations && o.ip == ip :: o.lastSeen <= t)
    && (exists o :: o in observations && o.ip == ip && o.lastSeen == t)
  }

  /** The row shows the reputation that came with some observation of the address. */
  predicate Shows(a: Accum, observations: seq<Observation>, ip: Ip, text: Text) {
    exists o :: o in observations && o.ip == ip && a.row.standing == StandingOf(o.reputation) && a.flagged == Flagged(o.reputation, text)
  }

  predicate Grouped(a: Accum, observations: seq<Observation>, ip: Ip, text: Text) {
    && a.row.ip == ip && Shows(a, observations, ip, text)
    && a.row.hitCount == HitSum(observations, ip)
    && IsFirstSeen(a.row.firstSeen, observations, ip)
    && IsLastSeen(a.row.lastSeen, observations, ip)
    && a.variants == set o | o in observations && o.ip == ip :: o.session
  }

  lemma NewGrouped(init: seq<Observation>, o: Observation, text: Text)
    requires forall x | x in init :: x.ip != o.ip
    ensures Grouped(NewAccum(o, text), init + [o], o.ip, text)
  {
    var all := init + [o];
    assert all[|init|] == o && o in all;
    assert all[..|init|] == init;
    NoHits(init, o.ip);
    forall x | x in all && x.ip == o.ip ensures x == o {}
    assert (set x | x in all && x.ip == o.ip :: x.session) == {o.session};
  }

  lemma {:induction false} NoHits(observations: seq<Observation>, ip: Ip)
    requires forall x | x in observations :: x.ip != ip
    ensures HitSum(observations, ip) == 0
  {
    if observations != [] {
      assert observations[|observations| - 1] in observations;
      NoHits(observations[..|observations| - 1], ip);
    }
  }

  lemma MergedGrouped(a: Accum, init: seq<Observation>, o: Observation, text: Text)
    requires Grouped(a, init, o.ip, text)
    ensures Grouped(Merged(a, o), init + [o], o.ip, text)
  {
    var all, b := init + [o], Merged(a, o);
    assert all[|init|] == o && o in all && all[..|init|] == init;
    assert forall x :: x in all <==> x in init || x == o;
    if b.row.firstSeen != ZERO_TIME && b.row.firstSeen == a.row.firstSeen {
      var x :| x in init && x.ip == o.ip && x.firstSeen == a.row.firstSeen;
      assert x in all;
    }
    if b.row.lastSeen == a.row.lastSeen {
      var x :| x in init && x.ip == o.ip && x.lastSeen == a.row.lastSeen;
      assert x in all;
    }
    assert b.variants == set x | x in all && x.ip == o.ip :: x.session;
  }

  lemma OtherGrouped(a: Accum, init: seq<Observation>, o: Observation, ip: Ip, text: Text)
    requires Grouped(a, init, ip, text) && o.ip != ip
    ensures Grouped(a, init + [o], ip, text)
  {
    var all := init + [o];
    assert all[..|init|] == init;
    assert forall x :: x in all <==> x in init || x == o;
    assert a.variants == set x | x in all && x.ip == ip :: x.session;
    if a.row.firstSeen != ZERO_TIME {
      var x :| x in init && x.ip == ip && x.firstSeen == a.row.firstSeen;
      assert x in all;
    }
    var y :| y in init && y.ip == ip && y.lastSeen == a.row.lastSeen;
    assert y in all;
  }

  lemma AddedGrouped(before: map<Ip, Accum>, init: seq<Observation>, o: Observation, ip: Ip, text: Text)
    requires before.Keys == set x | x in init :: x.ip
    requires ip in before ==> Grouped(before[ip], init, ip, text)
    requires ip in AddObservation(before, o, text)
    ensures Grouped(AddObservation(before, o, text)[ip], init + [o], ip, text)
  {
    if ip != o.ip {
      OtherGrouped(before[ip], init, o, ip, text);
    } else if ip in before {
      MergedGrouped(before[ip], init, o, text);
    } else {
      assert forall x | x in init :: x.ip in before.Keys;
      NewGrouped(init, o, text);
    }
  }

  /** There is a row for exactly the observed addresses, and it holds their sum of hits, earliest known
      and latest sighting, and the sessions that saw them. */
  lemma {:induction false} RowsGroupObservations(observations: seq<Observation>, text: Text)
    ensures IpsOf(observations, text).Keys == set o | o in observations :: o.ip
    ensures forall ip | ip in IpsOf(observations, text) :: Grouped(IpsOf(observations, text)[ip], observations, ip, text)
  {
    if observations != [] {
      var init, o := observations[..|observations| - 1], observations[|observations| - 1];
      assert observations == init + [o];
      RowsGroupObservations(init, text);
      var before := IpsOf(init, text);
      assert IpsOf(observations, text) == AddObservation(before, o, text);
      forall ip | ip in IpsOf(observations, text) ensures Grouped(IpsOf(observations, text)[ip], observations, ip, text) {
        AddedGrouped(before, init, o, ip, text);
      }
      assert forall x :: x in observations <==> x in init || x == o;
    }
  }
}
