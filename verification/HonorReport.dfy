/** Whether variants got what they asked for: the dominant observed values, one outcome per variant, and
    the per-cell summaries. */
module HonorReport {
  import opened Common
  import opened Folding
  import opened PoolReport
  import opened PoolStatistics

  datatype Field = Country | Provider

  function Pick(field: Field, r: Reputation): string {
    match field
    case Country => r.country
    case Provider => r.isp
  }

  // ----- The dominant value -----

  type Weights = map<string, int>

  function Votes(o: Observation): int {
    if o.hitCount > 1 then o.hitCount else 1
  }

  function AddVote(weights: Weights, o: Observation, field: Field): Weights {
    if o.reputation.None? || Pick(field, o.reputation.value) == "" then weights
    else
      var value := Pick(field, o.reputation.value);
      weights[value := (if value in weights then weights[value] else 0) + Votes(o)]
  }

  function Voter(field: Field): (Weights, Observation) -> Weights {
    (weights, o) => AddVote(weights, o, field)
  }

  function WeightsOf(observations: seq<Observation>, field: Field): Weights {
    Fold(Voter(field), map[], observations)
  }

  lemma VoterCommutes(observations: seq<Observation>, field: Field)
    ensures Commutes(Voter(field), observations)
  {
    forall weights, x, y | x in observations && y in observations
      ensures Voter(field)(Voter(field)(weights, x), y) == Voter(field)(Voter(field)(weights, y), x)
    {
      assert AddVote(AddVote(weights, x, field), y, field) == AddVote(AddVote(weights, y, field), x, field);
    }
  }

  /** Strictly more votes than every other value. */
  predicate Leads(weights: Weights, value: string) {
    value in weights && forall w | w in weights && w != value :: weights[w] < weights[value]
  }

  predicate Plausible(weights: Weights) {
    "" !in weights && forall w | w in weights :: weights[w] >= 1
  }

  lemma {:induction false} WeightsPlausible(observations: seq<Observation>, field: Field)
    ensures Plausible(WeightsOf(observations, field))
  {
    if observations != [] {
      WeightsPlausible(observations[..|observations| - 1], field);
    }
  }

  /** The value with strictly most votes, or empty when there is none. */
  ghost function DominantOf(weights: Weights): string {
    if exists v :: Leads(weights, v) then (var v :| Leads(weights, v); v) else ""
  }

  lemma DominantUnique(weights: Weights, v: string)
    requires Leads(weights, v)
    ensures DominantOf(weights) == v
  {
    var d := DominantOf(weights);
    assert Leads(weights, d);
  }

  /** The greatest weight; the maps may be visited in any order. */
  method MaxWeight(weights: Weights) returns (maxWeight: int)
    requires Plausible(weights)
    ensures forall w | w in weights :: weights[w] <= maxWeight
    ensures weights != map[] ==> exists w :: w in weights && weights[w] == maxWeight
    ensures weights == map[] ==> maxWeight == 0
  {
    maxWeight := 0;
    var left := weights.Keys;
    while left != {}
      invariant left <= weights.Keys && maxWeight >= 0
      invariant forall w | w in weights.Keys - left :: weights[w] <= maxWeight
      invariant maxWeight > 0 ==> exists w :: w in weights && weights[w] == maxWeight
      decreases |left|
    {
      var w :| w in left;
      if weights[w] > maxWeight {
        maxWeight := weights[w];
      }
      left := left - {w};
    }
    if weights != map[] {
      var w :| w in weights;
    }
  }

  method Leader(weights: Weights, maxWeight: int) returns (best: string, count: nat)
    ensures count == 0 ==> forall w | w in weights :: weights[w] != maxWeight
    ensures count >= 1 ==> best in weights && weights[best] == maxWeight
    ensures count == 1 ==> forall w | w in weights && weights[w] == maxWeight :: w == best
    ensures count > 1 ==> exists v, w :: v in weights && w in weights && v != w && weights[v] == weights[w] == maxWeight
  {
    best, count := "", 0;
    var left := weights.Keys;
    while left != {}
      invariant left <= weights.Keys
      invariant count == 0 ==> forall w | w in weights.Keys - left :: weights[w] != maxWeight
      invariant count >= 1 ==> best in weights.Keys - left && weights[best] == maxWeight
      invariant count == 1 ==> forall w | w in weights.Keys - left && weights[w] == maxWeight :: w == best
      invariant count > 1 ==> exists v, w :: v in weights && w in weights && v != w && weights[v] == weights[w] == maxWeight
      decreases |left|
    {
      var value :| value in left;
      if weights[value] == maxWeight {
        assert count >= 1 ==> best != value;
        best, count := value, count + 1;
      }
      left := left - {value};
    }
  }

  /** The one observed value whose hits exceed those of every other, or empty when there is none. */
  method Dominant(observations: seq<Observation>, field: Field) returns (value: string)
    ensures value == DominantOf(WeightsOf(observations, field))
    ensures value != "" ==> Dominates(observations, field, value)
    ensures value == "" ==> forall v :: !Dominates(observations, field, v)
  {
    DominantDominates(observations, field);
    assert !Dominates(observations, field, "");
    var weights: Weights := map[];
    var i := 0;
    while i < |observations|
      invariant 0 <= i <= |observations| && weights == WeightsOf(observations[..i], field)
    {
      assert observations[..i + 1][..i] == observations[..i];
      weights := AddVote(weights, observations[i], field);
      i := i + 1;
    }
    assert observations[..i] == observations;
    WeightsPlausible(observations, field);
    var maxWeight := MaxWeight(weights);
    var best, count := Leader(weights, maxWeight);
    if count != 1 {
      NoLeader(weights, maxWeight);
      return "";
    }
    assert Leads(weights, best);
    DominantUnique(weights, best);
    value := best;
  }

  lemma NoLeader(weights: Weights, maxWeight: int)
    requires forall w | w in weights :: weights[w] <= maxWeight
    requires weights != map[] ==> exists w :: w in weights && weights[w] == maxWeight
    requires (forall w | w in weights :: weights[w] != maxWeight)
             || exists v, w :: v in weights && w in weights && v != w && weights[v] == weights[w] == maxWeight
    ensures DominantOf(weights) == ""
  {
  }

  // ----- What the weights count -----

  /** The observation tells this value for the field. */
  predicate Carries(o: Observation, field: Field, value: string) {
    && value != "" && o.reputation.Some?
    && match field
       case Country => o.reputation.value.country == value
       case Provider => o.reputation.value.isp == value
  }

  ghost predicate Observed(observations: seq<Observation>, field: Field, value: string) {
    exists o :: o in observations && Carries(o, field, value)
  }

  /** The hits of the observations that carry the value, each of which counts at least once. */
  function WeightFor(observations: seq<Observation>, field: Field, value: string): nat {
    if observations == [] then 0
    else
      var last := observations[|observations| - 1];
      WeightFor(observations[..|observations| - 1], field, value)
      + (if !Carries(last, field, value) then 0 else if last.hitCount >= 1 then last.hitCount else 1)
  }

  /** The weights are over exactly the non-empty values observed, and each is the sum of the hits. */
  lemma {:induction false} WeightsAreSums(observations: seq<Observation>, field: Field)
    ensures forall v :: v in WeightsOf(observations, field) <==> Observed(observations, field, v)
    ensures forall v | v in WeightsOf(observations, field) :: WeightsOf(observations, field)[v] == WeightFor(observations, field, v)
  {
    if observations != [] {
      var init, last := observations[..|observations| - 1], observations[|observations| - 1];
      WeightsAreSums(init, field);
      assert observations == init + [last];
      forall v ensures Observed(observations, field, v) <==> Observed(init, field, v) || Carries(last, field, v) {
        assert forall o :: o in observations <==> o in init || o == last;
      }
      forall v | !Observed(init, field, v) ensures WeightFor(init, field, v) == 0 {
        NoWeight(init, field, v);
      }
    }
  }

  lemma {:induction false} NoWeight(observations: seq<Observation>, field: Field, value: string)
    requires !Observed(observations, field, value)
    ensures WeightFor(observations, field, value) == 0
  {
    if observations != [] {
      var init, last := observations[..|observations| - 1], observations[|observations| - 1];
      assert last in observations;
      assert forall o | o in init :: o in observations;
      NoWeight(init, field, value);
    }
  }

  /** The value was observed and outweighs every other observed value. */
  ghost predicate Dominates(observations: seq<Observation>, field: Field, value: string) {
    && Observed(observations, field, value)
    && forall w | Observed(observations, field, w) && w != value ::
         WeightFor(observations, field, w) < WeightFor(observations, field, value)
  }

  lemma DominantDominates(observations: seq<Observation>, field: Field)
    ensures var d := DominantOf(WeightsOf(observations, field));
            && (d != "" ==> Dominates(observations, field, d))
            && (forall v | Dominates(observations, field, v) :: v == d)
  {
    var weights := WeightsOf(observations, field);
    WeightsAreSums(observations, field);
    forall v | Dominates(observations, field, v) ensures v == DominantOf(weights) {
      DominantUnique(weights, v);
    }
  }

  // ----- One outcome per variant -----

  datatype Honor = HonorUnknown | HonorMatch | HonorMismatch

  function FirstParam(params: map<string, string>, keys: seq<string>): string {
    if keys == [] then ""
    else if keys[0] in params && params[keys[0]] != "" then params[keys[0]]
    else FirstParam(params, keys[1..])
  }

  /** The manual target overrides a country parameter. */
  function RequestedCountry(v: VariantSession): string {
    if v.targetCountry != "" then v.targetCountry else FirstParam(v.params, ["country", "cc"])
  }

  function RequestedProvider(v: VariantSession): string {
    FirstParam(v.params, ["isp"])
  }

  /** A requested field against the observed one: no request, nothing observed, a match or a mismatch. */
  datatype Comparison = NotRequested | NotObserved | Agrees | Differs

  ghost function Compare(requested: string, observed: string, same: (string, string) -> bool): Comparison {
    if requested == "" then NotRequested else if observed == "" then NotObserved
    else if same(requested, observed) then Agrees else Differs
  }

  /** A proven mismatch wins; a match needs every requested field to agree. */
  ghost function Verdict(country: Comparison, provider: Comparison): Honor {
    if country == Differs || provider == Differs then HonorMismatch
    else if country == NotObserved || provider == NotObserved || (country == NotRequested && provider == NotRequested) then HonorUnknown
    else HonorMatch
  }

  ghost function HonorOf(v: VariantSession, observations: seq<Observation>, text: Text): Honor {
    Verdict(Compare(RequestedCountry(v), DominantOf(WeightsOf(observations, Country)), (r, o) => text.equalFold(o, r)),
            Compare(RequestedProvider(v), DominantOf(WeightsOf(observations, Provider)), text.ispMatches))
  }

  method VariantHonor(v: VariantSession, observations: seq<Observation>, text: Text) returns (outcome: Honor)
    ensures outcome == HonorOf(v, observations, text)
  {
    var country := FirstParam(v.params, ["country", "cc"]);
    if v.targetCountry != "" {
      country := v.targetCountry;
    }
    var isp := FirstParam(v.params, ["isp"]);
    if country == "" && isp == "" {
      return HonorUnknown;
    }
    var complete := true;
    if country != "" {
      var observed := Dominant(observations, Country);
      if observed == "" {
        complete := false;
      } else if !text.equalFold(observed, country) {
        return HonorMismatch;
      }
    }
    if isp != "" {
      var observed := Dominant(observations, Provider);
      if observed == "" {
        complete := false;
      } else if !text.ispMatches(isp, observed) {
        return HonorMismatch;
      }
    }
    if !complete {
      return HonorUnknown;
    }
    outcome := HonorMatch;
  }

  // ----- Cells -----

  datatype CellAccum = CellAccum(
    targetCountry: string, variantCount: nat, honored: nat, sampled: nat, ips: set<Ip>, composition: Composition)

  /** order lists the cell keys by first appearance. */
  datatype Cells = Cells(order: seq<string>, cells: map<string, CellAccum>, honored: nat, sampled: nat)

  /** The cell of a key so far. */
  function CellAt(c: Cells, key: string): CellAccum {
    if key in c.cells then c.cells[key] else CellAccum("", 0, 0, 0, {}, NOTHING)
  }

  datatype Tally = Tally(ips: set<Ip>, composition: Composition)

  function AddIP(t: Tally, o: Observation): Tally {
    if o.ip in t.ips then t else Tally(t.ips + {o.ip}, Apply(t.composition, CategoryOf(o.reputation)))
  }

  function IPTallier(): (Tally, Observation) -> Tally {
    (t, o) => AddIP(t, o)
  }

  lemma TallierCommutes(observations: seq<Observation>)
    requires ReputationByIP(observations)
    ensures Commutes(IPTallier(), observations)
  {
    forall t, x, y | x in observations && y in observations
      ensures IPTallier()(IPTallier()(t, x), y) == IPTallier()(IPTallier()(t, y), x)
    {
      assert AddIP(AddIP(t, x), y).ips == AddIP(AddIP(t, y), x).ips;
    }
  }

  /** One more variant in its cell; t holds the cell's addresses including the variant's. */
  function CellWith(cell: CellAccum, v: VariantSession, t: Tally, outcome: Honor): CellAccum {
    CellAccum(if cell.targetCountry == "" then v.targetCountry else cell.targetCountry, cell.variantCount + 1,
              cell.honored + (if outcome == HonorMatch then 1 else 0),
              cell.sampled + (if outcome == HonorUnknown then 0 else 1), t.ips, t.composition)
  }

  function AddVariant(c: Cells, v: VariantSession, t: Tally, outcome: Honor): Cells {
    var key := v.cellKey;
    Cells(if key in c.cells then c.order else c.order + [key],
          c.cells[key := CellWith(CellAt(c, key), v, t, outcome)],
          c.honored + (if outcome == HonorMatch then 1 else 0),
          c.sampled + (if outcome == HonorUnknown then 0 else 1))
  }

  function TallyOf(cell: CellAccum, observations: seq<Observation>): Tally {
    Fold(IPTallier(), Tally(cell.ips, cell.composition), observations)
  }

  function OfSession(observations: seq<Observation>, id: Id): seq<Observation> {
    if observations == [] then []
    else
      OfSession(observations[..|observations| - 1], id)
      + (if observations[|observations| - 1].session == id then [observations[|observations| - 1]] else [])
  }

  ghost function CellsOf(variants: seq<VariantSession>, observations: seq<Observation>, text: Text): Cells {
    if variants == [] then Cells([], map[], 0, 0)
    else
      var v := variants[|variants| - 1];
      AddSession(CellsOf(variants[..|variants| - 1], observations, text), v, OfSession(observations, v.session), text)
  }

  /** What one variant with its session's observations adds. */
  ghost function AddSession(c: Cells, v: VariantSession, mine: seq<Observation>, text: Text): Cells {
    AddVariant(c, v, TallyOf(CellAt(c, v.cellKey), mine), HonorOf(v, mine, text))
  }

  /** The observations grouped by session, as the first pass leaves them. */
  predicate GroupedBySession(sessionObs: map<Id, seq<Observation>>, observations: seq<Observation>) {
    && (forall id | id in sessionObs :: sessionObs[id] == OfSession(observations, id))
    && (forall o | o in observations :: o.session in sessionObs)
  }

  lemma {:induction false} NobodysObservations(observations: seq<Observation>, id: Id)
    requires forall o | o in observations :: o.session != id
    ensures OfSession(observations, id) == []
  {
    if observations != [] {
      assert observations[|observations| - 1] in observations;
      NobodysObservations(observations[..|observations| - 1], id);
    }
  }

  /** A session without observations is not in the map. */
  method Lookup(sessionObs: map<Id, seq<Observation>>, id: Id, ghost observations: seq<Observation>) returns (mine: seq<Observation>)
    requires GroupedBySession(sessionObs, observations)
    ensures mine == OfSession(observations, id)
  {
    mine := [];
    if id in sessionObs {
      mine := sessionObs[id];
    } else {
      NobodysObservations(observations, id);
    }
  }

  method TallyIPs(ips: set<Ip>, composition: Composition, observations: seq<Observation>) returns (t: Tally)
    ensures t == Fold(IPTallier(), Tally(ips, composition), observations)
  {
    t := Tally(ips, composition);
    var i := 0;
    while i < |observations|
      invariant 0 <= i <= |observations| && t == Fold(IPTallier(), Tally(ips, composition), observations[..i])
    {
      var o := observations[i];
      assert observations[..i + 1][..i] == observations[..i];
      if o.ip !in t.ips {
        t := Tally(t.ips + {o.ip}, Apply(t.composition, CategoryOf(o.reputation)));
      }
      i := i + 1;
    }
    assert observations[..i] == observations;
  }

  /** One turn of the loop over the variants. */
  method TallySession(c: Cells, v: VariantSession, sessionObs: map<Id, seq<Observation>>,
                      ghost observations: seq<Observation>, text: Text) returns (r: Cells)
    requires GroupedBySession(sessionObs, observations)
    ensures r == AddSession(c, v, OfSession(observations, v.session), text)
  {
    var mine := Lookup(sessionObs, v.session, observations);
    var outcome := VariantHonor(v, mine, text);
    r := TallyVariant(c, v, mine, outcome);
  }

  method TallyVariant(c: Cells, v: VariantSession, observations: seq<Observation>, outcome: Honor) returns (r: Cells)
    ensures r == AddVariant(c, v, TallyOf(CellAt(c, v.cellKey), observations), outcome)
  {
    var order, cell := c.order, CellAt(c, v.cellKey);
    if v.cellKey !in c.cells {
      order := order + [v.cellKey];
    }
    var honored, sampled := c.honored, c.sampled;
    var t := TallyIPs(cell.ips, cell.composition, observations);
    cell := cell.(variantCount := cell.variantCount + 1, ips := t.ips, composition := t.composition);
    if cell.targetCountry == "" {
      cell := cell.(targetCountry := v.targetCountry);
    }
    match outcome {
      case HonorMatch =>
        cell := cell.(sampled := cell.sampled + 1, honored := cell.honored + 1);
        sampled, honored := sampled + 1, honored + 1;
      case HonorMismatch =>
        cell := cell.(sampled := cell.sampled + 1);
        sampled := sampled + 1;
      case HonorUnknown =>
    }
    r := Cells(order, c.cells[v.cellKey := cell], honored, sampled);
  }

  /** The cells after the first i variants. */
  ghost predicate CellsSoFar(c: Cells, variants: seq<VariantSession>, i: nat, observations: seq<Observation>, text: Text) {
    i <= |variants| && c == CellsOf(variants[..i], observations, text)
  }

  lemma CellsNext(c: Cells, variants: seq<VariantSession>, i: nat, observations: seq<Observation>, text: Text)
    requires i < |variants| && CellsSoFar(c, variants, i, observations, text)
    ensures CellsSoFar(AddSession(c, variants[i], OfSession(observations, variants[i].session), text), variants, i + 1, observations, text)
  {
    assert variants[..i + 1][..i] == variants[..i];
  }

  method BuildHonorAndCells(variants: seq<VariantSession>, sessionObs: map<Id, seq<Observation>>,
                            ghost observations: seq<Observation>, text: Text) returns (c: Cells)
    requires GroupedBySession(sessionObs, observations)
    ensures c == CellsOf(variants, observations, text)
  {
    c := Cells([], map[], 0, 0);
    var i := 0;
    while i < |variants|
      invariant 0 <= i && CellsSoFar(c, variants, i, observations, text)
    {
      CellsNext(c, variants, i, observations, text);
      c := TallySession(c, variants[i], sessionObs, observations, text);
      i := i + 1;
    }
    assert variants[..i] == variants;
  }

  // ----- Sums over the cells -----

  function Honored(c: Cells, keys: seq<string>): nat
    requires forall k | k in keys :: k in c.cells
  {
    if keys == [] then 0 else Honored(c, keys[..|keys| - 1]) + c.cells[keys[|keys| - 1]].honored
  }

  function Sampled(c: Cells, keys: seq<string>): nat
    requires forall k | k in keys :: k in c.cells
  {
    if keys == [] then 0 else Sampled(c, keys[..|keys| - 1]) + c.cells[keys[|keys| - 1]].sampled
  }

  function Variants(c: Cells, keys: seq<string>): nat
    requires forall k | k in keys :: k in c.cells
  {
    if keys == [] then 0 else Variants(c, keys[..|keys| - 1]) + c.cells[keys[|keys| - 1]].variantCount
  }

  /** Every cell is listed once; its categories partition its addresses. */
  predicate CellsProper(c: Cells) {
    && Distinct(c.order) && c.cells.Keys == (set k | k in c.order)
    && forall k | k in c.cells :: TotalOf(c.cells[k].composition) == |c.cells[k].ips|
  }

  /** The cells' counts, cell by cell in the listed order, against the totals. */
  predicate SumsUp(c: Cells, variants: nat) {
    && CellsProper(c) && (forall k | k in c.order :: k in c.cells)
    && Honored(c, c.order) == c.honored && Sampled(c, c.order) == c.sampled && Variants(c, c.order) == variants
  }

  /** Replacing one listed cell changes the sums by the difference; an unlisted one changes nothing. */
  lemma {:induction false} ReplaceCell(c: Cells, key: string, cell: CellAccum, keys: seq<string>)
    requires key in c.cells && Distinct(keys) && forall k | k in keys :: k in c.cells
    ensures var r := c.(cells := c.cells[key := cell]); var was := c.cells[key];
            && Honored(r, keys) == Honored(c, keys) + (if key in keys then cell.honored - was.honored else 0)
            && Sampled(r, keys) == Sampled(c, keys) + (if key in keys then cell.sampled - was.sampled else 0)
            && Variants(r, keys) == Variants(c, keys) + (if key in keys then cell.variantCount - was.variantCount else 0)
  {
    if keys != [] {
      var init, last := keys[..|keys| - 1], keys[|keys| - 1];
      assert keys == init + [last];
      ReplaceCell(c, key, cell, init);
      assert key in keys <==> key in init || key == last;
      assert last !in init;
    }
  }

  lemma {:induction false} SameCells(c: Cells, d: Cells, keys: seq<string>)
    requires forall k | k in keys :: k in c.cells && k in d.cells && d.cells[k] == c.cells[k]
    ensures Honored(d, keys) == Honored(c, keys) && Sampled(d, keys) == Sampled(c, keys)
    ensures Variants(d, keys) == Variants(c, keys)
  {
    if keys != [] {
      assert keys[|keys| - 1] in keys;
      SameCells(c, d, keys[..|keys| - 1]);
    }
  }

  lemma OneMoreAddress(t: Tally, o: Observation)
    requires TotalOf(t.composition) == |t.ips|
    ensures TotalOf(AddIP(t, o).composition) == |AddIP(t, o).ips|
  {
  }

  lemma {:induction false} TallyTotals(t: Tally, observations: seq<Observation>)
    requires TotalOf(t.composition) == |t.ips|
    ensures var r := Fold(IPTallier(), t, observations); TotalOf(r.composition) == |r.ips|
  {
    if observations != [] {
      var init, last := observations[..|observations| - 1], observations[|observations| - 1];
      TallyTotals(t, init);
      OneMoreAddress(Fold(IPTallier(), t, init), last);
    }
  }

  lemma SumAppend(c: Cells, keys: seq<string>, key: string)
    requires key in c.cells && forall k | k in keys :: k in c.cells
    ensures forall k | k in keys + [key] :: k in c.cells
    ensures Honored(c, keys + [key]) == Honored(c, keys) + c.cells[key].honored
    ensures Sampled(c, keys + [key]) == Sampled(c, keys) + c.cells[key].sampled
    ensures Variants(c, keys + [key]) == Variants(c, keys) + c.cells[key].variantCount
  {
    assert (keys + [key])[..|keys|] == keys;
  }

  lemma NewCellProper(c: Cells, r: Cells, key: string, cell: CellAccum)
    requires CellsProper(c) && key !in c.cells && TotalOf(cell.composition) == |cell.ips|
    requires r.order == c.order + [key] && r.cells == c.cells[key := cell]
    ensures CellsProper(r) && forall k :: k in r.order <==> k in r.cells
  {
    assert forall k :: k in r.order <==> k in c.order || k == key;
    assert key !in c.order;
  }

  lemma NewCellSums(c: Cells, r: Cells, key: string, cell: CellAccum, n: nat)
    requires SumsUp(c, n) && key !in c.cells && TotalOf(cell.composition) == |cell.ips| && cell.variantCount == 1
    requires r == Cells(c.order + [key], c.cells[key := cell], c.honored + cell.honored, c.sampled + cell.sampled)
    ensures SumsUp(r, n + 1)
  {
    NewCellProper(c, r, key, cell);
    SameCells(c, r, c.order);
    SumAppend(r, c.order, key);
  }

  lemma OldCellSums(c: Cells, r: Cells, key: string, cell: CellAccum, n: nat)
    requires SumsUp(c, n) && key in c.cells && TotalOf(cell.composition) == |cell.ips|
    requires cell.variantCount == c.cells[key].variantCount + 1
    requires r.order == c.order && r.cells == c.cells[key := cell]
    requires r.honored + c.cells[key].honored == c.honored + cell.honored
    requires r.sampled + c.cells[key].sampled == c.sampled + cell.sampled
    ensures SumsUp(r, n + 1)
  {
    var middle := c.(cells := r.cells);
    ReplaceCell(c, key, cell, c.order);
    assert key in c.order;
    SameCells(middle, r, c.order);
  }

  /** Cell honor counts add up to the global ones, cell sizes to the number of variants, and every cell's
      composition to its number of addresses. */
  lemma {:induction false} CellsSumUp(variants: seq<VariantSession>, observations: seq<Observation>, text: Text)
    ensures SumsUp(CellsOf(variants, observations, text), |variants|)
  {
    if variants != [] {
      var init, v := variants[..|variants| - 1], variants[|variants| - 1];
      CellsSumUp(init, observations, text);
      var mine := OfSession(observations, v.session);
      ObservedVariantSums(CellsOf(init, observations, text), v, mine, HonorOf(v, mine, text), |init|);
    }
  }

  lemma ObservedVariantSums(c: Cells, v: VariantSession, mine: seq<Observation>, outcome: Honor, n: nat)
    requires SumsUp(c, n)
    ensures SumsUp(AddVariant(c, v, TallyOf(CellAt(c, v.cellKey), mine), outcome), n + 1)
  {
    var cell := CellAt(c, v.cellKey);
    CellAtProper(c, v.cellKey);
    TallyTotals(Tally(cell.ips, cell.composition), mine);
    OneVariantSums(c, v, TallyOf(cell, mine), outcome, n);
  }

  lemma CellAtProper(c: Cells, key: string)
    requires CellsProper(c)
    ensures TotalOf(CellAt(c, key).composition) == |CellAt(c, key).ips|
  {
  }

  /** r is c with the cell of one key replaced, or added, for one variant more. */
  predicate Replaces(c: Cells, r: Cells, key: string, before: CellAccum, cell: CellAccum) {
    && (if key in c.cells then before == c.cells[key]
        else before.variantCount == 0 && before.honored == 0 && before.sampled == 0)
    && r.order == (if key in c.cells then c.order else c.order + [key]) && r.cells == c.cells[key := cell]
    && r.honored + before.honored == c.honored + cell.honored
    && r.sampled + before.sampled == c.sampled + cell.sampled
    && cell.variantCount == before.variantCount + 1
  }

  lemma AddReplaces(c: Cells, v: VariantSession, t: Tally, outcome: Honor)
    ensures Replaces(c, AddVariant(c, v, t, outcome), v.cellKey, CellAt(c, v.cellKey), CellWith(CellAt(c, v.cellKey), v, t, outcome))
  {
  }

  lemma ReplacedSums(c: Cells, r: Cells, key: string, before: CellAccum, cell: CellAccum, n: nat)
    requires SumsUp(c, n) && Replaces(c, r, key, before, cell) && TotalOf(cell.composition) == |cell.ips|
    ensures SumsUp(r, n + 1)
  {
    if key in c.cells {
      OldCellSums(c, r, key, cell, n);
    } else {
      NewCellSums(c, r, key, cell, n);
    }
  }

  lemma OneVariantSums(c: Cells, v: VariantSession, t: Tally, outcome: Honor, n: nat)
    requires SumsUp(c, n) && TotalOf(t.composition) == |t.ips|
    ensures SumsUp(AddVariant(c, v, t, outcome), n + 1)
  {
    AddReplaces(c, v, t, outcome);
    ReplacedSums(c, AddVariant(c, v, t, outcome), v.cellKey, CellAt(c, v.cellKey), CellWith(CellAt(c, v.cellKey), v, t, outcome), n);
  }

  // ----- What the cells contain -----

  /** The addresses that the sessions of one cell's variants observed. */
  ghost function SeenIn(variants: seq<VariantSession>, observations: seq<Observation>, key: string): set<Ip> {
    set v, o | v in variants && o in observations && v.cellKey == key && o.session == v.session :: o.ip
  }

  lemma {:induction false} TallyAddresses(t: Tally, mine: seq<Observation>)
    ensures Fold(IPTallier(), t, mine).ips == t.ips + set o | o in mine :: o.ip
  {
    if mine != [] {
      var init, last := mine[..|mine| - 1], mine[|mine| - 1];
      assert mine == init + [last];
      FoldAppend(IPTallier(), t, init, last);
      TallyAddresses(t, init);
      assert (set o | o in mine :: o.ip) == (set o | o in init :: o.ip) + {last.ip};
    }
  }

  lemma {:induction false} OfSessionExactly(observations: seq<Observation>, id: Id)
    ensures forall o :: o in OfSession(observations, id) <==> o in observations && o.session == id
  {
    if observations != [] {
      OfSessionExactly(observations[..|observations| - 1], id);
      assert observations == observations[..|observations| - 1] + [observations[|observations| - 1]];
    }
  }

  lemma SeenGrows(init: seq<VariantSession>, v: VariantSession, observations: seq<Observation>, key: string)
    ensures SeenIn(init + [v], observations, key)
            == SeenIn(init, observations, key)
               + (if v.cellKey == key then set o | o in OfSession(observations, v.session) :: o.ip else {})
  {
    OfSessionExactly(observations, v.session);
    assert forall x :: x in init + [v] <==> x in init || x == v;
  }

  lemma OneVariantSees(init: seq<VariantSession>, v: VariantSession, observations: seq<Observation>, before: Cells, c: Cells,
                       mine: seq<Observation>, outcome: Honor, key: string)
    requires CellAt(before, key).ips == SeenIn(init, observations, key) && mine == OfSession(observations, v.session)
    requires c == AddVariant(before, v, TallyOf(CellAt(before, v.cellKey), mine), outcome)
    ensures CellAt(c, key).ips == SeenIn(init + [v], observations, key)
  {
    SeenGrows(init, v, observations, key);
    if key == v.cellKey {
      TallyAddresses(Tally(CellAt(before, key).ips, CellAt(before, key).composition), mine);
    }
  }

  predicate HasKey(variants: seq<VariantSession>, key: string) {
    exists v :: v in variants && v.cellKey == key
  }

  lemma OneVariantKeys(init: seq<VariantSession>, v: VariantSession, before: Cells, c: Cells, key: string)
    requires key in before.cells <==> HasKey(init, key)
    requires key in c.cells <==> key in before.cells || key == v.cellKey
    ensures key in c.cells <==> HasKey(init + [v], key)
  {
    assert v in init + [v];
    assert forall x :: x in init + [v] <==> x in init || x == v;
  }

  /** There is a cell for exactly the keys of the variants, and its addresses are exactly those that its
      variants' sessions observed. */
  lemma {:induction false} CellsSeeTheirSessions(variants: seq<VariantSession>, observations: seq<Observation>, text: Text)
    ensures var c := CellsOf(variants, observations, text);
            && (forall key :: key in c.cells <==> HasKey(variants, key))
            && (forall key :: CellAt(c, key).ips == SeenIn(variants, observations, key))
  {
    if variants != [] {
      var init, v := variants[..|variants| - 1], variants[|variants| - 1];
      assert variants == init + [v];
      CellsSeeTheirSessions(init, observations, text);
      var before, mine := CellsOf(init, observations, text), OfSession(observations, v.session);
      var c := AddVariant(before, v, TallyOf(CellAt(before, v.cellKey), mine), HonorOf(v, mine, text));
      assert c == CellsOf(variants, observations, text);
      forall key ensures CellAt(c, key).ips == SeenIn(variants, observations, key) {
        OneVariantSees(init, v, observations, before, c, mine, HonorOf(v, mine, text), key);
      }
      forall key ensures key in c.cells <==> HasKey(variants, key) {
        OneVariantKeys(init, v, before, c, key);
      }
    }
  }

  // ----- The order of the observations does not matter -----

  lemma {:induction false} OfSessionContents(observations: seq<Observation>, id: Id, o: Observation)
    ensures multiset(OfSession(observations, id))[o] == if o.session == id then multiset(observations)[o] else 0
  {
    if observations != [] {
      var init, last := observations[..|observations| - 1], observations[|observations| - 1];
      OfSessionContents(init, id, o);
      assert observations == init + [last];
    }
  }

  lemma SameOfSession(a: seq<Observation>, b: seq<Observation>, id: Id)
    requires multiset(a) == multiset(b)
    ensures multiset(OfSession(a, id)) == multiset(OfSession(b, id))
  {
    forall o ensures multiset(OfSession(a, id))[o] == multiset(OfSession(b, id))[o] {
      OfSessionContents(a, id, o);
      OfSessionContents(b, id, o);
    }
  }

  lemma {:induction false} OfSessionMembers(observations: seq<Observation>, id: Id)
    ensures forall o | o in OfSession(observations, id) :: o in observations
  {
    if observations != [] {
      OfSessionMembers(observations[..|observations| - 1], id);
    }
  }

  lemma HonorAnyOrder(v: VariantSession, a: seq<Observation>, b: seq<Observation>, text: Text)
    requires multiset(a) == multiset(b)
    ensures HonorOf(v, a, text) == HonorOf(v, b, text)
  {
    VoterCommutes(a, Country);
    VoterCommutes(a, Provider);
    AnyOrder(Voter(Country), map[], a, b);
    AnyOrder(Voter(Provider), map[], a, b);
  }

  lemma TallyAnyOrder(cell: CellAccum, a: seq<Observation>, b: seq<Observation>)
    requires multiset(a) == multiset(b) && ReputationByIP(a)
    ensures TallyOf(cell, a) == TallyOf(cell, b)
  {
    TallierCommutes(a);
    AnyOrder(IPTallier(), Tally(cell.ips, cell.composition), a, b);
  }

  lemma {:induction false} CellsAnyOrder(variants: seq<VariantSession>, a: seq<Observation>, b: seq<Observation>, text: Text)
    requires multiset(a) == multiset(b) && ReputationByIP(a)
    ensures CellsOf(variants, a, text) == CellsOf(variants, b, text)
  {
    if variants != [] {
      var init, v := variants[..|variants| - 1], variants[|variants| - 1];
      CellsAnyOrder(init, a, b, text);
      var x, y, c := OfSession(a, v.session), OfSession(b, v.session), CellsOf(init, a, text);
      SameOfSession(a, b, v.session);
      OfSessionMembers(a, v.session);
      HonorAnyOrder(v, x, y, text);
      TallyAnyOrder(CellAt(c, v.cellKey), x, y);
    }
  }
}
