/** What the honor report says, in terms of what was asked for and what was observed, however it is
    computed. */
module HonorMeaning {
  import opened Common
  import opened Folding
  import opened PoolReport
  import opened PoolStatistics
  import opened HonorReport

  // ----- One variant -----

  function ParamAt(params: map<string, string>, key: string): string {
    if key in params then params[key] else ""
  }

  /** The variant asks for this value: the manual target comes before the country parameter, and that before
      its short form. */
  predicate Requests(v: VariantSession, field: Field, value: string) {
    && value != ""
    && match field
       case Country =>
         || value == v.targetCountry
         || (v.targetCountry == "" && value == ParamAt(v.params, "country"))
         || (v.targetCountry == "" && ParamAt(v.params, "country") == "" && value == ParamAt(v.params, "cc"))
       case Provider => value == ParamAt(v.params, "isp")
  }

  predicate SameValue(field: Field, requested: string, observed: string, text: Text) {
    match field
    case Country => text.equalFold(observed, requested)
    case Provider => text.ispMatches(requested, observed)
  }

  ghost predicate Asks(v: VariantSession, field: Field) {
    exists r :: Requests(v, field, r)
  }

  /** A value was asked for, and the observations prove whether it was given. */
  ghost predicate Proven(v: VariantSession, observations: seq<Observation>, field: Field, text: Text, same: bool) {
    exists r, o :: Requests(v, field, r) && Dominates(observations, field, o) && SameValue(field, r, o, text) == same
  }

  function Wanted(v: VariantSession, field: Field): string {
    match field
    case Country => RequestedCountry(v)
    case Provider => RequestedProvider(v)
  }

  lemma WantedIsRequested(v: VariantSession, field: Field)
    ensures Wanted(v, field) != "" ==> Requests(v, field, Wanted(v, field))
    ensures forall r | Requests(v, field, r) :: r == Wanted(v, field)
  {
    assert FirstParam(v.params, ["cc"]) == ParamAt(v.params, "cc") by {
      assert ["cc"][1..] == [];
    }
    assert FirstParam(v.params, ["isp"]) == ParamAt(v.params, "isp") by {
      assert ["isp"][1..] == [];
    }
    assert ["country", "cc"][1..] == ["cc"];
  }

  /** The comparison of one field, and what it says. */
  ghost function Compared(v: VariantSession, observations: seq<Observation>, field: Field, text: Text): Comparison {
    match field
    case Country => Compare(RequestedCountry(v), DominantOf(WeightsOf(observations, Country)), (r, o) => text.equalFold(o, r))
    case Provider => Compare(RequestedProvider(v), DominantOf(WeightsOf(observations, Provider)), text.ispMatches)
  }

  lemma ComparisonMeans(v: VariantSession, observations: seq<Observation>, field: Field, text: Text)
    ensures Compared(v, observations, field, text) != NotRequested <==> Asks(v, field)
    ensures Compared(v, observations, field, text) == Agrees <==> Proven(v, observations, field, text, true)
    ensures Compared(v, observations, field, text) == Differs <==> Proven(v, observations, field, text, false)
  {
    WantedIsRequested(v, field);
    DominantDominates(observations, field);
    var r, o := Wanted(v, field), DominantOf(WeightsOf(observations, field));
    if r != "" && o != "" {
      assert Requests(v, field, r) && Dominates(observations, field, o);
    }
    NoneDominates(observations, field);
  }

  lemma NoneDominates(observations: seq<Observation>, field: Field)
    ensures !Dominates(observations, field, "")
  {
  }

  /** A variant is a mismatch exactly if something it asked for is proven to be different, and a match
      exactly if it asked for something and all it asked for is proven to be the same. */
  lemma HonorMeans(v: VariantSession, observations: seq<Observation>, text: Text)
    ensures HonorOf(v, observations, text) == HonorMismatch <==> exists field :: Proven(v, observations, field, text, false)
    ensures HonorOf(v, observations, text) == HonorMatch <==>
              && (exists field :: Asks(v, field))
              && (forall field | Asks(v, field) :: Proven(v, observations, field, text, true))
  {
    ComparisonMeans(v, observations, Country, text);
    ComparisonMeans(v, observations, Provider, text);
    var country, provider := Compared(v, observations, Country, text), Compared(v, observations, Provider, text);
    assert HonorOf(v, observations, text) == Verdict(country, provider);
  }

  // ----- Counts -----

  /** The variants, all or of one cell, with one of these outcomes. */
  ghost function Count(variants: seq<VariantSession>, observations: seq<Observation>, text: Text,
                       key: Option<string>, outcomes: set<Honor>): nat {
    if variants == [] then 0
    else
      var v := variants[|variants| - 1];
      Count(variants[..|variants| - 1], observations, text, key, outcomes)
      + (if (key.None? || v.cellKey == key.value) && HonorOf(v, OfSession(observations, v.session), text) in outcomes then 1 else 0)
  }

  const ALL: set<Honor> := {HonorMatch, HonorMismatch, HonorUnknown}
  const PROVEN: set<Honor> := {HonorMatch, HonorMismatch}

  ghost predicate Counted(cell: CellAccum, variants: seq<VariantSession>, observations: seq<Observation>, text: Text, key: string) {
    && cell.variantCount == Count(variants, observations, text, Some(key), ALL)
    && cell.sampled == Count(variants, observations, text, Some(key), PROVEN)
    && cell.honored == Count(variants, observations, text, Some(key), {HonorMatch})
  }

  lemma OneVariantCounted(before: CellAccum, v: VariantSession, t: Tally, variants: seq<VariantSession>,
                          observations: seq<Observation>, text: Text, key: string)
    requires variants != [] && v == variants[|variants| - 1]
    requires Counted(before, variants[..|variants| - 1], observations, text, key)
    ensures var outcome := HonorOf(v, OfSession(observations, v.session), text);
            Counted(if v.cellKey == key then CellWith(before, v, t, outcome) else before, variants, observations, text, key)
  {
  }

  /** Per cell and overall, honored counts the matches and sampled the proven outcomes. */
  lemma {:induction false} CellsCount(variants: seq<VariantSession>, observations: seq<Observation>, text: Text)
    ensures var c := CellsOf(variants, observations, text);
            && (forall key :: Counted(CellAt(c, key), variants, observations, text, key))
            && c.honored == Count(variants, observations, text, None, {HonorMatch})
            && c.sampled == Count(variants, observations, text, None, PROVEN)
  {
    if variants != [] {
      var init, v := variants[..|variants| - 1], variants[|variants| - 1];
      CellsCount(init, observations, text);
      var before, mine := CellsOf(init, observations, text), OfSession(observations, v.session);
      var outcome := HonorOf(v, mine, text);
      var c := AddVariant(before, v, TallyOf(CellAt(before, v.cellKey), mine), outcome);
      assert c == CellsOf(variants, observations, text);
      assert outcome in PROVEN <==> outcome != HonorUnknown;
      forall key ensures Counted(CellAt(c, key), variants, observations, text, key) {
        OneVariantCounted(CellAt(before, key), v, TallyOf(CellAt(before, v.cellKey), mine), variants, observations, text, key);
      }
    }
  }

  // ----- The target of a cell -----

  /** The first target a variant of the cell names, or none. */
  predicate IsTarget(target: string, variants: seq<VariantSession>, key: string) {
    if target == "" then forall k | 0 <= k < |variants| && variants[k].cellKey == key :: variants[k].targetCountry == ""
    else exists k | 0 <= k < |variants| :: FirstTarget(target, variants, key, k)
  }

  predicate FirstTarget(target: string, variants: seq<VariantSession>, key: string, k: nat) {
    && k < |variants| && variants[k].cellKey == key && variants[k].targetCountry == target
    && forall j | 0 <= j < k && variants[j].cellKey == key :: variants[j].targetCountry == ""
  }

  lemma TargetNext(before: string, init: seq<VariantSession>, v: VariantSession, key: string)
    requires IsTarget(before, init, key)
    ensures IsTarget(if before == "" && v.cellKey == key then v.targetCountry else before, init + [v], key)
  {
    var all := init + [v];
    assert all[|init|] == v;
    assert forall k | 0 <= k < |init| :: all[k] == init[k];
    if before != "" {
      var k :| 0 <= k < |init| && FirstTarget(before, init, key, k);
      assert FirstTarget(before, all, key, k);
    } else if v.cellKey == key && v.targetCountry != "" {
      assert FirstTarget(v.targetCountry, all, key, |init|);
    }
  }

  lemma AddedTarget(c: Cells, v: VariantSession, t: Tally, outcome: Honor, key: string)
    ensures var before := CellAt(c, key).targetCountry;
            CellAt(AddVariant(c, v, t, outcome), key).targetCountry
            == if before == "" && v.cellKey == key then v.targetCountry else before
  {
  }

  /** The cell shows the first target one of its variants names. */
  lemma {:induction false} CellsShowTargets(variants: seq<VariantSession>, observations: seq<Observation>, text: Text, key: string)
    ensures IsTarget(CellAt(CellsOf(variants, observations, text), key).targetCountry, variants, key)
  {
    if variants != [] {
      var init, v := variants[..|variants| - 1], variants[|variants| - 1];
      CellsShowTargets(init, observations, text, key);
      var before, mine := CellsOf(init, observations, text), OfSession(observations, v.session);
      AddedTarget(before, v, TallyOf(CellAt(before, v.cellKey), mine), HonorOf(v, mine, text), key);
      TargetNext(CellAt(before, key).targetCountry, init, v, key);
      assert variants == init + [v];
    }
  }

  // ----- The composition of a cell -----

  /** Some observation of the address puts it into the category. */
  ghost predicate InCategory(observations: seq<Observation>, ip: Ip, category: Category) {
    exists o :: o in observations && o.ip == ip && CategoryOf(o.reputation) == category
  }

  ghost function OfCategory(ips: set<Ip>, observations: seq<Observation>, category: Category): set<Ip> {
    set ip | ip in ips && InCategory(observations, ip, category)
  }

  /** The composition counts the addresses category by category. */
  ghost predicate Composes(t: Tally, observations: seq<Observation>) {
    forall category :: CountIn(t.composition, category) == |OfCategory(t.ips, observations, category)|
  }

  lemma AddressComposes(t: Tally, o: Observation, observations: seq<Observation>)
    requires Composes(t, observations) && o in observations && ReputationByIP(observations)
    ensures Composes(AddIP(t, o), observations)
  {
    var r := AddIP(t, o);
    if o.ip !in t.ips {
      forall category ensures CountIn(r.composition, category) == |OfCategory(r.ips, observations, category)| {
        assert CountIn(t.composition, category) == |OfCategory(t.ips, observations, category)|;
        ApplyCounts(t.composition, CategoryOf(o.reputation), category);
        assert InCategory(observations, o.ip, category) <==> category == CategoryOf(o.reputation);
        assert OfCategory(r.ips, observations, category)
            == OfCategory(t.ips, observations, category) + (if category == CategoryOf(o.reputation) then {o.ip} else {});
      }
    }
  }

  lemma {:induction false} TallyComposes(t: Tally, mine: seq<Observation>, observations: seq<Observation>)
    requires Composes(t, observations) && ReputationByIP(observations) && forall o | o in mine :: o in observations
    ensures Composes(Fold(IPTallier(), t, mine), observations)
  {
    if mine != [] {
      var init, last := mine[..|mine| - 1], mine[|mine| - 1];
      TallyComposes(t, init, observations);
      AddressComposes(Fold(IPTallier(), t, init), last, observations);
    }
  }

  function TallyAt(c: Cells, key: string): Tally {
    Tally(CellAt(c, key).ips, CellAt(c, key).composition)
  }

  /** If reputation belongs to the address, each cell's composition is that of its addresses. */
  lemma {:induction false} CellsCompose(variants: seq<VariantSession>, observations: seq<Observation>, text: Text, key: string)
    requires ReputationByIP(observations)
    ensures Composes(TallyAt(CellsOf(variants, observations, text), key), observations)
  {
    if variants == [] {
      NothingComposes(observations);
    } else {
      var init, v := variants[..|variants| - 1], variants[|variants| - 1];
      CellsCompose(init, observations, text, key);
      if v.cellKey == key {
        OfSessionExactly(observations, v.session);
        TallyComposes(TallyAt(CellsOf(init, observations, text), key), OfSession(observations, v.session), observations);
      }
    }
  }

  lemma NothingComposes(observations: seq<Observation>)
    ensures Composes(Tally({}, NOTHING), observations)
  {
    forall category ensures CountIn(NOTHING, category) == |OfCategory({}, observations, category)| {
      assert OfCategory({}, observations, category) == {};
    }
  }
}
