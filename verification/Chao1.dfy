/** The Chao1 estimate of a pool's size from how many variants saw each address. */
module Chao1 {

  datatype Estimate = Estimate(observed: nat, estimate: nat, lowerBound: bool)

  function Occurrences(frequencies: seq<nat>, f: nat): nat {
    if frequencies == [] then 0
    else Occurrences(frequencies[..|frequencies| - 1], f) + (if frequencies[|frequencies| - 1] == f then 1 else 0)
  }

  /** observed + f1^2 / (2 f2), rounded down, where f1 and f2 count the addresses seen once and twice;
      without an address seen twice the estimate is the observed count, a lower bound. */
  predicate Estimates(e: Estimate, frequencies: seq<nat>) {
    var f1, f2 := Occurrences(frequencies, 1), Occurrences(frequencies, 2);
    && e.observed == |frequencies| && (e.lowerBound <==> f2 == 0)
    && e.estimate == e.observed + (if f2 == 0 then 0 else f1 * f1 / (2 * f2))
  }

  method EstimatePool(frequencies: seq<nat>) returns (r: Estimate)
    ensures Estimates(r, frequencies)
  {
    var f1, f2, i := 0, 0, 0;
    while i < |frequencies|
      invariant 0 <= i <= |frequencies|
      invariant f1 == Occurrences(frequencies[..i], 1) && f2 == Occurrences(frequencies[..i], 2)
    {
      assert frequencies[..i + 1][..i] == frequencies[..i];
      if frequencies[i] == 1 {
        f1 := f1 + 1;
      } else if frequencies[i] == 2 {
        f2 := f2 + 1;
      }
      i := i + 1;
    }
    assert frequencies[..i] == frequencies;
    if |frequencies| == 0 || f2 == 0 {
      return Estimate(|frequencies|, |frequencies|, true);
    }
    r := Estimate(|frequencies|, |frequencies| + (f1 * f1) / (2 * f2), false);
  }

  /** The estimate is the greatest whole number not above the formula, and never below the observed count. */
  lemma EstimateBounds(e: Estimate, frequencies: seq<nat>)
    requires Estimates(e, frequencies)
    ensures e.estimate >= e.observed == |frequencies|
    ensures !e.lowerBound ==>
              var f1, f2, extra := Occurrences(frequencies, 1), Occurrences(frequencies, 2), e.estimate - e.observed;
              extra * (2 * f2) <= f1 * f1 < (extra + 1) * (2 * f2)
  {
    if !e.lowerBound {
      Quotient(Occurrences(frequencies, 1) * Occurrences(frequencies, 1), 2 * Occurrences(frequencies, 2));
    }
  }

  lemma Quotient(a: nat, b: nat)
    requires b > 0
    ensures (a / b) * b <= a < (a / b + 1) * b
  {
  }

  /** The estimate does not depend on the order of the frequencies. */
  lemma {:induction false} OccurrencesByContents(frequencies: seq<nat>, f: nat)
    ensures Occurrences(frequencies, f) == multiset(frequencies)[f]
  {
    if frequencies != [] {
      OccurrencesByContents(frequencies[..|frequencies| - 1], f);
      assert frequencies == frequencies[..|frequencies| - 1] + [frequencies[|frequencies| - 1]];
    }
  }
}
