/** How DeleteSessions orders the locks it is about to take: sort a copy, then drop repeats in place,
    reading from the same storage it writes to. */
module OrderedLocks {
  import opened Common
  import opened Sorting

  /** Each element that differs from the one before it. */
  function Deduped(s: seq<int>): seq<int> {
    if s == [] then []
    else if |s| == 1 || s[|s| - 1] != s[|s| - 2] then Deduped(s[..|s| - 1]) + [s[|s| - 1]]
    else Deduped(s[..|s| - 1])
  }

  lemma {:induction false} DistinctOfSorted(s: seq<int>)
    requires Sorted(s)
    ensures forall i, j | 0 <= i < j < |Deduped(s)| :: Deduped(s)[i] < Deduped(s)[j]
    ensures forall x :: x in Deduped(s) <==> x in s
    ensures s != [] ==> Deduped(s) != [] && Deduped(s)[|Deduped(s)| - 1] == s[|s| - 1]
  {
    if s != [] {
      var init := s[..|s| - 1];
      DistinctOfSorted(init);
      assert s == init + [s[|s| - 1]];
    }
  }

  /** The result shares its storage with the input: a slot is written before the slots behind it are
      read, and the comparison looks at a slot that may have been overwritten. */
  method DedupeInPlace(ordered: array<int>) returns (k: nat)
    modifies ordered
    ensures k <= ordered.Length && ordered[..k] == Deduped(old(ordered[..]))
  {
    ghost var was := ordered[..];
    k := 0;
    var i := 0;
    while i < ordered.Length
      invariant 0 <= k <= i <= ordered.Length
      invariant ordered[i..] == was[i..]
      invariant 0 < i ==> ordered[i - 1] == was[i - 1]
      invariant ordered[..k] == Deduped(was[..i])
    {
      var id := ordered[i];
      assert id == ordered[i..][0] == was[i];
      assert was[..i + 1][..i] == was[..i];
      if i == 0 || id != ordered[i - 1] {
        ordered[k] := id;
        k := k + 1;
      }
      i := i + 1;
      assert ordered[i..] == was[i - 1..][1..];
    }
    assert was[..i] == was;
  }

  /** The lock order of a batch deletion: strictly increasing, over exactly the ids asked for. */
  method LockSequence(ids: seq<Id>) returns (ordered: seq<Id>)
    ensures Increasing(ordered)
    ensures forall id :: id in ordered <==> id in ids
  {
    var sorted := Sort(ids);
    SortIsSorted(ids);
    SameElements(sorted, ids);
    var storage := new int[|sorted|](i requires 0 <= i < |sorted| => sorted[i]);
    assert storage[..] == sorted;
    var k := DedupeInPlace(storage);
    DistinctOfSorted(sorted);
    var distinct := storage[..k];
    assert forall i | 0 <= i < |distinct| :: distinct[i] in ids;
    ordered := distinct;
  }
}
