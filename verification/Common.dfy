/** Vocabulary shared by every module: optional values, the integer widths the program uses, and
    sums over finite maps. */
module Common {

  datatype Option<+T> = None | Some(value: T)

  /** Session ids and addresses are 128-bit values compared bytewise, hence as big-endian numbers. */
  type Id = nat
  type Ip = nat

  const INT32_LIMIT := 0x8000_0000
  const UINT32_LIMIT := 0x1_0000_0000
  const INT64_MAX := 0x7FFF_FFFF_FFFF_FFFF

  /** The values of a 64-bit int. */
  type Int64 = x: int | -INT64_MAX - 1 <= x <= INT64_MAX

  /** The conversion int32(x). */
  function ToInt32(x: int): (r: int)
    ensures -INT32_LIMIT <= r < INT32_LIMIT
    ensures -INT32_LIMIT <= x < INT32_LIMIT ==> r == x
  {
    (x + INT32_LIMIT) % UINT32_LIMIT - INT32_LIMIT
  }

  /** The conversion uint32(x). */
  function ToUint32(x: int): (r: nat)
    ensures r < UINT32_LIMIT
    ensures 0 <= x < UINT32_LIMIT ==> r == x
  {
    x % UINT32_LIMIT
  }

  predicate Distinct<T(==)>(s: seq<T>) {
    forall i, j | 0 <= i < j < |s| :: s[i] != s[j]
  }

  /** The sum of a map's values. */
  ghost function Sum<K>(m: map<K, nat>): (r: nat)
    decreases |m|
  {
    if m == map[] then 0 else
      var k :| k in m;
      assert |m - {k}| < |m|;
      m[k] + Sum(m - {k})
  }

  /** Sum does not depend on which key is taken out first. */
  lemma {:induction false} SumRemove<K>(m: map<K, nat>, k: K)
    requires k in m
    ensures Sum(m) == m[k] + Sum(m - {k})
    decreases |m|
  {
    var first :| first in m && Sum(m) == m[first] + Sum(m - {first});
    if first != k {
      assert |m - {first}| < |m|;
      SumRemove(m - {first}, k);
      assert |m - {k}| < |m|;
      SumRemove(m - {k}, first);
      assert m - {first} - {k} == m - {k} - {first};
    }
  }

  lemma SumUpdate<K>(m: map<K, nat>, k: K, v: nat)
    ensures Sum(m[k := v]) == (if k in m then Sum(m) - m[k] else Sum(m)) + v
  {
    SumRemove(m[k := v], k);
    if k in m {
      SumRemove(m, k);
      assert m[k := v] - {k} == m - {k};
    } else {
      assert m[k := v] - {k} == m;
    }
  }
}
