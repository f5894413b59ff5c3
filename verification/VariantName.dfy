/** The generated name of a variant: the run name with the parameters in key order. The order in which
    a map yields its keys does not show. */
module VariantNames {
  import opened Common

  /** Bytewise string order. */
  predicate Before(a: string, b: string) {
    if b == "" then false
    else if a == "" then true
    else a[0] < b[0] || (a[0] == b[0] && Before(a[1..], b[1..]))
  }

  lemma {:induction false} BeforeTotal(a: string, b: string)
    requires a != b
    ensures Before(a, b) || Before(b, a)
  {
    if a != "" && b != "" && a[0] == b[0] {
      assert a == [a[0]] + a[1..] && b == [b[0]] + b[1..];
      BeforeTotal(a[1..], b[1..]);
    }
  }

  lemma {:induction false} BeforeTransitive(a: string, b: string, c: string)
    requires Before(a, b) && Before(b, c)
    ensures Before(a, c)
  {
    if a != "" && a[0] == b[0] == c[0] {
      BeforeTransitive(a[1..], b[1..], c[1..]);
    }
  }

  lemma {:induction false} BeforeIrreflexive(a: string)
    ensures !Before(a, a)
  {
    if a != "" {
      BeforeIrreflexive(a[1..]);
    }
  }

  predicate Ascending(keys: seq<string>) {
    forall i, j | 0 <= i < j < |keys| :: Before(keys[i], keys[j])
  }

  /** sort.Strings on a slice without repeats. */
  function InsertKey(key: string, keys: seq<string>): seq<string> {
    if keys == [] || Before(key, keys[0]) then [key] + keys else [keys[0]] + InsertKey(key, keys[1..])
  }

  function SortKeys(keys: seq<string>): seq<string> {
    if keys == [] then [] else InsertKey(keys[0], SortKeys(keys[1..]))
  }

  lemma {:induction false} InsertKeyAscends(key: string, keys: seq<string>)
    requires Ascending(keys) && key !in keys
    ensures Ascending(InsertKey(key, keys)) && forall x :: x in InsertKey(key, keys) <==> x in keys || x == key
  {
    if keys == [] {
    } else if Before(key, keys[0]) {
      forall j | 0 < j < |keys| ensures Before(key, keys[j]) {
        BeforeTransitive(key, keys[0], keys[j]);
      }
    } else {
      BeforeTotal(key, keys[0]);
      InsertKeyAscends(key, keys[1..]);
      var rest := InsertKey(key, keys[1..]);
      forall j | 0 <= j < |rest| ensures Before(keys[0], rest[j]) {
        assert rest[j] in rest;
      }
      assert keys == [keys[0]] + keys[1..];
    }
  }

  lemma {:induction false} SortKeysAscends(keys: seq<string>)
    requires Distinct(keys)
    ensures Ascending(SortKeys(keys)) && forall x :: x in SortKeys(keys) <==> x in keys
  {
    if keys != [] {
      SortKeysAscends(keys[1..]);
      InsertKeyAscends(keys[0], SortKeys(keys[1..]));
      assert keys == [keys[0]] + keys[1..];
    }
  }

  /** A set of keys has one ascending order. */
  lemma {:induction false} AscendingUnique(a: seq<string>, b: seq<string>)
    requires Ascending(a) && Ascending(b) && forall x :: x in a <==> x in b
    ensures a == b
  {
    assert a != [] ==> a[0] in b;
    assert b != [] ==> b[0] in a;
    if a != [] {
      SameFirst(a, b);
      assert a == [a[0]] + a[1..] && b == [b[0]] + b[1..];
      BeforeIrreflexive(a[0]);
      forall x ensures x in a[1..] <==> x in b[1..] {
        assert x in a[1..] <==> x in a && x != a[0];
        assert x in b[1..] <==> x in b && x != b[0];
      }
      AscendingUnique(a[1..], b[1..]);
    }
  }

  lemma SameFirst(a: seq<string>, b: seq<string>)
    requires a != [] && b != [] && Ascending(a) && Ascending(b) && a[0] in b && b[0] in a
    ensures a[0] == b[0]
  {
    if a[0] != b[0] {
      BeforeTransitive(a[0], b[0], a[0]);
      BeforeIrreflexive(a[0]);
    }
  }

  function Parts(keys: seq<string>, params: map<string, string>): string
    requires forall k | k in keys :: k in params
  {
    if keys == [] then ""
    else if |keys| == 1 then keys[0] + "=" + params[keys[0]]
    else Parts(keys[..|keys| - 1], params) + "," + keys[|keys| - 1] + "=" + params[keys[|keys| - 1]]
  }

  /** The keys in ascending order: there is exactly one such sequence. */
  ghost predicate KeyOrder(keys: seq<string>, params: map<string, string>) {
    Ascending(keys) && forall x :: x in keys <==> x in params
  }

  /** Some order in which the map may yield its keys. */
  ghost function SomeKeys(keys: set<string>): (r: seq<string>)
    ensures Distinct(r) && forall x :: x in r <==> x in keys
  {
    if keys == {} then [] else var k :| k in keys; SomeKeys(keys - {k}) + [k]
  }

  ghost function OrderedKeys(params: map<string, string>): (keys: seq<string>)
    ensures KeyOrder(keys, params)
  {
    SortKeysAscends(SomeKeys(params.Keys));
    SortKeys(SomeKeys(params.Keys))
  }

  /** The name the run gives to the variant. */
  ghost function VariantName(runName: string, params: map<string, string>): string {
    if params == map[] then runName else runName + " (" + Parts(OrderedKeys(params), params) + ")"
  }

  /** The range over the map: every key once, in any order. */
  method CollectKeys(params: map<string, string>) returns (keys: seq<string>)
    ensures Distinct(keys) && forall x :: x in keys <==> x in params
  {
    keys := [];
    var left := params.Keys;
    while left != {}
      invariant left <= params.Keys && Distinct(keys)
      invariant forall x :: x in keys <==> x in params.Keys - left
      decreases |left|
    {
      var k :| k in left;
      assert k !in keys;
      keys, left := keys + [k], left - {k};
    }
  }

  method JoinParts(keys: seq<string>, params: map<string, string>) returns (joined: string)
    requires forall k | k in keys :: k in params
    ensures joined == Parts(keys, params)
  {
    joined := "";
    var i := 0;
    while i < |keys|
      invariant 0 <= i <= |keys|
      invariant joined == Parts(keys[..i], params)
    {
      var part := keys[i] + "=" + params[keys[i]];
      PartsAt(keys, i, params);
      joined := if i == 0 then part else joined + "," + part;
      i := i + 1;
    }
    assert keys[..i] == keys;
  }

  /** However the map yields its keys, the result is the same name. */
  method GenerateName(runName: string, params: map<string, string>) returns (name: string)
    ensures name == VariantName(runName, params)
  {
    if |params| == 0 {
      return runName;
    }
    var keys := CollectKeys(params);
    SortKeysAscends(keys);
    keys := SortKeys(keys);
    AscendingUnique(keys, OrderedKeys(params));
    var joined := JoinParts(keys, params);
    name := runName + " (" + joined + ")";
  }

  // ----- What the name says -----

  /** The i-th piece of the list: its separator, the key and its value. */
  function Piece(keys: seq<string>, i: nat, params: map<string, string>): string
    requires i < |keys| && keys[i] in params
  {
    (if i == 0 then " (" else ",") + keys[i] + "=" + params[keys[i]]
  }

  /** Between its cuts the text has the i-th piece. */
  predicate PieceAt(text: string, keys: seq<string>, params: map<string, string>, cuts: seq<nat>, i: nat) {
    && i < |keys| && keys[i] in params && i + 1 < |cuts| && cuts[i] <= cuts[i + 1] < |text|
    && text[cuts[i]..cuts[i + 1]] == Piece(keys, i, params)
  }

  /** The text consists of the pieces of all keys, one after the other, and a bracket. */
  predicate SpellsAt(text: string, keys: seq<string>, params: map<string, string>, cuts: seq<nat>) {
    && |cuts| == |keys| + 1 && cuts[0] == 0 && |text| == cuts[|keys|] + 1 && text[|text| - 1] == ')'
    && forall i | 0 <= i < |keys| :: PieceAt(text, keys, params, cuts, i)
  }

  /** What follows the run name: nothing without params, else every key with its value, in ascending
      order of the keys, in brackets. */
  ghost predicate Spells(text: string, params: map<string, string>) {
    if params == map[] then text == ""
    else exists keys, cuts :: KeyOrder(keys, params) && SpellsAt(text, keys, params, cuts)
  }

  lemma {:induction false} PartsCut(keys: seq<string>, params: map<string, string>) returns (cuts: seq<nat>)
    requires keys != [] && forall k | k in keys :: k in params
    ensures SpellsAt(" (" + Parts(keys, params) + ")", keys, params, cuts)
    decreases |keys|
  {
    if |keys| == 1 {
      cuts := OnePiece(keys, params);
    } else {
      var n, init := |keys| - 1, keys[..|keys| - 1];
      var before := PartsCut(init, params);
      LastPiece(keys, params);
      cuts := OneMorePiece(" (" + Parts(init, params), Piece(keys, n, params), keys, params, before);
    }
  }

  lemma LastPiece(keys: seq<string>, params: map<string, string>)
    requires |keys| > 1 && forall k | k in keys :: k in params
    ensures var n := |keys| - 1;
            " (" + Parts(keys[..n], params) + Piece(keys, n, params) + ")" == " (" + Parts(keys, params) + ")"
  {
    var n := |keys| - 1;
    var front := Parts(keys[..n], params);
    assert Parts(keys, params) == front + "," + keys[n] + "=" + params[keys[n]];
    assert front + ("," + keys[n] + "=" + params[keys[n]]) == front + "," + keys[n] + "=" + params[keys[n]];
    Associates(" (", front, Piece(keys, n, params));
  }

  lemma Associates(a: string, b: string, c: string)
    ensures a + b + c == a + (b + c)
  {
  }

  lemma OnePiece(keys: seq<string>, params: map<string, string>) returns (cuts: seq<nat>)
    requires |keys| == 1 && keys[0] in params
    ensures SpellsAt(" (" + Parts(keys, params) + ")", keys, params, cuts)
  {
    var text := " (" + Parts(keys, params) + ")";
    cuts := [0, |text| - 1];
    assert text[0..|text| - 1] == " (" + (keys[0] + "=" + params[keys[0]]) == Piece(keys, 0, params);
    assert PieceAt(text, keys, params, cuts, 0);
  }

  lemma OneMorePiece(front: string, last: string, keys: seq<string>, params: map<string, string>, before: seq<nat>)
      returns (cuts: seq<nat>)
    requires |keys| > 1 && keys[|keys| - 1] in params && last == Piece(keys, |keys| - 1, params)
    requires SpellsAt(front + ")", keys[..|keys| - 1], params, before)
    ensures SpellsAt(front + last + ")", keys, params, cuts)
  {
    var n, short, text := |keys| - 1, front + ")", front + last + ")";
    cuts := before + [|front| + |last|];
    assert text[|front|..|front| + |last|] == last;
    assert PieceAt(text, keys, params, cuts, n);
    forall i | 0 <= i < n ensures PieceAt(text, keys, params, cuts, i) {
      assert PieceAt(short, keys[..n], params, before, i);
      assert text[cuts[i]..cuts[i + 1]] == short[before[i]..before[i + 1]];
      assert Piece(keys[..n], i, params) == Piece(keys, i, params);
    }
  }

  /** The generated name is the run name followed by a text that depends on the params only and spells
      them out. */
  lemma NameSpells(params: map<string, string>) returns (suffix: string)
    ensures Spells(suffix, params)
    ensures forall runName :: VariantName(runName, params) == runName + suffix
  {
    if params == map[] {
      suffix := "";
    } else {
      var keys := OrderedKeys(params);
      var k :| k in params;
      assert k in keys;
      suffix := " (" + Parts(keys, params) + ")";
      var cuts := PartsCut(keys, params);
      forall runName ensures VariantName(runName, params) == runName + suffix {
        assert runName + " (" + Parts(keys, params) + ")" == runName + suffix;
      }
    }
  }

  /** The run name can be read off the generated name: different run names give different names. */
  lemma NamesDiffer(a: string, b: string, params: map<string, string>)
    ensures VariantName(a, params) == VariantName(b, params) <==> a == b
    ensures a <= VariantName(a, params)
  {
    var suffix := NameSpells(params);
    var x, y := a + suffix, b + suffix;
    assert x[..|x| - |suffix|] == a && y[..|y| - |suffix|] == b;
  }

  lemma PartsNext(keys: seq<string>, k: string, params: map<string, string>)
    requires k in params && forall x | x in keys :: x in params
    ensures Parts(keys + [k], params)
         == if keys == [] then k + "=" + params[k] else Parts(keys, params) + "," + (k + "=" + params[k])
  {
    assert (keys + [k])[..|keys|] == keys;
  }

  lemma PartsAt(keys: seq<string>, i: nat, params: map<string, string>)
    requires i < |keys| && forall x | x in keys :: x in params
    ensures var part := keys[i] + "=" + params[keys[i]];
            Parts(keys[..i + 1], params) == if i == 0 then part else Parts(keys[..i], params) + "," + part
  {
    PartsNext(keys[..i], keys[i], params);
    assert keys[..i + 1] == keys[..i] + [keys[i]];
  }
}
