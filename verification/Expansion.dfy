/** Expanding a template over its axes: a cartesian product of the fixed axes, times freshly drawn
    distinct values for the random ones. */
module Expansion {
  import opened Common
  import opened Planning

  type Params = map<string, string>

  function NameSet(names: seq<string>): set<string> {
    set n | n in names
  }

  // ----- Decimal numbers -----

  function Digit(n: nat): char
    requires n < 10
  {
    '0' + n as char
  }

  function Digits(n: nat): string {
    if n < 10 then [Digit(n)] else Digits(n / 10) + [Digit(n % 10)]
  }

  /** strconv.Itoa. */
  function Itoa(n: int): string {
    if n < 0 then "-" + Digits(-n) else Digits(n)
  }

  function ReadDigits(s: string): int {
    if s == "" then 0 else 10 * ReadDigits(s[..|s| - 1]) + (s[|s| - 1] as int - '0' as int)
  }

  function Atoi(s: string): int {
    if s != "" && s[0] == '-' then -ReadDigits(s[1..]) else ReadDigits(s)
  }

  lemma {:induction false} DigitsRoundTrip(n: nat)
    ensures ReadDigits(Digits(n)) == n && Digits(n) != "" && '-' !in Digits(n)
  {
    if n < 10 {
      assert [Digit(n)][..0] == "";
    } else {
      DigitsRoundTrip(n / 10);
      assert Digits(n)[..|Digits(n)| - 1] == Digits(n / 10);
    }
  }

  /** Different numbers have different texts. */
  lemma ItoaRoundTrip(n: int)
    ensures Atoi(Itoa(n)) == n
  {
    if n < 0 {
      DigitsRoundTrip(-n);
      assert Itoa(n)[1..] == Digits(-n);
    } else {
      DigitsRoundTrip(n);
      assert Digits(n)[0] in Digits(n);
    }
  }

  // ----- Values of the fixed axes -----

  predicate Fixed(spec: AxisSpec) { spec.ListAxis? || (spec.RangeAxis? && spec.from <= spec.to) }

  function AxisValues(spec: AxisSpec): seq<string>
    requires Fixed(spec)
  {
    match spec
    case ListAxis(values) => values
    case RangeAxis(from, to) => seq(to - from + 1, i requires 0 <= i => Itoa(from + i))
  }

  function Gap(from: int, to: int): int { to - from }

  /** The loop stops after the last number instead of stepping past it, so the counter never wraps. */
  method RangeValues(from: Int64, to: Int64) returns (nums: seq<string>)
    requires from <= to
    ensures nums == AxisValues(RangeAxis(from, to))
  {
    nums := [];
    var n: Int64 := from;
    while true
      invariant from <= n <= to && nums == seq(n - from, i requires 0 <= i => Itoa(from + i))
      decreases Gap(n, to)
    {
      nums := nums + [Itoa(n)];
      if n == to {
        break;
      }
      n := n + 1;
    }
  }

  function ValuesOf(names: seq<string>, axes: Axes): map<string, seq<string>>
    requires forall n | n in names :: n in axes && Fixed(axes[n])
  {
    map n | n in names :: AxisValues(axes[n])
  }

  // ----- The cartesian product -----

  function Extensions(base: Params, name: string, values: seq<string>): seq<Params> {
    seq(|values|, i requires 0 <= i < |values| => base[name := values[i]])
  }

  function Cross(combos: seq<Params>, name: string, values: seq<string>): seq<Params> {
    if combos == [] then [] else Cross(combos[..|combos| - 1], name, values) + Extensions(combos[|combos| - 1], name, values)
  }

  function Cells(names: seq<string>, values: map<string, seq<string>>): seq<Params>
    requires forall n | n in names :: n in values
  {
    if names == [] then [map[]]
    else Cross(Cells(names[..|names| - 1], values), names[|names| - 1], values[names[|names| - 1]])
  }

  method Cartesian(names: seq<string>, values: map<string, seq<string>>) returns (combos: seq<Params>)
    requires forall n | n in names :: n in values
    ensures combos == Cells(names, values)
  {
    combos := [map[]];
    var i := 0;
    while i < |names|
      invariant 0 <= i <= |names|
      invariant combos == Cells(names[..i], values)
    {
      combos := CrossAll(combos, names[i], values[names[i]]);
      assert names[..i + 1][..i] == names[..i];
      i := i + 1;
    }
    assert names[..i] == names;
  }

  method CrossAll(combos: seq<Params>, name: string, values: seq<string>) returns (next: seq<Params>)
    ensures next == Cross(combos, name, values)
  {
    next := [];
    var b := 0;
    while b < |combos|
      invariant 0 <= b <= |combos|
      invariant next == Cross(combos[..b], name, values)
    {
      var v := 0;
      ghost var before := next;
      while v < |values|
        invariant 0 <= v <= |values|
        invariant next == before + Extensions(combos[b], name, values)[..v]
      {
        next := next + [combos[b][name := values[v]]];
        v := v + 1;
      }
      assert Extensions(combos[b], name, values)[..v] == Extensions(combos[b], name, values);
      assert combos[..b + 1][..b] == combos[..b];
      b := b + 1;
    }
    assert combos[..b] == combos;
  }

  /** A cell assigns one of its values to every name. */
  predicate IsCell(cell: Params, names: seq<string>, values: map<string, seq<string>>)
    requires forall n | n in names :: n in values
  {
    cell.Keys == NameSet(names) && forall n | n in names :: cell[n] in values[n]
  }

  lemma {:induction false} CrossMember(combos: seq<Params>, name: string, values: seq<string>, cell: Params)
    ensures cell in Cross(combos, name, values)
            <==> exists base, v | base in combos && v in values :: cell == base[name := v]
  {
    if combos != [] {
      var init, last := combos[..|combos| - 1], combos[|combos| - 1];
      CrossMember(init, name, values, cell);
      assert combos == init + [last];
      var ext := Extensions(last, name, values);
      if cell in ext {
        var i :| 0 <= i < |ext| && ext[i] == cell;
        assert last in combos && values[i] in values && cell == last[name := values[i]];
      }
      if cell in Cross(init, name, values) {
        var base, v :| base in init && v in values && cell == base[name := v];
        assert base in combos;
      }
      if base, v :| base in combos && v in values && cell == base[name := v] {
        if base == last {
          var i :| 0 <= i < |values| && values[i] == v;
          assert ext[i] == cell && cell in ext;
        } else {
          assert base in init;
          assert cell in Cross(init, name, values);
        }
        assert Cross(combos, name, values) == Cross(init, name, values) + ext;
      }
    }
  }

  lemma CellSplit(cell: Params, names: seq<string>, values: map<string, seq<string>>)
    requires names != [] && Distinct(names) && forall n | n in names :: n in values
    requires IsCell(cell, names, values)
    ensures var last := names[|names| - 1]; var base := cell - {last};
            IsCell(base, names[..|names| - 1], values) && cell[last] in values[last] && cell == base[last := cell[last]]
  {
    var init, last := names[..|names| - 1], names[|names| - 1];
    assert names == init + [last];
    assert last !in init;
    assert cell.Keys - {last} == NameSet(init);
  }

  lemma CellJoin(base: Params, v: string, names: seq<string>, values: map<string, seq<string>>)
    requires names != [] && Distinct(names) && forall n | n in names :: n in values
    requires IsCell(base, names[..|names| - 1], values) && v in values[names[|names| - 1]]
    ensures IsCell(base[names[|names| - 1] := v], names, values)
  {
    var init, last := names[..|names| - 1], names[|names| - 1];
    assert names == init + [last];
    assert last !in init;
  }

  /** The cells are exactly the assignments. */
  lemma {:induction false} CellsComplete(names: seq<string>, values: map<string, seq<string>>, cell: Params)
    requires Distinct(names) && forall n | n in names :: n in values
    ensures cell in Cells(names, values) <==> IsCell(cell, names, values)
  {
    if names != [] {
      var init, last := names[..|names| - 1], names[|names| - 1];
      CrossMember(Cells(init, values), last, values[last], cell);
      if IsCell(cell, names, values) {
        CellSplit(cell, names, values);
        CellsComplete(init, values, cell - {last});
        assert (cell - {last}) in Cells(init, values) && cell == (cell - {last})[last := cell[last]];
      }
      if base, v :| base in Cells(init, values) && v in values[last] && cell == base[last := v] {
        CellsComplete(init, values, base);
        CellJoin(base, v, names, values);
      }
    }
  }

  lemma {:induction false} CrossCount(combos: seq<Params>, name: string, values: seq<string>)
    ensures |Cross(combos, name, values)| == |combos| * |values|
  {
    if combos != [] {
      CrossCount(combos[..|combos| - 1], name, values);
      assert |combos| * |values| == (|combos| - 1) * |values| + |values|;
    }
  }

  // ----- Distinctness -----

  /** Combinations of these names, no two alike. */
  predicate Combos(combos: seq<Params>, names: set<string>) {
    Distinct(combos) && forall c | c in combos :: c.Keys == names
  }

  lemma DistinctAppend<T>(a: seq<T>, b: seq<T>)
    requires Distinct(a) && Distinct(b) && forall x | x in a :: x !in b
    ensures Distinct(a + b)
  {
    forall i, j | 0 <= i < j < |a + b| ensures (a + b)[i] != (a + b)[j] {
      if i < |a| <= j {
        assert (a + b)[i] in a && (a + b)[j] in b;
      }
    }
  }

  /** Without the new name, an extension is its base again. */
  lemma ExtensionStem(base: Params, name: string, values: seq<string>)
    requires name !in base
    ensures forall x | x in Extensions(base, name, values) :: name in x && x - {name} == base
  {
    forall x | x in Extensions(base, name, values) ensures name in x && x - {name} == base {
      var i :| 0 <= i < |values| && x == base[name := values[i]];
      assert base[name := values[i]] - {name} == base;
    }
  }

  lemma ExtensionsDistinct(base: Params, name: string, values: seq<string>)
    requires Distinct(values)
    ensures Distinct(Extensions(base, name, values))
  {
    var ext := Extensions(base, name, values);
    forall i, j | 0 <= i < j < |ext| ensures ext[i] != ext[j] {
      assert ext[i][name] == values[i] && ext[j][name] == values[j];
    }
  }

  lemma {:induction false} CrossCombos(combos: seq<Params>, names: set<string>, name: string, values: seq<string>)
    requires Combos(combos, names) && name !in names && Distinct(values)
    ensures Combos(Cross(combos, name, values), names + {name})
  {
    if combos != [] {
      var init, last := combos[..|combos| - 1], combos[|combos| - 1];
      assert combos == init + [last];
      CrossCombos(init, names, name, values);
      ExtensionsDistinct(last, name, values);
      var before, ext := Cross(init, name, values), Extensions(last, name, values);
      ExtensionStem(last, name, values);
      forall x | x in before ensures x !in ext {
        CrossMember(init, name, values, x);
        var base, v :| base in init && v in values && x == base[name := v];
        assert base in combos && last in combos && base != last;
        OtherStem(base, last, name, v, values);
      }
      DistinctAppend(before, ext);
    }
  }

  /** What extends one combination extends no other. */
  lemma OtherStem(base: Params, last: Params, name: string, v: string, values: seq<string>)
    requires base != last && name !in base && name !in last
    ensures base[name := v] !in Extensions(last, name, values)
  {
    ExtensionStem(last, name, values);
    assert base[name := v] - {name} == base;
  }

  lemma {:induction false} CellsDistinct(names: seq<string>, values: map<string, seq<string>>)
    requires Distinct(names) && forall n | n in names :: n in values && Distinct(values[n])
    ensures Combos(Cells(names, values), NameSet(names))
  {
    if names != [] {
      var init, last := names[..|names| - 1], names[|names| - 1];
      assert names == init + [last];
      CellsDistinct(init, values);
      assert last !in init;
      CrossCombos(Cells(init, values), NameSet(init), last, values[last]);
      assert NameSet(names) == NameSet(init) + {last};
    }
  }

  lemma RangeDistinct(spec: AxisSpec)
    requires spec.RangeAxis? && Fixed(spec)
    ensures Distinct(AxisValues(spec))
  {
    var values := AxisValues(spec);
    forall i, j | 0 <= i < j < |values| ensures values[i] != values[j] {
      ItoaRoundTrip(spec.from + i);
      ItoaRoundTrip(spec.from + j);
    }
  }

  // ----- The random axes -----

  datatype DrawError = Exhausted | SourceFailed

  /** The outcomes of the successive draws, as far as they may be asked for. */
  type Draws = nat -> Option<string>

  /** The draws from..to all gave values, and only values seen already. */
  predicate AllSeen(draws: Draws, from: nat, to: nat, seen: set<string>) {
    forall d | from <= d < to :: draws(d).Some? && draws(d).value in seen
  }

  /** A drawn value is new, and every draw before it repeated one. The drawing gives up exactly after
      maxAttempts such draws in a row, and fails exactly when the source does. */
  method DrawDistinct(draws: Draws, at: nat, seen: set<string>, maxAttempts: nat)
      returns (r: Result<string, DrawError>, next: nat)
    ensures at <= next <= at + maxAttempts && AllSeen(draws, at, next - (if at < next then 1 else 0), seen)
    ensures r.Ok? <==> at < next && draws(next - 1).Some? && draws(next - 1).value !in seen
    ensures r.Ok? ==> r.value == draws(next - 1).value
    ensures r == Err(Exhausted) <==> next == at + maxAttempts && AllSeen(draws, at, next, seen)
    ensures r == Err(SourceFailed) <==> at < next && draws(next - 1).None?
  {
    next := at;
    var attempt := 0;
    while attempt < maxAttempts
      invariant 0 <= attempt <= maxAttempts && next == at + attempt && AllSeen(draws, at, next, seen)
    {
      var value := draws(next);
      next := next + 1;
      if value.None? {
        return Err(SourceFailed), next;
      }
      if value.value !in seen {
        return Ok(value.value), next;
      }
      attempt := attempt + 1;
    }
    r := Err(Exhausted);
  }

  /** The last 32 * count draws gave only values drawn already, fewer than count of them. */
  ghost predicate RanDry(draws: Draws, at: nat, next: nat, count: nat) {
    at + 32 * count <= next && exists seen: set<string> :: |seen| < count && AllSeen(draws, next - 32 * count, next, seen)
  }

  /** How drawing may end: the last draw failed, and only that one did; or one of the counts ran dry. */
  ghost predicate DrawsEnd(draws: Draws, at: nat, next: nat, failure: Option<DrawError>, counts: set<nat>) {
    && at <= next && (forall d | at <= d < next - 1 :: draws(d).Some?)
    && (failure == Some(SourceFailed) <==> at < next && draws(next - 1).None?)
    && (failure == Some(Exhausted) ==> exists count | count in counts :: RanDry(draws, at, next, count))
  }

  function FailureOf<T>(r: Result<T, DrawError>): Option<DrawError> {
    if r.Err? then Some(r.error) else None
  }

  /** Drawing went on after a success. */
  lemma DrawsGoOn(draws: Draws, at: nat, mid: nat, next: nat, failure: Option<DrawError>, counts: set<nat>, more: set<nat>)
    requires DrawsEnd(draws, at, mid, None, counts) && DrawsEnd(draws, mid, next, failure, more) && more <= counts
    ensures DrawsEnd(draws, at, next, failure, counts)
  {
    if failure == Some(Exhausted) {
      var count :| count in more && RanDry(draws, mid, next, count);
      assert RanDry(draws, at, next, count);
    }
  }

  lemma OneDrawEnds(draws: Draws, at: nat, next: nat, seen: set<string>, count: nat, r: Result<string, DrawError>)
    requires at <= next && AllSeen(draws, at, next - (if at < next then 1 else 0), seen) && |seen| < count
    requires r.Ok? <==> at < next && draws(next - 1).Some? && draws(next - 1).value !in seen
    requires r == Err(Exhausted) <==> next == at + 32 * count && AllSeen(draws, at, next, seen)
    requires r == Err(SourceFailed) <==> at < next && draws(next - 1).None?
    ensures DrawsEnd(draws, at, next, FailureOf(r), {count})
  {
    if r == Err(Exhausted) {
      assert RanDry(draws, at, next, count);
    }
  }

  /** One of the draws gave this value. */
  predicate Drawn(draws: Draws, at: nat, next: nat, value: string) {
    exists d | at <= d < next :: draws(d) == Some(value)
  }

  /** Every value of the combination was drawn. */
  predicate AllDrawn(combo: Params, draws: Draws, at: nat, next: nat) {
    forall n | n in combo :: Drawn(draws, at, next, combo[n])
  }

  lemma DrawnWithin(draws: Draws, at: nat, next: nat, value: string, from: nat, to: nat)
    requires Drawn(draws, at, next, value) && from <= at && next <= to
    ensures Drawn(draws, from, to, value)
  {
    var d :| at <= d < next && draws(d) == Some(value);
    assert from <= d < to;
  }

  /** count different values, or an error. */
  method DrawMany(draws: Draws, at: nat, count: nat) returns (r: Result<seq<string>, DrawError>, next: nat)
    ensures r.Ok? ==> |r.value| == count && Distinct(r.value) && forall v | v in r.value :: Drawn(draws, at, next, v)
    ensures DrawsEnd(draws, at, next, FailureOf(r), {count})
  {
    var seen: set<string>, values: seq<string> := {}, [];
    var maxAttempts := 32 * count;
    next := at;
    var i := 0;
    while i < count
      invariant 0 <= i <= count && |values| == i && Distinct(values)
      invariant forall v :: v in seen <==> v in values
      invariant forall v | v in values :: Drawn(draws, at, next, v)
      invariant |seen| == i && DrawsEnd(draws, at, next, None, {count})
    {
      var value: Result<string, DrawError>;
      ghost var from := next;
      value, next := DrawDistinct(draws, next, seen, maxAttempts);
      OneDrawEnds(draws, from, next, seen, count, value);
      DrawsGoOn(draws, at, from, next, FailureOf(value), {count}, {count});
      if value.Err? {
        return Err(value.error), next;
      }
      assert draws(next - 1) == Some(value.value) && at <= next - 1;
      forall v | v in values ensures Drawn(draws, at, next, v) {
        DrawnWithin(draws, at, from, v, at, next);
      }
      seen, values := seen + {value.value}, values + [value.value];
      i := i + 1;
    }
    r := Ok(values);
  }

  /** How many values the axes draw at a time. */
  function CountsOf(names: seq<string>, axes: Axes): set<nat>
    requires AllRandom(names, axes)
  {
    set n | n in names :: CountOf(n, names, axes)
  }

  function CountOf(n: string, names: seq<string>, axes: Axes): nat
    requires AllRandom(names, axes) && n in names
  {
    axes[n].count
  }

  predicate AllRandom(names: seq<string>, axes: Axes) {
    forall i | 0 <= i < |names| :: names[i] in axes && axes[names[i]].RandomAxis? && Size(axes[names[i]]).Some?
  }

  /** Every combination gets its own freshly drawn values. */
  method RandomCartesian(names: seq<string>, axes: Axes, draws: Draws, at: nat)
      returns (r: Result<seq<Params>, DrawError>, next: nat)
    requires Distinct(names) && AllRandom(names, axes)
    ensures r.Ok? ==> InOrder(names, axes) && |r.value| == Product(names, axes) && Combos(r.value, NameSet(names))
    ensures r.Ok? ==> forall x | x in r.value :: AllDrawn(x, draws, at, next)
    ensures DrawsEnd(draws, at, next, FailureOf(r), CountsOf(names, axes))
  {
    var combos: seq<Params> := [map[]];
    next := at;
    var i := 0;
    assert names[..0] == [];
    while i < |names|
      invariant 0 <= i <= |names| && InOrder(names[..i], axes)
      invariant |combos| == Product(names[..i], axes) && Combos(combos, NameSet(names[..i]))
      invariant DrawsEnd(draws, at, next, None, CountsOf(names, axes))
      invariant forall x | x in combos :: AllDrawn(x, draws, at, next)
    {
      var name := names[i];
      var count := axes[name].count;
      var crossed: Result<seq<Params>, DrawError>;
      assert names[..i + 1] == names[..i] + [name] && name !in names[..i];
      ghost var from := next;
      crossed, next := RandomCross(combos, NameSet(names[..i]), name, count, draws, next);
      assert CountOf(name, names, axes) in CountsOf(names, axes);
      DrawsGoOn(draws, at, from, next, FailureOf(crossed), CountsOf(names, axes), {count});
      if crossed.Err? {
        return Err(crossed.error), next;
      }
      forall x | x in crossed.value ensures AllDrawn(x, draws, at, next) {
        CrossedDrawn(x, combos, name, draws, at, from, next);
      }
      combos := crossed.value;
      assert names[..i + 1][..i] == names[..i];
      assert NameSet(names[..i + 1]) == NameSet(names[..i]) + {name};
      i := i + 1;
    }
    assert names[..i] == names;
    r := Ok(combos);
  }

  method RandomCross(combos: seq<Params>, names: set<string>, name: string, count: nat, draws: Draws, at: nat)
      returns (r: Result<seq<Params>, DrawError>, next: nat)
    requires Combos(combos, names) && name !in names
    ensures r.Ok? ==> |r.value| == |combos| * count && Combos(r.value, names + {name})
    ensures r.Ok? ==> forall x | x in r.value :: Stems(x, combos, name) && Drawn(draws, at, next, x[name])
    ensures DrawsEnd(draws, at, next, FailureOf(r), {count})
  {
    var grown: seq<Params> := [];
    next := at;
    var b := 0;
    while b < |combos|
      invariant 0 <= b <= |combos| && |grown| == b * count && Combos(grown, names + {name})
      invariant forall x | x in grown :: Stems(x, combos[..b], name) && Drawn(draws, at, next, x[name])
      invariant DrawsEnd(draws, at, next, None, {count})
    {
      var values: Result<seq<string>, DrawError>;
      ghost var from := next;
      values, next := DrawMany(draws, next, count);
      DrawsGoOn(draws, at, from, next, FailureOf(values), {count}, {count});
      if values.Err? {
        return Err(values.error), next;
      }
      OneMoreBase(combos, b, names, name, values.value, grown);
      forall x | x in grown ensures Drawn(draws, at, next, x[name]) {
        DrawnWithin(draws, at, from, x[name], at, next);
      }
      forall x | x in Extensions(combos[b], name, values.value) ensures Drawn(draws, at, next, x[name]) {
        DrawnWithin(draws, from, next, x[name], at, next);
      }
      grown := grown + Extensions(combos[b], name, values.value);
      assert (b + 1) * count == b * count + count;
      b := b + 1;
    }
    assert combos[..b] == combos;
    r := Ok(grown);
  }

  /** The combination extends one of the bases. */
  predicate Stems(x: Params, bases: seq<Params>, name: string) {
    name in x && (x - {name}) in bases
  }

  lemma CrossedDrawn(x: Params, combos: seq<Params>, name: string, draws: Draws, at: nat, from: nat, next: nat)
    requires at <= from <= next && Stems(x, combos, name) && Drawn(draws, from, next, x[name])
    requires forall c | c in combos :: AllDrawn(c, draws, at, from)
    ensures AllDrawn(x, draws, at, next)
  {
    DrawnWithin(draws, from, next, x[name], at, next);
    forall n | n in x && n != name ensures Drawn(draws, at, next, x[n]) {
      assert (x - {name})[n] == x[n];
      DrawnWithin(draws, at, from, x[n], at, next);
    }
  }

  lemma OneMoreBase(combos: seq<Params>, b: nat, names: set<string>, name: string, values: seq<string>, grown: seq<Params>)
    requires Combos(combos, names) && b < |combos| && name !in names && Distinct(values) && Combos(grown, names + {name})
    requires forall x | x in grown :: Stems(x, combos[..b], name)
    ensures var ext := Extensions(combos[b], name, values);
            && Combos(grown + ext, names + {name})
            && forall x | x in grown + ext :: Stems(x, combos[..b + 1], name)
  {
    var ext := Extensions(combos[b], name, values);
    ExtensionsDistinct(combos[b], name, values);
    assert combos[b] in combos;
    ExtensionStem(combos[b], name, values);
    assert combos[..b + 1] == combos[..b] + [combos[b]];
    assert combos[b] !in combos[..b];
    DistinctAppend(grown, ext);
  }
}
