/** The expansion itself: every fixed cell times freshly drawn random combinations, each rendered. */
module Expand {
  import opened Common
  import opened VariantNames
  import opened Planning
  import opened Expansion
  import Template

  /** The cell stands for its canonical JSON key, which determines it. */
  datatype Variant = Variant(params: Params, cell: Params, url: string)

  datatype ExpandError =
    | MissingAxis(name: string)
    | ExtraAxis(name: string)
    | BadPlan(plan: PlanError)
    | BadDraw(draw: DrawError)
    | BadRender(render: Template.Error)

  /** What ParseTemplate guarantees of a template. */
  predicate Parsed(t: Template.Parsed, trim: string -> string) {
    Ascending(t.names) && NameSet(t.names) == NameSet(Template.HoleNames(Template.Segments(t.raw, 0), trim))
  }

  // ----- Fixed and random names -----

  function FixedOf(names: seq<string>, axes: Axes): seq<string>
    requires forall i | 0 <= i < |names| :: names[i] in axes
  {
    if names == [] then []
    else
      var last := names[|names| - 1];
      FixedOf(names[..|names| - 1], axes) + (if axes[last].RandomAxis? then [] else [last])
  }

  function RandomOf(names: seq<string>, axes: Axes): seq<string>
    requires forall i | 0 <= i < |names| :: names[i] in axes
  {
    if names == [] then []
    else
      var last := names[|names| - 1];
      RandomOf(names[..|names| - 1], axes) + (if axes[last].RandomAxis? then [last] else [])
  }

  lemma {:induction false} SplitNames(names: seq<string>, axes: Axes)
    requires Ascending(names) && forall i | 0 <= i < |names| :: names[i] in axes
    ensures Ascending(FixedOf(names, axes)) && Ascending(RandomOf(names, axes))
    ensures forall n :: n in FixedOf(names, axes) <==> n in names && !axes[n].RandomAxis?
    ensures forall n :: n in RandomOf(names, axes) <==> n in names && axes[n].RandomAxis?
  {
    if names != [] {
      var init, last := names[..|names| - 1], names[|names| - 1];
      assert names == init + [last];
      SplitNames(init, axes);
      forall n | n in init ensures Before(n, last) {
        var i :| 0 <= i < |init| && names[i] == n;
      }
    }
  }

  lemma ProductOne(names: seq<string>, name: string, axes: Axes)
    requires InOrder(names, axes) && name in axes && Size(axes[name]).Some?
    ensures InOrder(names + [name], axes) && Product(names + [name], axes) == Product(names, axes) * Size(axes[name]).value
  {
    assert (names + [name])[..|names|] == names;
  }

  lemma Regroup(a: nat, b: nat, c: nat)
    ensures a * b * c == a * (b * c) && a * b * c == (a * c) * b
  {
  }

  lemma SplitLast(init: seq<string>, last: string, axes: Axes)
    requires last in axes && forall i | 0 <= i < |init| :: init[i] in axes
    ensures FixedOf(init + [last], axes) == if axes[last].RandomAxis? then FixedOf(init, axes) else FixedOf(init, axes) + [last]
    ensures RandomOf(init + [last], axes) == if axes[last].RandomAxis? then RandomOf(init, axes) + [last] else RandomOf(init, axes)
  {
    assert (init + [last])[..|init|] == init;
  }

  lemma SplitOne(all: seq<string>, fixed: seq<string>, random: seq<string>, last: string, axes: Axes)
    requires InOrder(all, axes) && InOrder(fixed, axes) && InOrder(random, axes) && last in axes && Size(axes[last]).Some?
    requires Product(all, axes) == Product(fixed, axes) * Product(random, axes)
    ensures InOrder(all + [last], axes) && InOrder(fixed + [last], axes) && InOrder(random + [last], axes)
    ensures Product(all + [last], axes) == Product(fixed + [last], axes) * Product(random, axes)
    ensures Product(all + [last], axes) == Product(fixed, axes) * Product(random + [last], axes)
  {
    ProductOne(all, last, axes);
    ProductOne(fixed, last, axes);
    ProductOne(random, last, axes);
    Regroup(Product(fixed, axes), Product(random, axes), Size(axes[last]).value);
  }

  ghost predicate Splits(names: seq<string>, fixed: seq<string>, random: seq<string>, axes: Axes) {
    && InOrder(names, axes) && InOrder(fixed, axes) && InOrder(random, axes)
    && Product(names, axes) == Product(fixed, axes) * Product(random, axes)
  }

  /** The planned count is the number of cells times the number of random combinations per cell. */
  lemma {:induction false} ProductSplits(names: seq<string>, axes: Axes)
    requires InOrder(names, axes)
    ensures Splits(names, FixedOf(names, axes), RandomOf(names, axes), axes)
  {
    if names != [] {
      ProductSplits(names[..|names| - 1], axes);
      SplitsAll(names, axes);
    }
  }

  lemma SplitsAll(names: seq<string>, axes: Axes)
    requires names != [] && InOrder(names, axes)
    requires var init := names[..|names| - 1]; Splits(init, FixedOf(init, axes), RandomOf(init, axes), axes)
    ensures Splits(names, FixedOf(names, axes), RandomOf(names, axes), axes)
  {
    var init, last := names[..|names| - 1], names[|names| - 1];
    SplitsStep(init, last, axes);
    assert names == init + [last];
  }

  lemma SplitsStep(init: seq<string>, last: string, axes: Axes)
    requires (forall i | 0 <= i < |init| :: init[i] in axes) && last in axes && Size(axes[last]).Some?
    requires Splits(init, FixedOf(init, axes), RandomOf(init, axes), axes)
    ensures forall i | 0 <= i < |init + [last]| :: (init + [last])[i] in axes
    ensures Splits(init + [last], FixedOf(init + [last], axes), RandomOf(init + [last], axes), axes)
  {
    SplitOne(init, FixedOf(init, axes), RandomOf(init, axes), last, axes);
    SplitLast(init, last, axes);
  }

  predicate AllFixed(names: seq<string>, axes: Axes) {
    forall n | n in names :: n in axes && Fixed(axes[n]) && Size(axes[n]).Some?
  }

  method FixedAxisValues(names: seq<string>, axes: Axes) returns (r: Result<map<string, seq<string>>, PlanError>)
    requires forall n | n in names :: n in axes
    ensures r.Ok? <==> AllFixed(names, axes)
    ensures r.Ok? ==> r.value == ValuesOf(names, axes)
  {
    var values: map<string, seq<string>> := map[];
    var i := 0;
    while i < |names|
      invariant 0 <= i <= |names| && AllFixed(names[..i], axes) && values == ValuesOf(names[..i], axes)
    {
      var name := names[i];
      assert names[..i + 1] == names[..i] + [name];
      match axes[name] {
      case ListAxis(list) =>
        if |list| == 0 {
          return Err(EmptyList(name));
        }
        values := values[name := list];
      case RangeAxis(from, to) =>
        if from > to {
          return Err(BackwardRange(name));
        }
        var nums := RangeValues(from, to);
        values := values[name := nums];
      case RandomAxis(_, _) => return Err(UnknownKind(name));
      case UnknownAxis => return Err(UnknownKind(name));
      }
      i := i + 1;
    }
    assert names[..i] == names;
    r := Ok(values);
  }

  lemma {:induction false} CellsCount(names: seq<string>, all: seq<string>, axes: Axes)
    requires AllFixed(all, axes) && InOrder(names, axes) && forall n | n in names :: n in all
    ensures |Cells(names, ValuesOf(all, axes))| == Product(names, axes)
  {
    if names != [] {
      var init, last := names[..|names| - 1], names[|names| - 1];
      CellsCount(init, all, axes);
      CrossCount(Cells(init, ValuesOf(all, axes)), last, ValuesOf(all, axes)[last]);
      assert |AxisValues(axes[last])| == Size(axes[last]).value;
    }
  }

  // ----- Variants -----

  function Rendered(t: Template.Parsed, params: Params, trim: string -> string): string
    requires Template.Supplied(Template.HoleNames(Template.Segments(t.raw, 0), trim), params)
  {
    Template.Substituted(Template.Segments(t.raw, 0), params, trim)
  }

  /** A value for every placeholder and no other, the cell's values among them, and the URL they give. */
  predicate VariantOk(v: Variant, t: Template.Parsed, trim: string -> string) {
    && Parsed(t, trim) && v.params.Keys == NameSet(t.names)
    && v.cell.Keys <= v.params.Keys && (forall n | n in v.cell :: v.params[n] == v.cell[n])
    && (forall n | n in Template.HoleNames(Template.Segments(t.raw, 0), trim) :: n in NameSet(t.names))
    && v.url == Rendered(t, v.params, trim)
  }

  function ParamsOf(variants: seq<Variant>): seq<Params> {
    seq(|variants|, i requires 0 <= i < |variants| => variants[i].params)
  }

  /** The variants of one cell. */
  predicate Block(block: seq<Variant>, cell: Params, combos: seq<Params>, t: Template.Parsed, trim: string -> string) {
    && |block| == |combos|
    && forall k | 0 <= k < |block| :: block[k].params == cell + combos[k] && block[k].cell == cell && VariantOk(block[k], t, trim)
  }

  /** An assignment to all placeholders, the cell's values among them, whose substitution is too long. */
  ghost predicate Overlong(params: Params, t: Template.Parsed, cell: Params, trim: string -> string) {
    && params.Keys == NameSet(t.names) && cell.Keys <= params.Keys && (forall n | n in cell :: params[n] == cell[n])
    && Template.Supplied(Template.HoleNames(Template.Segments(t.raw, 0), trim), params)
    && |Rendered(t, params, trim)| > Template.MAX_RENDERED_BYTES
  }

  method RenderCell(t: Template.Parsed, cell: Params, combos: seq<Params>, ghost names: set<string>, trim: string -> string)
      returns (r: Result<seq<Variant>, Template.Error>)
    requires Parsed(t, trim) && Combos(combos, names) && cell.Keys + names == NameSet(t.names) && cell.Keys !! names
    ensures r.Ok? ==> Block(r.value, cell, combos, t, trim)
    ensures r.Err? ==> r.error == Template.TooLong && exists params :: Overlong(params, t, cell, trim)
  {
    var block: seq<Variant> := [];
    var k := 0;
    while k < |combos|
      invariant 0 <= k <= |combos| && Block(block, cell, combos[..k], t, trim)
    {
      assert combos[k] in combos;
      var params := cell + combos[k];
      assert params.Keys == NameSet(t.names);
      NamesSupplied(t, params, trim);
      var url := Template.Render(t, params, trim);
      if url.Err? {
        assert Overlong(params, t, cell, trim);
        return Err(url.error);
      }
      BlockGrows(block, cell, combos, k, url.value, t, trim);
      block := block + [Variant(params, cell, url.value)];
      k := k + 1;
    }
    assert combos[..k] == combos;
    r := Ok(block);
  }

  lemma BlockGrows(block: seq<Variant>, cell: Params, combos: seq<Params>, k: nat, url: string,
                   t: Template.Parsed, trim: string -> string)
    requires k < |combos| && Block(block, cell, combos[..k], t, trim)
    requires VariantOk(Variant(cell + combos[k], cell, url), t, trim)
    ensures Block(block + [Variant(cell + combos[k], cell, url)], cell, combos[..k + 1], t, trim)
  {
  }

  lemma NamesSupplied(t: Template.Parsed, params: Params, trim: string -> string)
    requires Parsed(t, trim) && params.Keys == NameSet(t.names)
    ensures forall n | n in Template.HoleNames(Template.Segments(t.raw, 0), trim) :: n in NameSet(t.names) && n in params
  {
    forall n | n in Template.HoleNames(Template.Segments(t.raw, 0), trim) ensures n in NameSet(t.names) && n in params {
      assert n in NameSet(Template.HoleNames(Template.Segments(t.raw, 0), trim));
    }
  }

  lemma Stripped(cell: Params, combo: Params, names: set<string>)
    requires combo.Keys == names && cell.Keys !! names
    ensures (cell + combo) - cell.Keys == combo
  {
  }

  /** Different combinations of one cell give different parameters. */
  lemma BlockDistinct(block: seq<Variant>, cell: Params, combos: seq<Params>, names: set<string>,
                      t: Template.Parsed, trim: string -> string)
    requires Block(block, cell, combos, t, trim) && Combos(combos, names) && cell.Keys !! names
    ensures Distinct(ParamsOf(block))
  {
    var all := ParamsOf(block);
    forall i, j | 0 <= i < j < |all| ensures all[i] != all[j] {
      assert combos[i] in combos && combos[j] in combos;
      Stripped(cell, combos[i], names);
      Stripped(cell, combos[j], names);
    }
  }

  predicate Covered(variants: seq<Variant>, cell: Params) {
    exists k | 0 <= k < |variants| :: variants[k].cell == cell
  }

  /** What holds of the variants of the first cells. */
  predicate SoFar(variants: seq<Variant>, cells: seq<Params>, t: Template.Parsed, trim: string -> string) {
    && (forall k | 0 <= k < |variants| :: VariantOk(variants[k], t, trim) && variants[k].cell in cells)
    && (forall i | 0 <= i < |cells| :: Covered(variants, cells[i]))
    && (Distinct(cells) ==> Distinct(ParamsOf(variants)))
  }

  /** All cells assign the same names. */
  predicate SameNames(cells: seq<Params>, names: set<string>) {
    forall c | c in cells :: c.Keys == names
  }

  lemma AppendCell(variants: seq<Variant>, cells: seq<Params>, cell: Params, block: seq<Variant>, combos: seq<Params>,
                   fixed: set<string>, names: set<string>, t: Template.Parsed, trim: string -> string)
    requires SoFar(variants, cells, t, trim) && SameNames(cells, fixed) && cell.Keys == fixed && fixed !! names
    requires Block(block, cell, combos, t, trim) && Combos(combos, names) && |combos| > 0
    ensures SoFar(variants + block, cells + [cell], t, trim)
  {
    var more := variants + block;
    assert more[|variants|].cell == cell;
    forall i | 0 <= i < |cells + [cell]| ensures Covered(more, (cells + [cell])[i]) {
      if i < |cells| {
        assert Covered(variants, cells[i]);
        var k :| 0 <= k < |variants| && variants[k].cell == cells[i];
        assert more[k].cell == cells[i];
      }
    }
    if Distinct(cells + [cell]) {
      AppendDistinct(variants, cells, cell, block, combos, fixed, names, t, trim);
    }
  }

  lemma AppendDistinct(variants: seq<Variant>, cells: seq<Params>, cell: Params, block: seq<Variant>, combos: seq<Params>,
                       fixed: set<string>, names: set<string>, t: Template.Parsed, trim: string -> string)
    requires SoFar(variants, cells, t, trim) && SameNames(cells, fixed) && cell.Keys == fixed && fixed !! names
    requires Block(block, cell, combos, t, trim) && Combos(combos, names) && Distinct(cells + [cell])
    ensures Distinct(ParamsOf(variants + block))
  {
    DistinctInit(cells, cell);
    BlockDistinct(block, cell, combos, names, t, trim);
    forall i, j | 0 <= i < |variants| && 0 <= j < |block| ensures variants[i].params != block[j].params {
      CellIsNew(cells, cell, variants[i].cell);
      DifferentCells(variants[i], block[j], fixed, t, trim);
    }
    ParamsAppend(variants, block);
  }

  lemma DistinctInit(cells: seq<Params>, cell: Params)
    requires Distinct(cells + [cell])
    ensures Distinct(cells)
  {
    forall i, j | 0 <= i < j < |cells| ensures cells[i] != cells[j] {
      assert (cells + [cell])[i] == cells[i] && (cells + [cell])[j] == cells[j];
    }
  }

  lemma ParamsAppend(a: seq<Variant>, b: seq<Variant>)
    requires Distinct(ParamsOf(a)) && Distinct(ParamsOf(b))
    requires forall i, j | 0 <= i < |a| && 0 <= j < |b| :: a[i].params != b[j].params
    ensures Distinct(ParamsOf(a + b))
  {
    var x, y := ParamsOf(a), ParamsOf(b);
    assert ParamsOf(a + b) == x + y;
    forall p | p in x ensures p !in y {
      var i :| 0 <= i < |x| && x[i] == p;
      assert p == a[i].params;
    }
    DistinctAppend(x, y);
  }

  lemma CellIsNew(cells: seq<Params>, cell: Params, c: Params)
    requires Distinct(cells + [cell]) && c in cells
    ensures c != cell
  {
    var k :| 0 <= k < |cells| && cells[k] == c;
    assert (cells + [cell])[k] != (cells + [cell])[|cells|];
  }

  lemma DifferentCells(v: Variant, w: Variant, fixed: set<string>, t: Template.Parsed, trim: string -> string)
    requires VariantOk(v, t, trim) && VariantOk(w, t, trim) && v.cell.Keys == fixed == w.cell.Keys && v.cell != w.cell
    ensures v.params != w.params
  {
    Restricted(v, fixed, t, trim);
    Restricted(w, fixed, t, trim);
  }

  /** The cell is the restriction of the parameters to the fixed names. */
  lemma Restricted(v: Variant, fixed: set<string>, t: Template.Parsed, trim: string -> string)
    requires VariantOk(v, t, trim) && v.cell.Keys == fixed
    ensures v.cell == map n | n in v.params && n in fixed :: v.params[n]
  {
  }

  // ----- Expand -----

  /** Every placeholder needs an axis and every axis a placeholder; the range over the map of axes visits
      it in any order. */
  method MatchAxes(names: seq<string>, axes: Axes) returns (mismatch: Option<ExpandError>)
    ensures mismatch.None? <==> axes.Keys == NameSet(names)
    ensures mismatch.Some? ==> mismatch.value.MissingAxis? || mismatch.value.ExtraAxis?
  {
    var i := 0;
    while i < |names|
      invariant 0 <= i <= |names| && forall k | 0 <= k < i :: names[k] in axes
    {
      if names[i] !in axes {
        assert names[i] in NameSet(names);
        return Some(MissingAxis(names[i]));
      }
      i := i + 1;
    }
    var left := axes.Keys;
    while left != {}
      invariant left <= axes.Keys && forall n | n in axes.Keys - left :: n in NameSet(names)
      decreases |left|
    {
      var n :| n in left;
      if n !in names {
        assert n !in NameSet(names);
        return Some(ExtraAxis(n));
      }
      left := left - {n};
    }
    mismatch := None;
  }

  lemma AscendingDistinct(names: seq<string>)
    requires Ascending(names)
    ensures Distinct(names)
  {
    forall i, j | 0 <= i < j < |names| ensures names[i] != names[j] {
      BeforeIrreflexive(names[i]);
    }
  }

  /** No list axis names a value twice. */
  predicate ListsDistinct(axes: Axes) {
    forall n | n in axes && axes[n].ListAxis? :: Distinct(axes[n].values)
  }

  lemma FixedNames(names: seq<string>, axes: Axes)
    requires Ascending(names) && InOrder(names, axes)
    ensures var fixed, random := FixedOf(names, axes), RandomOf(names, axes);
            && Ascending(fixed) && Ascending(random) && Distinct(fixed) && Distinct(random)
            && AllFixed(fixed, axes) && AllRandom(random, axes)
            && NameSet(fixed) + NameSet(random) == NameSet(names) && NameSet(fixed) !! NameSet(random)
  {
    SplitNames(names, axes);
    var fixed, random := FixedOf(names, axes), RandomOf(names, axes);
    AscendingDistinct(fixed);
    AscendingDistinct(random);
    forall n | n in fixed ensures Fixed(axes[n]) && Size(axes[n]).Some? {
      var i :| 0 <= i < |names| && names[i] == n;
    }
    forall i | 0 <= i < |random|
      ensures random[i] in axes && Size(axes[random[i]]).Some? && axes[random[i]].RandomAxis?
    {
      assert random[i] in random;
      var k :| 0 <= k < |names| && names[k] == random[i];
    }
  }

  /** The cells, their number, and that they differ when the lists do. */
  lemma CellFacts(fixed: seq<string>, axes: Axes)
    requires Distinct(fixed) && AllFixed(fixed, axes) && InOrder(fixed, axes)
    ensures var cells := Cells(fixed, ValuesOf(fixed, axes));
            && |cells| == Product(fixed, axes) && SameNames(cells, NameSet(fixed))
            && (ListsDistinct(axes) ==> Distinct(cells))
  {
    var values := ValuesOf(fixed, axes);
    CellsCount(fixed, fixed, axes);
    forall c | c in Cells(fixed, values) ensures c.Keys == NameSet(fixed) {
      CellsComplete(fixed, values, c);
    }
    if ListsDistinct(axes) {
      forall n | n in fixed ensures Distinct(values[n]) {
        if axes[n].RangeAxis? {
          RangeDistinct(axes[n]);
        }
      }
      CellsDistinct(fixed, values);
    }
  }

  /** c times n, one at a time. */
  function Times(c: nat, n: nat): nat {
    if c == 0 then 0 else Times(c - 1, n) + n
  }

  lemma {:induction false} TimesIsProduct(c: nat, n: nat)
    ensures Times(c, n) == c * n
  {
    if c > 0 {
      TimesIsProduct(c - 1, n);
      assert (c - 1) * n + n == c * n;
    }
  }

  /** After the first c cells, with as many combinations each. */
  predicate Progress(variants: seq<Variant>, cells: seq<Params>, c: nat, combos: nat, t: Template.Parsed, trim: string -> string) {
    c <= |cells| && SoFar(variants, cells[..c], t, trim) && |variants| == Times(c, combos) && InBlocks(variants, cells, c, combos)
  }

  /** Cell by cell, so many variants each. */
  predicate InBlocks(variants: seq<Variant>, cells: seq<Params>, c: nat, combos: nat) {
    forall b, k | 0 <= b < c && 0 <= k < combos :: InPlace(variants, cells, b, k, combos)
  }

  /** The k-th variant of cell b. */
  predicate InPlace(variants: seq<Variant>, cells: seq<Params>, b: nat, k: nat, combos: nat) {
    b < |cells| && Times(b, combos) + k < |variants| && variants[Times(b, combos) + k].cell == cells[b]
  }

  lemma NextBlock(variants: seq<Variant>, cells: seq<Params>, c: nat, block: seq<Variant>)
    requires c < |cells| && InBlocks(variants, cells, c, |block|) && |variants| == Times(c, |block|)
    requires forall k | 0 <= k < |block| :: block[k].cell == cells[c]
    ensures InBlocks(variants + block, cells, c + 1, |block|)
  {
    var n := |block|;
    forall b, k | 0 <= b < c + 1 && 0 <= k < n ensures InPlace(variants + block, cells, b, k, n) {
      if b < c {
        assert InPlace(variants, cells, b, k, n);
      }
    }
  }

  lemma ProgressStep(variants: seq<Variant>, cells: seq<Params>, c: nat, block: seq<Variant>, combos: seq<Params>,
                     fixed: set<string>, names: set<string>, t: Template.Parsed, trim: string -> string)
    requires c < |cells| && Progress(variants, cells, c, |combos|, t, trim) && SameNames(cells, fixed) && fixed !! names
    requires Block(block, cells[c], combos, t, trim) && Combos(combos, names) && |combos| > 0
    ensures Progress(variants + block, cells, c + 1, |combos|, t, trim)
  {
    assert cells[..c + 1] == cells[..c] + [cells[c]];
    assert cells[c] in cells;
    AppendCell(variants, cells[..c], cells[c], block, combos, fixed, names, t, trim);
    NextBlock(variants, cells, c, block);
  }

  ghost predicate SomeOverlong(t: Template.Parsed, cells: seq<Params>, trim: string -> string) {
    exists c, params | 0 <= c < |cells| :: Overlong(params, t, cells[c], trim)
  }

  function DrawFailureOf(r: Result<seq<Variant>, ExpandError>): Option<DrawError> {
    if r.Err? && r.error.BadDraw? then Some(r.error.draw) else None
  }

  /** Behind its cell's values a variant has drawn ones only. */
  predicate FreshlyDrawn(variants: seq<Variant>, draws: Draws, at: nat, next: nat) {
    forall k, n | 0 <= k < |variants| && n in variants[k].params && n !in variants[k].cell ::
      Drawn(draws, at, next, variants[k].params[n])
  }

  lemma BlockDrawn(block: seq<Variant>, cell: Params, combos: seq<Params>, draws: Draws, at: nat, next: nat,
                   t: Template.Parsed, trim: string -> string)
    requires Block(block, cell, combos, t, trim) && forall x | x in combos :: AllDrawn(x, draws, at, next)
    ensures FreshlyDrawn(block, draws, at, next)
  {
    forall k, n | 0 <= k < |block| && n in block[k].params && n !in block[k].cell ensures Drawn(draws, at, next, block[k].params[n]) {
      assert combos[k] in combos && block[k].params[n] == combos[k][n];
    }
  }

  lemma DrawnOn(variants: seq<Variant>, block: seq<Variant>, draws: Draws, at: nat, next: nat)
    requires at <= next && FreshlyDrawn(variants, draws, 0, at) && FreshlyDrawn(block, draws, at, next)
    ensures FreshlyDrawn(variants + block, draws, 0, next)
  {
    var all := variants + block;
    forall k, n | 0 <= k < |all| && n in all[k].params && n !in all[k].cell ensures Drawn(draws, 0, next, all[k].params[n]) {
      if k < |variants| {
        DrawnWithin(draws, 0, at, variants[k].params[n], 0, next);
      } else {
        DrawnWithin(draws, at, next, block[k - |variants|].params[n], 0, next);
      }
    }
  }

  /** The variants of one cell: fresh combinations, each rendered. */
  method ExpandCell(t: Template.Parsed, cell: Params, random: seq<string>, axes: Axes, draws: Draws, at: nat, trim: string -> string)
      returns (r: Result<seq<Variant>, ExpandError>, next: nat, ghost combos: seq<Params>)
    requires Parsed(t, trim) && Distinct(random) && AllRandom(random, axes) && InOrder(random, axes)
    requires cell.Keys + NameSet(random) == NameSet(t.names) && cell.Keys !! NameSet(random)
    ensures r.Ok? ==> Combos(combos, NameSet(random)) && |combos| == Product(random, axes) && Block(r.value, cell, combos, t, trim)
    ensures r.Ok? ==> FreshlyDrawn(r.value, draws, at, next)
    ensures r.Err? ==> r.error.BadDraw? || (r.error == BadRender(Template.TooLong) && exists params :: Overlong(params, t, cell, trim))
    ensures DrawsEnd(draws, at, next, DrawFailureOf(r), CountsOf(random, axes))
  {
    var drawn: Result<seq<Params>, DrawError>;
    drawn, next := RandomCartesian(random, axes, draws, at);
    if drawn.Err? {
      return Err(BadDraw(drawn.error)), next, [];
    }
    combos := drawn.value;
    var block := RenderCell(t, cell, drawn.value, NameSet(random), trim);
    if block.Ok? {
      BlockDrawn(block.value, cell, combos, draws, at, next, t, trim);
    }
    r := if block.Ok? then Ok(block.value) else Err(BadRender(block.error));
  }

  method ExpandCells(t: Template.Parsed, cells: seq<Params>, random: seq<string>, axes: Axes, draws: Draws,
                     ghost fixed: set<string>, trim: string -> string)
      returns (r: Result<seq<Variant>, ExpandError>, ghost used: nat)
    requires Parsed(t, trim) && SameNames(cells, fixed) && Distinct(random) && AllRandom(random, axes)
    requires InOrder(random, axes) && fixed + NameSet(random) == NameSet(t.names) && fixed !! NameSet(random)
    ensures r.Ok? ==> Progress(r.value, cells, |cells|, Product(random, axes), t, trim) && FreshlyDrawn(r.value, draws, 0, used)
    ensures r.Err? ==> r.error.BadDraw? || (r.error == BadRender(Template.TooLong) && SomeOverlong(t, cells, trim))
    ensures DrawsEnd(draws, 0, used, DrawFailureOf(r), CountsOf(random, axes))
  {
    var variants: seq<Variant> := [];
    ghost var perCell, names, counts := Product(random, axes), NameSet(random), CountsOf(random, axes);
    var at, c := 0, 0;
    used := 0;
    while c < |cells|
      invariant used == at && DrawsEnd(draws, 0, at, None, counts)
      invariant 0 <= c <= |cells| && Progress(variants, cells, c, perCell, t, trim) && FreshlyDrawn(variants, draws, 0, at)
    {
      var block: Result<seq<Variant>, ExpandError>;
      ghost var combos;
      assert cells[c] in cells;
      block, at, combos := ExpandCell(t, cells[c], random, axes, draws, at, trim);
      DrawsGoOn(draws, 0, used, at, DrawFailureOf(block), counts, counts);
      ghost var from := used;
      used := at;
      if block.Err? {
        return block, used;
      }
      DrawnOn(variants, block.value, draws, from, at);
      ProgressStep(variants, cells, c, block.value, combos, fixed, names, t, trim);
      variants := variants + block.value;
      c := c + 1;
    }
    r := Ok(variants);
  }

  /** Every fixed assignment of the axes is the cell of some variant. */
  ghost predicate CoversCells(variants: seq<Variant>, names: seq<string>, axes: Axes)
    requires Ascending(names) && InOrder(names, axes)
  {
    FixedNames(names, axes);
    forall cell | IsCell(cell, FixedOf(names, axes), ValuesOf(FixedOf(names, axes), axes)) :: Covered(variants, cell)
  }

  /** The variants come cell by cell, as many for each as the random axes call for. */
  ghost predicate FollowsCells(variants: seq<Variant>, names: seq<string>, axes: Axes)
    requires Ascending(names) && InOrder(names, axes)
  {
    FixedNames(names, axes);
    var cells := Cells(FixedOf(names, axes), ValuesOf(FixedOf(names, axes), axes));
    InBlocks(variants, cells, |cells|, Product(RandomOf(names, axes), axes))
  }

  lemma CellsCovered(variants: seq<Variant>, names: seq<string>, axes: Axes)
    requires Ascending(names) && InOrder(names, axes)
    requires AllFixed(FixedOf(names, axes), axes)
    requires forall i | 0 <= i < |Cells(FixedOf(names, axes), ValuesOf(FixedOf(names, axes), axes))| ::
               Covered(variants, Cells(FixedOf(names, axes), ValuesOf(FixedOf(names, axes), axes))[i])
    ensures CoversCells(variants, names, axes)
  {
    FixedNames(names, axes);
    var fixed := FixedOf(names, axes);
    var values := ValuesOf(fixed, axes);
    forall cell | IsCell(cell, fixed, values) ensures Covered(variants, cell) {
      CellsComplete(fixed, values, cell);
      var i :| 0 <= i < |Cells(fixed, values)| && Cells(fixed, values)[i] == cell;
    }
  }

  lemma SortedAlready(names: seq<string>)
    requires Ascending(names)
    ensures SortKeys(names) == names
  {
    AscendingDistinct(names);
    SortKeysAscends(names);
    AscendingUnique(SortKeys(names), names);
  }

  /** Exactly the planned number of variants, each with a value for every placeholder, every cell covered,
      and no two alike unless a list repeats a value. */
  ghost predicate Complete(variants: seq<Variant>, t: Template.Parsed, axes: Axes, trim: string -> string) {
    && Ascending(t.names) && InOrder(t.names, axes) && |variants| == Product(t.names, axes)
    && (forall k | 0 <= k < |variants| :: VariantOk(variants[k], t, trim))
    && CoversCells(variants, t.names, axes) && FollowsCells(variants, t.names, axes)
    && (ListsDistinct(axes) ==> Distinct(ParamsOf(variants)))
  }

  lemma ProgressCompletes(variants: seq<Variant>, t: Template.Parsed, axes: Axes, trim: string -> string)
    requires Ascending(t.names) && InOrder(t.names, axes)
    requires AllFixed(FixedOf(t.names, axes), axes) && InOrder(RandomOf(t.names, axes), axes)
    requires var cells := Cells(FixedOf(t.names, axes), ValuesOf(FixedOf(t.names, axes), axes));
             Progress(variants, cells, |cells|, Product(RandomOf(t.names, axes), axes), t, trim)
    ensures Complete(variants, t, axes, trim)
  {
    var fixed := FixedOf(t.names, axes);
    var cells := Cells(fixed, ValuesOf(fixed, axes));
    assert cells[..|cells|] == cells;
    FixedNames(t.names, axes);
    ProductSplits(t.names, axes);
    CellFacts(fixed, axes);
    TimesIsProduct(|cells|, Product(RandomOf(t.names, axes), axes));
    CellsCovered(variants, t.names, axes);
  }

  /** Some assignment that extends a fixed one is too long. */
  ghost predicate OverlongFor(t: Template.Parsed, axes: Axes, trim: string -> string)
    requires Ascending(t.names) && InOrder(t.names, axes)
  {
    FixedNames(t.names, axes);
    SomeOverlong(t, Cells(FixedOf(t.names, axes), ValuesOf(FixedOf(t.names, axes), axes)), trim)
  }

  ghost function RandomCounts(names: seq<string>, axes: Axes): set<nat>
    requires Ascending(names) && InOrder(names, axes)
  {
    FixedNames(names, axes);
    CountsOf(RandomOf(names, axes), axes)
  }

  lemma NoDrawFailed(draws: Draws, used: nat, counts: set<nat>)
    requires DrawsEnd(draws, 0, used, None, counts)
    ensures forall d | 0 <= d < used :: draws(d).Some?
  {
  }

  /** Planning is in force: errors of the plan come before anything is made. used is the number of random
      draws made. */
  method Expand(t: Template.Parsed, axes: Axes, draws: Draws, maxVariants: Int64, trim: string -> string)
      returns (r: Result<seq<Variant>, ExpandError>, ghost used: nat)
    requires Parsed(t, trim) && 1 <= maxVariants <= INT64_MAX / ALPHABET_SIZE
    requires forall n | n in axes && axes[n].ListAxis? :: |axes[n].values| <= INT64_MAX
    ensures axes.Keys != NameSet(t.names) ==> r.Err? && (r.error.MissingAxis? || r.error.ExtraAxis?)
    ensures axes.Keys == NameSet(t.names) ==>
              (r.Err? && r.error.BadPlan? <==> !(InOrder(t.names, axes) && Product(t.names, axes) <= maxVariants))
    ensures r.Err? && (r.error.BadDraw? || r.error.BadRender?) ==> axes.Keys == NameSet(t.names) && InOrder(t.names, axes)
    ensures r.Err? && r.error.BadDraw? ==> DrawsEnd(draws, 0, used, Some(r.error.draw), RandomCounts(t.names, axes))
    ensures r.Ok? ==> forall d | 0 <= d < used :: draws(d).Some?
    ensures r.Err? && r.error.BadRender? ==> r.error.render == Template.TooLong && OverlongFor(t, axes, trim)
    ensures r.Ok? ==> axes.Keys == NameSet(t.names) && Complete(r.value, t, axes, trim) && |r.value| <= maxVariants
    ensures r.Ok? ==> FreshlyDrawn(r.value, draws, 0, used)
  {
    used := 0;
    var mismatch := MatchAxes(t.names, axes);
    if mismatch.Some? {
      return Err(mismatch.value), used;
    }
    forall i | 0 <= i < |t.names| ensures t.names[i] in axes {
      assert t.names[i] in NameSet(t.names);
    }
    var fixed, random := FixedOf(t.names, axes), RandomOf(t.names, axes);
    SplitNames(t.names, axes);
    SortedAlready(fixed);
    SortedAlready(random);
    fixed, random := SortKeys(fixed), SortKeys(random);
    var total := PlannedCount(t.names, axes, maxVariants);
    if total.Err? {
      return Err(BadPlan(total.error)), used;
    }
    FixedNames(t.names, axes);
    ProductSplits(t.names, axes);
    var values := FixedAxisValues(fixed, axes);
    CellFacts(fixed, axes);
    var cells := Cartesian(fixed, values.value);
    r, used := ExpandCells(t, cells, random, axes, draws, NameSet(fixed), trim);
    if r.Ok? {
      ProgressCompletes(r.value, t, axes, trim);
      NoDrawFailed(draws, used, CountsOf(random, axes));
    }
  }
}
