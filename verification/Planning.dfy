/** Counting the variants a template's axes call for before any is made, in 64-bit arithmetic that must
    not overflow. */
module Planning {
  import opened Common

  datatype AxisSpec =
    | ListAxis(values: seq<string>)
    | RangeAxis(from: Int64, to: Int64)
    | RandomAxis(count: Int64, length: Int64)
    | UnknownAxis

  type Axes = map<string, AxisSpec>

  const DEFAULT_RANDOM_LENGTH: Int64 := 8
  const MAX_RANDOM_LENGTH := 64
  const ALPHABET_SIZE := 36

  datatype PlanError =
    | EmptyList(name: string)
    | BackwardRange(name: string)
    | WideRange(name: string)
    | BadCount(name: string)
    | BadLength(name: string)
    | CrowdedSpace(name: string)
    | UnknownKind(name: string)
    | TooMany

  datatype Result<T, E> = Ok(value: T) | Err(error: E)

  /** Two's complement wrap-around of 64 bits. */
  function Wrap64(x: int): (r: Int64)
    ensures -INT64_MAX - 1 <= x <= INT64_MAX ==> r == x
  {
    (x + INT64_MAX + 1) % 0x1_0000_0000_0000_0000 - INT64_MAX - 1
  }

  // ----- What the axes call for, in unbounded arithmetic -----

  function Power(n: nat): (r: nat)
    ensures r >= 1
  {
    if n == 0 then 1 else ALPHABET_SIZE * Power(n - 1)
  }

  function EffectiveLength(length: Int64): Int64 {
    if length <= 0 then DEFAULT_RANDOM_LENGTH else length
  }

  /** How many values an axis has, if it is in order. */
  function Size(spec: AxisSpec): (r: Option<nat>)
    ensures r.Some? ==> r.value >= 1
  {
    match spec
    case ListAxis(values) => if values == [] then None else Some(|values|)
    case RangeAxis(from, to) => if from > to then None else Some(to - from + 1)
    case RandomAxis(count, length) =>
      if count >= 1 && 0 <= length <= MAX_RANDOM_LENGTH && Power(EffectiveLength(length)) >= count then Some(count) else None
    case UnknownAxis => None
  }

  predicate InOrder(names: seq<string>, axes: Axes) {
    forall i | 0 <= i < |names| :: names[i] in axes && Size(axes[names[i]]).Some?
  }

  function Product(names: seq<string>, axes: Axes): (r: nat)
    requires InOrder(names, axes)
    ensures r >= 1
  {
    if names == [] then 1
    else
      var size := Size(axes[names[|names| - 1]]).value;
      ProductPositive(Product(names[..|names| - 1], axes), size);
      Product(names[..|names| - 1], axes) * size
  }

  lemma ProductPositive(a: nat, b: nat)
    requires a >= 1 && b >= 1
    ensures a * b >= a && a * b >= b
  {
    if a > 1 {
      assert (a - 1) * b >= 0;
    }
    assert a * b == (a - 1) * b + b;
    assert a * b == a * (b - 1) + a;
    assert a * (b - 1) >= 0;
  }

  lemma {:induction false} ProductGrows(names: seq<string>, axes: Axes, i: nat)
    requires InOrder(names, axes) && i <= |names|
    ensures Product(names[..i], axes) <= Product(names, axes)
    decreases |names|
  {
    if i == |names| {
      assert names[..i] == names;
    } else {
      var init := names[..|names| - 1];
      ProductGrows(init, axes, i);
      assert init[..i] == names[..i];
      ProductPositive(Product(init, axes), Size(axes[names[|names| - 1]]).value);
    }
  }

  // ----- randomSpace -----

  lemma {:induction false} PowerGrows(m: nat, n: nat)
    requires m <= n
    ensures Power(m) <= Power(n)
    decreases n
  {
    if m < n {
      PowerGrows(m, n - 1);
    }
  }

  /** The multiplication wraps; below the bound it never does. */
  method RandomSpace(length: Int64, count: Int64) returns (enough: bool)
    requires 0 <= length
    ensures count <= INT64_MAX / ALPHABET_SIZE ==> (enough <==> Power(length) >= count)
  {
    var space: Int64 := 1;
    var i: Int64 := 0;
    while i < length
      invariant 0 <= i <= length
      invariant count <= INT64_MAX / ALPHABET_SIZE ==> space == Power(i) && (i == 0 || space < count)
      decreases length - i
    {
      if count <= INT64_MAX / ALPHABET_SIZE {
        FitsBelow(space, count, i);
      }
      space := Wrap64(space * ALPHABET_SIZE);
      if space >= count {
        PowerGrows(i + 1, length);
        return true;
      }
      i := i + 1;
    }
    enough := space >= count;
  }

  lemma FitsBelow(space: int, count: int, i: nat)
    requires count <= INT64_MAX / ALPHABET_SIZE && space == Power(i) && (i == 0 || space < count)
    ensures 0 <= space * ALPHABET_SIZE <= INT64_MAX && space * ALPHABET_SIZE == Power(i + 1)
  {
  }

  // ----- plannedCount -----

  lemma OverLimit(total: nat, size: nat, limit: nat)
    requires 1 <= size
    ensures size > limit || total > limit / size <==> size > limit || total * size > limit
  {
    if total <= limit / size {
      assert total * size <= (limit / size) * size <= limit;
    } else {
      assert (limit / size + 1) * size > limit;
      assert total * size >= (limit / size + 1) * size;
    }
  }

  /** One axis: an error, or its size. Sizes above the limit may be reported as any error. */
  method AxisSize(name: string, spec: AxisSpec, limit: Int64) returns (r: Result<Int64, PlanError>)
    requires 1 <= limit <= INT64_MAX / ALPHABET_SIZE
    requires spec.ListAxis? ==> |spec.values| <= INT64_MAX
    ensures r.Ok? ==> r.value >= 1 && (r.value <= limit ==> Size(spec) == Some(r.value))
    ensures Size(spec).Some? && Size(spec).value <= limit ==> r == Ok(Size(spec).value)
  {
    match spec
    case ListAxis(values) =>
      if |values| == 0 {
        return Err(EmptyList(name));
      }
      r := Ok(|values|);
    case RangeAxis(from, to) =>
      if from > to {
        return Err(BackwardRange(name));
      }
      var width: Int64 := Wrap64(to - from);
      if width < 0 || width >= limit {
        return Err(WideRange(name));
      }
      var size: Int64 := width + 1;
      r := Ok(size);
    case RandomAxis(count, length) =>
      if count < 1 {
        return Err(BadCount(name));
      }
      if length < 0 || length > MAX_RANDOM_LENGTH {
        return Err(BadLength(name));
      }
      var enough := RandomSpace(EffectiveLength(length), count);
      if !enough {
        return Err(CrowdedSpace(name));
      }
      r := Ok(count);
    case UnknownAxis => return Err(UnknownKind(name));
  }

  /** The running product times one more size, if that is within the limit; division tests it without
      computing it. */
  method Multiply(total: Int64, size: Int64, limit: Int64) returns (r: Option<Int64>)
    requires 1 <= total <= limit && 1 <= size
    ensures r == if total * size <= limit then Some(total * size) else None
    ensures r.Some? ==> size <= limit
  {
    OverLimit(total, size, limit);
    if size > limit || total > limit / size {
      return None;
    }
    var product: Int64 := total * size;
    r := Some(product);
  }

  predicate Fits(names: seq<string>, axes: Axes, limit: int) {
    InOrder(names, axes) && Product(names, axes) <= limit
  }

  /** One axis more, and what a plan of all axes needs of it. */
  lemma NextProduct(names: seq<string>, axes: Axes, i: nat, limit: int)
    requires i < |names| && (forall k | 0 <= k < |names| :: names[k] in axes) && InOrder(names[..i], axes)
    ensures var size := Size(axes[names[i]]);
            && (InOrder(names[..i + 1], axes) <==> size.Some?)
            && (size.Some? ==> Product(names[..i + 1], axes) == Product(names[..i], axes) * size.value)
            && (Fits(names, axes, limit) ==>
                  size.Some? && size.value <= limit && Product(names[..i], axes) * size.value <= limit)
  {
    var size := Size(axes[names[i]]);
    assert names[..i + 1] == names[..i] + [names[i]] && names[..i + 1][..i] == names[..i];
    if InOrder(names, axes) {
      ProductGrows(names, axes, i + 1);
      ProductPositive(Product(names[..i], axes), size.value);
    }
  }

  /** One iteration: the product of one size more, or the reason why there is no plan. */
  method PlanNext(names: seq<string>, axes: Axes, i: nat, total: Int64, limit: Int64) returns (r: Result<Int64, PlanError>)
    requires 1 <= limit <= INT64_MAX / ALPHABET_SIZE && i < |names|
    requires forall k | 0 <= k < |names| :: names[k] in axes
    requires forall n | n in axes && axes[n].ListAxis? :: |axes[n].values| <= INT64_MAX
    requires Fits(names[..i], axes, limit) && total == Product(names[..i], axes)
    ensures r.Ok? ==> Fits(names[..i + 1], axes, limit) && r.value == Product(names[..i + 1], axes)
    ensures r.Err? ==> !Fits(names, axes, limit)
  {
    NextProduct(names, axes, i, limit);
    var size := AxisSize(names[i], axes[names[i]], limit);
    if size.Err? {
      return Err(size.error);
    }
    var product := Multiply(total, size.value, limit);
    r := if product.Some? then Ok(product.value) else Err(TooMany);
  }

  /** Planning succeeds exactly when every axis is in order and the product of their sizes is within the
      limit, and returns that product. Every intermediate value fits 64 bits. */
  method PlannedCount(placeholders: seq<string>, axes: Axes, limit: Int64) returns (r: Result<Int64, PlanError>)
    requires 1 <= limit <= INT64_MAX / ALPHABET_SIZE
    requires forall i | 0 <= i < |placeholders| :: placeholders[i] in axes
    requires forall n | n in axes && axes[n].ListAxis? :: |axes[n].values| <= INT64_MAX
    ensures r.Ok? <==> InOrder(placeholders, axes) && Product(placeholders, axes) <= limit
    ensures r.Ok? ==> r.value == Product(placeholders, axes)
  {
    var total: Int64 := 1;
    var i := 0;
    while i < |placeholders|
      invariant 0 <= i <= |placeholders|
      invariant Fits(placeholders[..i], axes, limit) && total == Product(placeholders[..i], axes)
    {
      var next := PlanNext(placeholders, axes, i, total, limit);
      if next.Err? {
        return Err(next.error);
      }
      total := next.value;
      i := i + 1;
    }
    assert placeholders[..i] == placeholders;
    r := Ok(total);
  }
}
