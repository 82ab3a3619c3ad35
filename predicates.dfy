/**
 * The predicates the typed filters build. A field value is an `Option<T>`:
 * `None` is a record whose nullable field is absent, and a non-nullable field
 * is always `Some`. Comparisons follow C#'s lifted operators on `Nullable<T>`.
 */
module Predicates {
  import opened Wrappers

  /** The comparison a filter method stands for. */
  datatype Op = Equal | NotEqual | Less | Greater | LessOrEqual | GreaterOrEqual {
    predicate IsOrdering() {
      !(Equal? || NotEqual?)
    }
  }

  /**
   * The outcome of parsing one raw filter value: a typed value, the null
   * sentinel (the raw value was `null` or ""), or a failure.
   */
  datatype Parsed<T> = Typed(value: T) | Null | Invalid {
    /** The right-hand side of the comparison this value stands for. */
    function Operand(): Option<T> {
      if Typed? then Some(value) else None
    }
  }

  /** The natural order of integers (also used for dates, as ticks). */
  predicate IntBelow(a: int, b: int) {
    a < b
  }

  /** `Boolean.CompareTo` puts false before true. */
  predicate BoolBelow(a: bool, b: bool) {
    !a && b
  }

  /**
   * C#'s lifted comparison `x op v` on nullable operands: `==` holds when both
   * are absent, `!=` is its negation, and an ordering is false when either side
   * is absent.
   */
  function Lifted<T(==)>(op: Op, x: Option<T>, v: Option<T>, below: (T, T) -> bool): (r: bool)
    ensures op.IsOrdering() && (x.None? || v.None?) ==> !r
    ensures x.None? && v.None? ==> (r <==> op == Equal)
    ensures x.Some? != v.Some? ==> (r <==> op == NotEqual)
  {
    match op
    case Equal => x == v
    case NotEqual => x != v
    case Less => x.Some? && v.Some? && below(x.value, v.value)
    case Greater => x.Some? && v.Some? && below(v.value, x.value)
    case LessOrEqual => x.Some? && v.Some? && (below(x.value, v.value) || x.value == v.value)
    case GreaterOrEqual => x.Some? && v.Some? && (below(v.value, x.value) || x.value == v.value)
  }

  /** A filter predicate: comparisons joined by OR (`Either`) and AND (`Both`). */
  datatype Pred<T> =
    | Compare(op: Op, operand: Option<T>)
    | Either(left: Pred<T>, right: Pred<T>)
    | Both(left: Pred<T>, right: Pred<T>)

  /** Whether a record whose field holds `x` passes predicate `p`. */
  predicate Eval<T(==)>(p: Pred<T>, x: Option<T>, below: (T, T) -> bool) {
    match p
    case Compare(op, v) => Lifted(op, x, v, below)
    case Either(l, r) => Eval(l, x, below) || Eval(r, x, below)
    case Both(l, r) => Eval(l, x, below) && Eval(r, x, below)
  }

  /**
   * The meaning of a multi-value filter, stated directly: `not-equals` must
   * hold against every value, every other method against at least one.
   */
  predicate Combined<T(==)>(op: Op, values: seq<Parsed<T>>, x: Option<T>, below: (T, T) -> bool) {
    if op == NotEqual then
      forall i :: 0 <= i < |values| ==> Lifted(op, x, values[i].Operand(), below)
    else
      exists i :: 0 <= i < |values| && Lifted(op, x, values[i].Operand(), below)
  }

  /**
   * Folds the per-value comparisons left to right: the first value's
   * comparison, then each further one joined on with AND for `not-equals` and
   * OR otherwise. No values, or any value that failed to parse, give no filter.
   */
  function Build<T(==)>(op: Op, values: seq<Parsed<T>>): (r: Option<Pred<T>>)
    ensures r.Some? <==> |values| > 0 && forall i :: 0 <= i < |values| ==> !values[i].Invalid?
    decreases |values|
  {
    if |values| == 0 then None
    else
      var last := values[|values| - 1];
      var next := Compare(op, last.Operand());
      if last.Invalid? then None
      else if |values| == 1 then Some(next)
      else
        match Build(op, values[..|values| - 1])
        case None => None
        case Some(p) => Some(if op == NotEqual then Both(p, next) else Either(p, next))
  }

  /**
   * The folded predicate means what `Combined` says: a record passes a
   * `not-equals` filter when its field differs from every value, and any
   * other filter when the comparison holds for at least one value.
   */
  lemma {:induction false} BuildMeaning<T>(op: Op, values: seq<Parsed<T>>, x: Option<T>, below: (T, T) -> bool)
    requires Build(op, values).Some?
    ensures Eval(Build(op, values).value, x, below) <==> Combined(op, values, x, below)
    decreases |values|
  {
    var n := |values|;
    if n > 1 {
      var init := values[..n - 1];
      BuildMeaning(op, init, x, below);
      var last := Lifted(op, x, values[n - 1].Operand(), below);
      assert forall i :: 0 <= i < n - 1 ==> init[i] == values[i];
      if op == NotEqual {
        assert Combined(op, values, x, below) <==> Combined(op, init, x, below) && last;
      } else {
        assert Combined(op, values, x, below) <==> Combined(op, init, x, below) || last;
      }
    }
  }
}
