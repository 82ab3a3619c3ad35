/**
 * `NumberFilter<T>`: the filter for the numeric field kinds. Each raw value is
 * read as a number of kind T (or the null sentinel), and the method picks the
 * comparison; several values are joined with OR, or with AND for `not-equals`.
 */
module NumberFilter {
  import opened Wrappers
  import opened Text
  import opened Predicates

  /** The numeric kinds `NumberFilter<T>` is instantiated with. */
  datatype NumericKind = SByte | Byte | Int16 | UInt16 | Int32 | UInt32 | Int64 | UInt64 | Single | Double | Decimal

  function Pow2(e: nat): nat {
    if e == 0 then 1 else 2 * Pow2(e - 1)
  }

  /**
   * The largest integer a literal may have for each kind. For the integer kinds
   * and Decimal this is the kind's `MaxValue`; for Single and Double it is the
   * largest integer that does not round to infinity (IEEE-754 round to nearest,
   * ties to even: the overflow threshold is MaxValue plus half a unit in the
   * last place).
   */
  function MaxValue(kind: NumericKind): int {
    match kind
    case SByte => 127
    case Byte => 255
    case Int16 => 32767
    case UInt16 => 65535
    case Int32 => 2147483647
    case UInt32 => 4294967295
    case Int64 => 9223372036854775807
    case UInt64 => 18446744073709551615
    case Single => Pow2(128) - Pow2(103) - 1
    case Double => Pow2(1024) - Pow2(970) - 1
    case Decimal => 79228162514264337593543950335
  }

  /** The smallest integer a literal may have for each kind. */
  function MinValue(kind: NumericKind): int {
    match kind
    case SByte => -128
    case Int16 => -32768
    case Int32 => -2147483648
    case Int64 => -9223372036854775808
    case Byte | UInt16 | UInt32 | UInt64 => 0
    case Single | Double | Decimal => -MaxValue(kind)
  }

  predicate InRange(kind: NumericKind, n: int) {
    MinValue(kind) <= n <= MaxValue(kind)
  }

  /**
   * Reads one raw value: `null` and "" are the null sentinel; an integer
   * literal inside the kind's range is a typed value; everything else,
   * including a literal out of range, is a failure (never clamped or wrapped).
   */
  function ParseValue(kind: NumericKind, raw: Option<string>): (r: Parsed<int>)
    ensures r.Typed? ==> InRange(kind, r.value)
    ensures r.Null? <==> raw == None || raw == Some("")
  {
    match raw
    case None => Null
    case Some(s) =>
      if s == "" then Null
      else
        match ParseInteger(s)
        case Some(n) => if InRange(kind, n) then Typed(n) else Invalid
        case None => Invalid
  }

  function ParseValues(kind: NumericKind, values: seq<Option<string>>): seq<Parsed<int>> {
    seq(|values|, i requires 0 <= i < |values| => ParseValue(kind, values[i]))
  }

  /** The name under which each comparison is offered. */
  function MethodName(op: Op): string {
    match op
    case Equal => "equals"
    case NotEqual => "not-equals"
    case Less => "less-than"
    case Greater => "greater-than"
    case LessOrEqual => "less-than-or-equal"
    case GreaterOrEqual => "greater-than-or-equal"
  }

  /**
   * The comparison each method name stands for; None for an unknown method.
   * Only the six names are known, and each stands for a different comparison.
   */
  function MethodOp(name: string): (r: Option<Op>)
    ensures r.Some? ==> MethodName(r.value) == name
  {
    match name
    case "equals" => Some(Equal)
    case "not-equals" => Some(NotEqual)
    case "less-than" => Some(Less)
    case "greater-than" => Some(Greater)
    case "less-than-or-equal" => Some(LessOrEqual)
    case "greater-than-or-equal" => Some(GreaterOrEqual)
    case _ => None
  }

  /** Every comparison is offered under its name. */
  lemma MethodNameIsKnown(op: Op)
    ensures MethodOp(MethodName(op)) == Some(op)
  {
  }

  /**
   * `NumberFilter<T>.Apply`: the predicate for `method` over `values`, or None
   * (no filter) when the method is unknown, there are no values, or any one
   * value fails to parse.
   */
  function Apply(kind: NumericKind, name: string, values: seq<Option<string>>): (r: Option<Pred<int>>)
    ensures r.Some? <==>
      && MethodOp(name).Some?
      && |values| > 0
      && forall i :: 0 <= i < |values| ==> !ParseValue(kind, values[i]).Invalid?
  {
    var parsed := ParseValues(kind, values);
    assert forall i :: 0 <= i < |values| ==> parsed[i] == ParseValue(kind, values[i]);
    match MethodOp(name)
    case None => None
    case Some(op) => Build(op, parsed)
  }

  /** The comparison operators of C# on two integers. */
  predicate Native(op: Op, a: int, b: int) {
    match op
    case Equal => a == b
    case NotEqual => a != b
    case Less => a < b
    case Greater => a > b
    case LessOrEqual => a <= b
    case GreaterOrEqual => a >= b
  }

  // -----------------------------------------------------------------------
  // Parsing and bounds
  // -----------------------------------------------------------------------

  /**
   * The printed form of an integer is accepted exactly when the integer lies
   * within the kind's bounds, and then reads back as that integer.
   */
  lemma RangeIsExact(kind: NumericKind, n: int)
    ensures ParseValue(kind, Some(Show(n))) == if InRange(kind, n) then Typed(n) else Invalid
  {
    ParseShow(n);
    assert Show(n) != "" by {
      assert ParseInteger(Show(n)).Some?;
    }
  }

  /** A literal one past the kind's maximum or one below its minimum gives no filter. */
  lemma OnePastTheBoundsRejected(kind: NumericKind, name: string)
    ensures Apply(kind, name, [Some(Show(MaxValue(kind) + 1))]) == None
    ensures Apply(kind, name, [Some(Show(MinValue(kind) - 1))]) == None
  {
    RangeIsExact(kind, MaxValue(kind) + 1);
    RangeIsExact(kind, MinValue(kind) - 1);
  }

  /** The Byte literals just outside its range, as written, give no filter. */
  lemma ByteBoundsRejected()
    ensures Apply(Byte, "equals", [Some("256")]) == None
    ensures Apply(Byte, "equals", [Some("-1")]) == None
  {
  }

  /** The SByte literals just outside its range, as written, give no filter. */
  lemma SByteBoundsRejected()
    ensures Apply(SByte, "equals", [Some("128")]) == None
    ensures Apply(SByte, "equals", [Some("-129")]) == None
  {
  }

  /** The Int16 literals just outside its range, as written, give no filter. */
  lemma Int16BoundsRejected()
    ensures Apply(Int16, "equals", [Some("32768")]) == None
    ensures Apply(Int16, "equals", [Some("-32769")]) == None
  {
  }

  /** The UInt16 literals just outside its range, as written, give no filter. */
  lemma UInt16BoundsRejected()
    ensures Apply(UInt16, "equals", [Some("65536")]) == None
    ensures Apply(UInt16, "equals", [Some("-1")]) == None
  {
  }

  /** Unsigned kinds reject a negative literal. */
  lemma UnsignedRejectsNegative()
    ensures Apply(UInt32, "equals", [Some("-1")]) == None
    ensures Apply(UInt64, "equals", [Some("-1")]) == None
  {
  }

  /**
   * One non-empty value that is not an integer literal gives no filter,
   * whatever the kind, the method and the other values.
   */
  lemma NonNumericRejected(kind: NumericKind, name: string, values: seq<Option<string>>, i: int)
    requires 0 <= i < |values| && values[i].Some?
    requires values[i].value != "" && !IsIntegerLiteral(values[i].value)
    ensures Apply(kind, name, values) == None
  {
    assert ParseValue(kind, values[i]).Invalid?;
  }

  /**
   * "test", "1.5", "1e3" and " 1" are no integer literals, so none gives a
   * filter. For "test", and for "1.5" and "1e3" with the eight integer kinds,
   * .NET rejects them as well; " 1" with any kind, and "1.5" and "1e3" with
   * Single, Double and Decimal, are rejected only because this model reads
   * integer literals alone.
   */
  lemma NonNumericExamples(kind: NumericKind, name: string)
    ensures Apply(kind, name, [Some("test")]) == None
    ensures Apply(kind, name, [Some("1.5")]) == None
    ensures Apply(kind, name, [Some("1e3")]) == None
    ensures Apply(kind, name, [Some(" 1")]) == None
  {
    assert !IsDigit("test"[0]) && !IsDigit("1.5"[1]) && !IsDigit("1e3"[1]) && !IsDigit(" 1"[0]);
    NonNumericRejected(kind, name, [Some("test")], 0);
    NonNumericRejected(kind, name, [Some("1.5")], 0);
    NonNumericRejected(kind, name, [Some("1e3")], 0);
    NonNumericRejected(kind, name, [Some(" 1")], 0);
  }

  // -----------------------------------------------------------------------
  // One value
  // -----------------------------------------------------------------------

  /**
   * With one in-range value, a present field passes exactly when the native
   * operator holds between it and the value, and an absent field passes only
   * `not-equals`.
   */
  lemma SingleValueIsNativeComparison(kind: NumericKind, name: string, n: int, y: int)
    requires MethodOp(name).Some? && InRange(kind, n)
    ensures Apply(kind, name, [Some(Show(n))]).Some?
    ensures Eval(Apply(kind, name, [Some(Show(n))]).value, Some(y), IntBelow) <==> Native(MethodOp(name).value, y, n)
    ensures Eval(Apply(kind, name, [Some(Show(n))]).value, None, IntBelow) <==> name == "not-equals"
  {
    RangeIsExact(kind, n);
    var values := ParseValues(kind, [Some(Show(n))]);
    assert values == [Typed(n)];
    BuildMeaning(MethodOp(name).value, values, Some(y), IntBelow);
    BuildMeaning(MethodOp(name).value, values, None, IntBelow);
  }

  /**
   * The six method names against one in-range value n: `equals` is `==`,
   * `not-equals` `!=`, `less-than` `<`, `greater-than` `>`,
   * `less-than-or-equal` `<=` and `greater-than-or-equal` `>=`.
   */
  lemma NamedOperators(kind: NumericKind, n: int, y: int)
    requires InRange(kind, n)
    ensures forall name :: MethodOp(name).Some? ==> Apply(kind, name, [Some(Show(n))]).Some?
    ensures Eval(Apply(kind, "equals", [Some(Show(n))]).value, Some(y), IntBelow) <==> y == n
    ensures Eval(Apply(kind, "not-equals", [Some(Show(n))]).value, Some(y), IntBelow) <==> y != n
    ensures Eval(Apply(kind, "less-than", [Some(Show(n))]).value, Some(y), IntBelow) <==> y < n
    ensures Eval(Apply(kind, "greater-than", [Some(Show(n))]).value, Some(y), IntBelow) <==> y > n
    ensures Eval(Apply(kind, "less-than-or-equal", [Some(Show(n))]).value, Some(y), IntBelow) <==> y <= n
    ensures Eval(Apply(kind, "greater-than-or-equal", [Some(Show(n))]).value, Some(y), IntBelow) <==> y >= n
  {
    forall name | MethodOp(name).Some? ensures Apply(kind, name, [Some(Show(n))]).Some? {
      SingleValueIsNativeComparison(kind, name, n, y);
    }
    SingleValueIsNativeComparison(kind, "equals", n, y);
    SingleValueIsNativeComparison(kind, "not-equals", n, y);
    SingleValueIsNativeComparison(kind, "less-than", n, y);
    SingleValueIsNativeComparison(kind, "greater-than", n, y);
    SingleValueIsNativeComparison(kind, "less-than-or-equal", n, y);
    SingleValueIsNativeComparison(kind, "greater-than-or-equal", n, y);
  }

  /**
   * The null sentinel with `equals` keeps exactly the records whose field is
   * absent; on a non-nullable field (always present) it keeps none.
   */
  lemma NullEqualsMatchesAbsent(kind: NumericKind, raw: Option<string>, x: Option<int>)
    requires raw == None || raw == Some("")
    ensures Apply(kind, "equals", [raw]).Some?
    ensures Eval(Apply(kind, "equals", [raw]).value, x, IntBelow) <==> x == None
  {
    BuildMeaning(Equal, ParseValues(kind, [raw]), x, IntBelow);
  }

  /**
   * The null sentinel with `not-equals` keeps exactly the records whose field
   * is present; on a non-nullable field it keeps every record.
   */
  lemma NullNotEqualsMatchesPresent(kind: NumericKind, raw: Option<string>, x: Option<int>)
    requires raw == None || raw == Some("")
    ensures Apply(kind, "not-equals", [raw]).Some?
    ensures Eval(Apply(kind, "not-equals", [raw]).value, x, IntBelow) <==> x.Some?
  {
    BuildMeaning(NotEqual, ParseValues(kind, [raw]), x, IntBelow);
  }

  /** An ordering method against the null sentinel keeps no record at all. */
  lemma NullOrderingMatchesNothing(kind: NumericKind, name: string, raw: Option<string>, x: Option<int>)
    requires MethodOp(name).Some? && MethodOp(name).value.IsOrdering()
    requires raw == None || raw == Some("")
    ensures Apply(kind, name, [raw]).Some?
    ensures !Eval(Apply(kind, name, [raw]).value, x, IntBelow)
  {
    BuildMeaning(MethodOp(name).value, ParseValues(kind, [raw]), x, IntBelow);
  }

  /** An ordering method never keeps a record whose field is absent, whatever the values. */
  lemma OrderingNeverMatchesAbsent(kind: NumericKind, name: string, values: seq<Option<string>>)
    requires MethodOp(name).Some? && MethodOp(name).value.IsOrdering()
    requires Apply(kind, name, values).Some?
    ensures !Eval(Apply(kind, name, values).value, None, IntBelow)
  {
    BuildMeaning(MethodOp(name).value, ParseValues(kind, values), None, IntBelow);
  }

  // -----------------------------------------------------------------------
  // Several values
  // -----------------------------------------------------------------------

  /**
   * Every method but `not-equals` is the OR of its single-value filters: the
   * filter exists when each single-value one does, and keeps a record when
   * some single-value one keeps it.
   */
  lemma DisjunctionOfSingles(kind: NumericKind, name: string, values: seq<Option<string>>, x: Option<int>)
    requires MethodOp(name).Some? && name != "not-equals"
    ensures Apply(kind, name, values).Some? <==>
      |values| > 0 && forall i :: 0 <= i < |values| ==> Apply(kind, name, [values[i]]).Some?
    ensures Apply(kind, name, values).Some? ==>
      (Eval(Apply(kind, name, values).value, x, IntBelow) <==>
       exists i :: 0 <= i < |values| && Eval(Apply(kind, name, [values[i]]).value, x, IntBelow))
  {
    var op := MethodOp(name).value;
    forall i | 0 <= i < |values|
      ensures ParseValues(kind, [values[i]]) == [ParseValues(kind, values)[i]]
    {
    }
    if Apply(kind, name, values).Some? {
      BuildMeaning(op, ParseValues(kind, values), x, IntBelow);
      forall i | 0 <= i < |values|
        ensures Eval(Apply(kind, name, [values[i]]).value, x, IntBelow) <==>
                Lifted(op, x, ParseValues(kind, values)[i].Operand(), IntBelow)
      {
        BuildMeaning(op, ParseValues(kind, [values[i]]), x, IntBelow);
      }
    }
  }

  /**
   * `not-equals` is the AND of its single-value filters: it keeps a record
   * when every single-value filter keeps it.
   */
  lemma ConjunctionOfSingles(kind: NumericKind, values: seq<Option<string>>, x: Option<int>)
    ensures Apply(kind, "not-equals", values).Some? <==>
      |values| > 0 && forall i :: 0 <= i < |values| ==> Apply(kind, "not-equals", [values[i]]).Some?
    ensures Apply(kind, "not-equals", values).Some? ==>
      (Eval(Apply(kind, "not-equals", values).value, x, IntBelow) <==>
       forall i :: 0 <= i < |values| ==> Eval(Apply(kind, "not-equals", [values[i]]).value, x, IntBelow))
  {
    forall i | 0 <= i < |values|
      ensures ParseValues(kind, [values[i]]) == [ParseValues(kind, values)[i]]
    {
    }
    if Apply(kind, "not-equals", values).Some? {
      BuildMeaning(NotEqual, ParseValues(kind, values), x, IntBelow);
      forall i | 0 <= i < |values|
        ensures Eval(Apply(kind, "not-equals", [values[i]]).value, x, IntBelow) <==>
                Lifted(NotEqual, x, ParseValues(kind, values)[i].Operand(), IntBelow)
      {
        BuildMeaning(NotEqual, ParseValues(kind, [values[i]]), x, IntBelow);
      }
    }
  }

  /**
   * `not-equals` over some values keeps exactly the records `equals` over the
   * same values drops, and the two exist for the same values.
   */
  lemma NotEqualsNegatesEquals(kind: NumericKind, values: seq<Option<string>>, x: Option<int>)
    ensures Apply(kind, "not-equals", values).Some? <==> Apply(kind, "equals", values).Some?
    ensures Apply(kind, "equals", values).Some? ==>
      (Eval(Apply(kind, "not-equals", values).value, x, IntBelow) <==> !Eval(Apply(kind, "equals", values).value, x, IntBelow))
  {
    if Apply(kind, "equals", values).Some? {
      BuildMeaning(Equal, ParseValues(kind, values), x, IntBelow);
      BuildMeaning(NotEqual, ParseValues(kind, values), x, IntBelow);
    }
  }

  /** Over an Int32 field, `equals ["", "1"]` keeps the absent record and 1 but not 2. */
  lemma MultipleEqualsScenario()
    ensures Apply(Int32, "equals", [Some(""), Some("1")]).Some?
    ensures Eval(Apply(Int32, "equals", [Some(""), Some("1")]).value, None, IntBelow)
    ensures Eval(Apply(Int32, "equals", [Some(""), Some("1")]).value, Some(1), IntBelow)
    ensures !Eval(Apply(Int32, "equals", [Some(""), Some("1")]).value, Some(2), IntBelow)
  {
    var values := ParseValues(Int32, [Some(""), Some("1")]);
    assert values == [Null, Typed(1)];
    BuildMeaning(Equal, values, None, IntBelow);
    BuildMeaning(Equal, values, Some(1), IntBelow);
    BuildMeaning(Equal, values, Some(2), IntBelow);
  }

  /** Over an Int32 field, `not-equals ["", "1"]` keeps 2 but neither the absent record nor 1. */
  lemma MultipleNotEqualsScenario()
    ensures Apply(Int32, "not-equals", [Some(""), Some("1")]).Some?
    ensures !Eval(Apply(Int32, "not-equals", [Some(""), Some("1")]).value, None, IntBelow)
    ensures !Eval(Apply(Int32, "not-equals", [Some(""), Some("1")]).value, Some(1), IntBelow)
    ensures Eval(Apply(Int32, "not-equals", [Some(""), Some("1")]).value, Some(2), IntBelow)
  {
    var values := ParseValues(Int32, [Some(""), Some("1")]);
    assert values == [Null, Typed(1)];
    BuildMeaning(NotEqual, values, None, IntBelow);
    BuildMeaning(NotEqual, values, Some(1), IntBelow);
    BuildMeaning(NotEqual, values, Some(2), IntBelow);
  }

  /**
   * Multi-value orderings are OR-combined, so they collapse onto the loosest
   * bound: `less-than ["1","2"]` keeps what `< 2` keeps.
   */
  lemma MultipleLessThanScenario(x: Option<int>)
    ensures Apply(Int32, "less-than", [Some("1"), Some("2")]).Some?
    ensures Eval(Apply(Int32, "less-than", [Some("1"), Some("2")]).value, x, IntBelow) <==> x.Some? && x.value < 2
  {
    var values := ParseValues(Int32, [Some("1"), Some("2")]);
    assert values == [Typed(1), Typed(2)];
    BuildMeaning(Less, values, x, IntBelow);
  }

  /** `greater-than ["1","2"]` keeps what `> 1` keeps. */
  lemma MultipleGreaterThanScenario(x: Option<int>)
    ensures Apply(Int32, "greater-than", [Some("1"), Some("2")]).Some?
    ensures Eval(Apply(Int32, "greater-than", [Some("1"), Some("2")]).value, x, IntBelow) <==> x.Some? && x.value > 1
  {
    var values := ParseValues(Int32, [Some("1"), Some("2")]);
    assert values == [Typed(1), Typed(2)];
    BuildMeaning(Greater, values, x, IntBelow);
  }

  /** `less-than-or-equal ["0","1"]` keeps what `<= 1` keeps. */
  lemma MultipleLessThanOrEqualScenario(x: Option<int>)
    ensures Apply(Int32, "less-than-or-equal", [Some("0"), Some("1")]).Some?
    ensures Eval(Apply(Int32, "less-than-or-equal", [Some("0"), Some("1")]).value, x, IntBelow) <==> x.Some? && x.value <= 1
  {
    var values := ParseValues(Int32, [Some("0"), Some("1")]);
    assert values == [Typed(0), Typed(1)];
    BuildMeaning(LessOrEqual, values, x, IntBelow);
  }

  /** `greater-than-or-equal ["1","2"]` keeps what `>= 1` keeps. */
  lemma MultipleGreaterThanOrEqualScenario(x: Option<int>)
    ensures Apply(Int32, "greater-than-or-equal", [Some("1"), Some("2")]).Some?
    ensures Eval(Apply(Int32, "greater-than-or-equal", [Some("1"), Some("2")]).value, x, IntBelow) <==> x.Some? && x.value >= 1
  {
    var values := ParseValues(Int32, [Some("1"), Some("2")]);
    assert values == [Typed(1), Typed(2)];
    BuildMeaning(GreaterOrEqual, values, x, IntBelow);
  }

  /**
   * On a nullable field the null sentinel adds nothing to an ordering:
   * `less-than ["", "1"]` keeps what `< 1` keeps.
   */
  lemma MultipleNullableLessThanScenario(x: Option<int>)
    ensures Apply(Int32, "less-than", [Some(""), Some("1")]).Some?
    ensures Eval(Apply(Int32, "less-than", [Some(""), Some("1")]).value, x, IntBelow) <==> x.Some? && x.value < 1
  {
    var values := ParseValues(Int32, [Some(""), Some("1")]);
    assert values == [Null, Typed(1)];
    BuildMeaning(Less, values, x, IntBelow);
  }

  /** An unknown method gives no filter, whatever the values. */
  lemma UnknownMethodRejected(kind: NumericKind, values: seq<Option<string>>)
    ensures Apply(kind, "test", values) == None
  {
  }
}
