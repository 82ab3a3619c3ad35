/**
 * `BooleanFilter`: the filter for boolean fields. Values are "true" or "false"
 * in any letter case, or the null sentinel; the methods are `equals` and
 * `not-equals`, joined over several values like every other filter.
 */
module BooleanFilter {
  import opened Wrappers
  import opened Text
  import opened Predicates

  /** The lower-case spelling a value must match, ignoring case. */
  function Spelling(b: bool): string {
    if b then "true" else "false"
  }

  /**
   * Reads one raw value: `null` and "" are the null sentinel, "true" and
   * "false" in any letter case are the booleans, anything else is a failure.
   */
  function ParseValue(raw: Option<string>): (r: Parsed<bool>)
    ensures r.Null? <==> raw == None || raw == Some("")
    ensures r.Typed? ==> raw.Some? && Lower(raw.value) == Spelling(r.value)
  {
    match raw
    case None => Null
    case Some(s) =>
      if s == "" then Null
      else if Lower(s) == "true" then Typed(true)
      else if Lower(s) == "false" then Typed(false)
      else Invalid
  }

  function ParseValues(values: seq<Option<string>>): seq<Parsed<bool>> {
    seq(|values|, i requires 0 <= i < |values| => ParseValue(values[i]))
  }

  /**
   * The comparison each method name stands for: only "equals" and
   * "not-equals" are known, and any other method gives None.
   */
  function MethodOp(name: string): (r: Option<Op>)
    ensures r.Some? <==> name == "equals" || name == "not-equals"
    ensures r.Some? ==> (r.value == Equal <==> name == "equals")
    ensures r.Some? ==> !r.value.IsOrdering()
  {
    match name
    case "equals" => Some(Equal)
    case "not-equals" => Some(NotEqual)
    case _ => None
  }

  /**
   * `BooleanFilter.Apply`: the predicate for `name` over `values`, or None
   * when the method is unknown, there are no values, or any value fails to
   * parse.
   */
  function Apply(name: string, values: seq<Option<string>>): (r: Option<Pred<bool>>)
    ensures r.Some? <==>
      && MethodOp(name).Some?
      && |values| > 0
      && forall i :: 0 <= i < |values| ==> !ParseValue(values[i]).Invalid?
  {
    var parsed := ParseValues(values);
    assert forall i :: 0 <= i < |values| ==> parsed[i] == ParseValue(values[i]);
    match MethodOp(name)
    case None => None
    case Some(op) => Build(op, parsed)
  }

  // -----------------------------------------------------------------------
  // Parsing
  // -----------------------------------------------------------------------

  /** A text reads as boolean `b` exactly when it spells `b` ignoring case. */
  lemma ParseIgnoresCase(s: string, b: bool)
    requires s != ""
    ensures ParseValue(Some(s)) == Typed(b) <==> Lower(s) == Spelling(b)
  {
  }

  /** "true" and "TRUE" read as true. */
  lemma ParseTrueExamples()
    ensures ParseValue(Some("true")) == Typed(true)
    ensures ParseValue(Some("TRUE")) == Typed(true)
  {
    assert Lower("TRUE") == "true";
  }

  /** "false" and "FALSE" read as false. */
  lemma ParseFalseExamples()
    ensures ParseValue(Some("false")) == Typed(false)
    ensures ParseValue(Some("FALSE")) == Typed(false)
  {
    assert Lower("FALSE") == "false";
  }

  /** "" and null are the null sentinel, and "Test" is no boolean. */
  lemma ParseOtherExamples()
    ensures ParseValue(Some("Test")) == Invalid
    ensures ParseValue(Some("")) == Null && ParseValue(None) == Null
  {
    assert Lower("Test") == "test";
  }

  /** A value that is no boolean, or an unknown method, gives no filter. */
  lemma BadInputRejected()
    ensures Apply("equals", [Some("Test")]) == None
    ensures Apply("test", [Some("false")]) == None
  {
    ParseOtherExamples();
  }

  // -----------------------------------------------------------------------
  // One value
  // -----------------------------------------------------------------------

  /**
   * With one value, `equals` is C#'s lifted `==` against it and `not-equals`
   * the lifted `!=`: a concrete `not-equals` also keeps records whose field
   * is absent.
   */
  lemma SingleValueIsLifted(raw: Option<string>, x: Option<bool>)
    requires !ParseValue(raw).Invalid?
    ensures Apply("equals", [raw]).Some? && Apply("not-equals", [raw]).Some?
    ensures Eval(Apply("equals", [raw]).value, x, BoolBelow) <==> x == ParseValue(raw).Operand()
    ensures Eval(Apply("not-equals", [raw]).value, x, BoolBelow) <==> x != ParseValue(raw).Operand()
  {
    var values := ParseValues([raw]);
    assert values == [ParseValue(raw)];
    BuildMeaning(Equal, values, x, BoolBelow);
    BuildMeaning(NotEqual, values, x, BoolBelow);
  }

  // -----------------------------------------------------------------------
  // Several values
  // -----------------------------------------------------------------------

  /** Nullable `equals ["", "false"]` keeps exactly the records whose value is not true. */
  lemma NullableEqualsNullOrFalse(x: Option<bool>)
    ensures Apply("equals", [Some(""), Some("false")]).Some?
    ensures Eval(Apply("equals", [Some(""), Some("false")]).value, x, BoolBelow) <==> x != Some(true)
  {
    var values := ParseValues([Some(""), Some("false")]);
    assert values == [Null, Typed(false)];
    BuildMeaning(Equal, values, x, BoolBelow);
    match x
    case None => assert Lifted(Equal, x, values[0].Operand(), BoolBelow);
    case Some(b) =>
      if !b {
        assert Lifted(Equal, x, values[1].Operand(), BoolBelow);
      }
  }

  /** Non-nullable `equals ["true", "false"]` keeps every record. */
  lemma EqualsTrueOrFalseKeepsAll(b: bool)
    ensures Apply("equals", [Some("true"), Some("false")]).Some?
    ensures Eval(Apply("equals", [Some("true"), Some("false")]).value, Some(b), BoolBelow)
  {
    var values := ParseValues([Some("true"), Some("false")]);
    assert values == [Typed(true), Typed(false)];
    BuildMeaning(Equal, values, Some(b), BoolBelow);
  }

  /** Nullable `not-equals ["", "false"]` keeps exactly the records whose value is true. */
  lemma NullableNotEqualsNullOrFalse(x: Option<bool>)
    ensures Apply("not-equals", [Some(""), Some("false")]).Some?
    ensures Eval(Apply("not-equals", [Some(""), Some("false")]).value, x, BoolBelow) <==> x == Some(true)
  {
    var values := ParseValues([Some(""), Some("false")]);
    assert values == [Null, Typed(false)];
    BuildMeaning(NotEqual, values, x, BoolBelow);
    match x
    case None => assert !Lifted(NotEqual, x, values[0].Operand(), BoolBelow);
    case Some(b) =>
      if !b {
        assert !Lifted(NotEqual, x, values[1].Operand(), BoolBelow);
      }
  }

  /** Non-nullable `not-equals ["true", "false"]` keeps no record. */
  lemma NotEqualsTrueOrFalseKeepsNone(b: bool)
    ensures Apply("not-equals", [Some("true"), Some("false")]).Some?
    ensures !Eval(Apply("not-equals", [Some("true"), Some("false")]).value, Some(b), BoolBelow)
  {
    var values := ParseValues([Some("true"), Some("false")]);
    assert values == [Typed(true), Typed(false)];
    BuildMeaning(NotEqual, values, Some(b), BoolBelow);
  }
}
