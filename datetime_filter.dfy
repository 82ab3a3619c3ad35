/**
 * `DateTimeFilter`: the filter for date fields. It takes one raw value and one
 * method (its `Type`), reads the value as a point in time and compares the
 * field against it.
 *
 * Reading a date depends on the culture (`ToString()`, "d", "D" and the
 * invariant forms are all accepted), so the reader is a parameter: `parse`
 * maps a text to the instant it denotes, as DateTime ticks, or to None.
 */
module DateTimeFilter {
  import opened Wrappers
  import opened Predicates

  /** The name under which each comparison is offered. */
  function MethodName(op: Op): string {
    match op
    case Equal => "equals"
    case NotEqual => "not-equals"
    case Less => "earlier-than"
    case Greater => "later-than"
    case LessOrEqual => "earlier-than-or-equal"
    case GreaterOrEqual => "later-than-or-equal"
  }

  /**
   * The comparison each method name stands for; None for an unknown method.
   * Only the six names are known, and each stands for a different comparison.
   */
  function MethodOp(name: string): (r: Option<Op>)
    ensures r.Some? ==> MethodName(r.value) == name
  {
    match name
    case "equals" => Some(Equal)
    case "not-equals" => Some(NotEqual)
    case "earlier-than" => Some(Less)
    case "later-than" => Some(Greater)
    case "earlier-than-or-equal" => Some(LessOrEqual)
    case "later-than-or-equal" => Some(GreaterOrEqual)
    case _ => None
  }

  /** Every comparison is offered under its name. */
  lemma MethodNameIsKnown(op: Op)
    ensures MethodOp(MethodName(op)) == Some(op)
  {
  }

  /**
   * `DateTimeFilter.Apply`: one comparison of the field with the date the
   * value denotes, or None when the value is missing or is no date, or the
   * method is unknown.
   */
  function Apply(parse: string -> Option<int>, name: string, value: Option<string>): (r: Option<Pred<int>>)
    ensures r.Some? <==> MethodOp(name).Some? && value.Some? && parse(value.value).Some?
    ensures r.Some? ==> r.value.Compare? && r.value.operand == parse(value.value)
  {
    match value
    case None => None
    case Some(text) =>
      match parse(text)
      case None => None
      case Some(date) =>
        match MethodOp(name)
        case None => None
        case Some(op) => Some(Compare(op, Some(date)))
  }

  /**
   * On a present field `equals` and `not-equals` are the native `==` and `!=`;
   * on an absent one `equals` fails and `not-equals` holds.
   */
  lemma EqualityIsNative(parse: string -> Option<int>, text: string, date: int, y: int)
    requires parse(text) == Some(date)
    ensures Apply(parse, "equals", Some(text)).Some? && Apply(parse, "not-equals", Some(text)).Some?
    ensures Eval(Apply(parse, "equals", Some(text)).value, Some(y), IntBelow) <==> y == date
    ensures Eval(Apply(parse, "not-equals", Some(text)).value, Some(y), IntBelow) <==> y != date
    ensures !Eval(Apply(parse, "equals", Some(text)).value, None, IntBelow)
    ensures Eval(Apply(parse, "not-equals", Some(text)).value, None, IntBelow)
  {
  }

  /**
   * The ordering methods compare as `earlier-than` `<`, `later-than` `>`,
   * `earlier-than-or-equal` `<=`, `later-than-or-equal` `>=`, and never keep a
   * record whose date is absent.
   */
  lemma OrderingIsNative(parse: string -> Option<int>, text: string, date: int, y: int)
    requires parse(text) == Some(date)
    ensures Eval(Apply(parse, "earlier-than", Some(text)).value, Some(y), IntBelow) <==> y < date
    ensures Eval(Apply(parse, "later-than", Some(text)).value, Some(y), IntBelow) <==> y > date
    ensures Eval(Apply(parse, "earlier-than-or-equal", Some(text)).value, Some(y), IntBelow) <==> y <= date
    ensures Eval(Apply(parse, "later-than-or-equal", Some(text)).value, Some(y), IntBelow) <==> y >= date
    ensures !Eval(Apply(parse, "earlier-than", Some(text)).value, None, IntBelow)
    ensures !Eval(Apply(parse, "later-than", Some(text)).value, None, IntBelow)
    ensures !Eval(Apply(parse, "earlier-than-or-equal", Some(text)).value, None, IntBelow)
    ensures !Eval(Apply(parse, "later-than-or-equal", Some(text)).value, None, IntBelow)
  {
  }

  /**
   * Of three dates a < b < c, `later-than` b keeps only c, and
   * `earlier-than` b keeps only a.
   */
  lemma LaterThanScenario(parse: string -> Option<int>, text: string, a: int, b: int, c: int)
    requires a < b < c && parse(text) == Some(b)
    ensures Apply(parse, "later-than", Some(text)).Some?
    ensures !Eval(Apply(parse, "later-than", Some(text)).value, Some(a), IntBelow)
    ensures !Eval(Apply(parse, "later-than", Some(text)).value, Some(b), IntBelow)
    ensures Eval(Apply(parse, "later-than", Some(text)).value, Some(c), IntBelow)
    ensures Eval(Apply(parse, "earlier-than", Some(text)).value, Some(a), IntBelow)
    ensures !Eval(Apply(parse, "earlier-than", Some(text)).value, Some(b), IntBelow)
    ensures !Eval(Apply(parse, "earlier-than", Some(text)).value, Some(c), IntBelow)
  {
  }

  /** A text that is no date, or an unknown method, gives no filter. */
  lemma BadInputRejected(parse: string -> Option<int>, name: string, text: string)
    ensures parse(text) == None ==> Apply(parse, name, Some(text)) == None
    ensures Apply(parse, "test", Some(text)) == None
  {
  }
}
