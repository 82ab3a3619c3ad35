/**
 * `GridFilters`: the registry that maps a column's declared type and a
 * method name to the filter that handles it. Method names are stored
 * lower-case and `Nullable<T>` is folded onto `T`, so a lookup ignores case
 * and nullability; a later registration under the same key replaces an
 * earlier one.
 */
module Filtering {
  import opened Wrappers
  import opened Text
  import Number = NumberFilter
  import Date = DateTimeFilter
  import Bool = BooleanFilter

  /**
   * The types a registry is keyed by: the built-in kinds, and any other type
   * by name. `Other` is only for types that are not built in: `Other` never
   * names a numeric type, DateTime, Boolean or String.
   */
  datatype ClrType =
    | Numeric(kind: Number.NumericKind)
    | DateTime
    | Boolean
    | String
    | Other(name: string)

  /** A column's declared type: `T` itself, or `Nullable<T>`. */
  datatype DeclaredType = Exactly(underlying: ClrType) | NullableOf(underlying: ClrType)

  /**
   * The filter classes a registration names: the built-in ones, and a
   * user-supplied filter class by name.
   */
  datatype FilterTag =
    | NumberFilter(kind: Number.NumericKind)
    | DateTimeFilter
    | BooleanFilter
    | StringEqualsFilter
    | StringNotEqualsFilter
    | StringContainsFilter
    | StringStartsWithFilter
    | StringEndsWithFilter
    | Custom(name: string)

  /** A filter instance as `GetFilter` hands it out: its class and its `Method`. */
  datatype GridFilter = GridFilter(kind: FilterTag, methodName: string)

  /** Declared type (with `Nullable<T>` folded onto `T`) to lower-case method name to filter. */
  type Table = map<ClrType, map<string, FilterTag>>

  /** Two (type, method) pairs that land on the same registry entry. */
  predicate SameKey(t: DeclaredType, name: string, u: DeclaredType, m: string) {
    t.underlying == u.underlying && Lower(name) == Lower(m)
  }

  /** Every stored method name is lower-case. */
  predicate Normalised(table: Table) {
    forall c, m :: c in table && m in table[c] ==> IsLower(m)
  }

  /**
   * The filter registered for a type and method: the entry stored under the
   * type with `Nullable<T>` folded onto `T` and the lower-cased name, or None
   * when either key is missing.
   */
  function Lookup(table: Table, t: DeclaredType, name: string): (r: Option<FilterTag>)
    ensures r.Some? <==> t.underlying in table && Lower(name) in table[t.underlying]
    ensures r.Some? ==> r.value == table[t.underlying][Lower(name)]
  {
    var key := t.underlying;
    var m := Lower(name);
    if key in table && m in table[key] then Some(table[key][m]) else None
  }

  /**
   * The table after registering `filter` for (`t`, `name`): that key now
   * finds `filter` (whatever was there before), and every other key finds
   * what it found before.
   */
  function Registered(table: Table, t: DeclaredType, name: string, filter: FilterTag): (r: Table)
    ensures forall u, m :: Lookup(r, u, m) == if SameKey(t, name, u, m) then Some(filter) else Lookup(table, u, m)
    ensures Normalised(table) ==> Normalised(r)
  {
    var key := t.underlying;
    var entries := if key in table then table[key] else map[];
    table[key := entries[Lower(name) := filter]]
  }

  /**
   * The table after removing (`t`, `name`): that key finds nothing, whether
   * or not it was registered, and every other key finds what it found before.
   */
  function Unregistered(table: Table, t: DeclaredType, name: string): (r: Table)
    ensures forall u, m :: Lookup(r, u, m) == if SameKey(t, name, u, m) then None else Lookup(table, u, m)
    ensures Normalised(table) ==> Normalised(r)
  {
    var key := t.underlying;
    if key in table then table[key := table[key] - {Lower(name)}] else table
  }

  // -----------------------------------------------------------------------
  // The default registrations
  // -----------------------------------------------------------------------

  function NumericKinds(): set<Number.NumericKind> {
    {Number.SByte, Number.Byte, Number.Int16, Number.UInt16, Number.Int32, Number.UInt32,
     Number.Int64, Number.UInt64, Number.Single, Number.Double, Number.Decimal}
  }

  function NumberMethods(): set<string> {
    {"equals", "not-equals", "less-than", "greater-than", "less-than-or-equal", "greater-than-or-equal"}
  }

  function StringMethods(): set<string> {
    {"equals", "not-equals", "contains", "starts-with", "ends-with"}
  }

  function DateTimeMethods(): set<string> {
    {"equals", "not-equals", "earlier-than", "later-than", "earlier-than-or-equal", "later-than-or-equal"}
  }

  /** The method names of the default registrations are already lower-case. */
  lemma NumberMethodsAreLower()
    ensures forall m :: m in NumberMethods() ==> IsLower(m)
  {
    forall m | m in NumberMethods() ensures IsLower(m) {
    }
  }

  lemma DateTimeMethodsAreLower()
    ensures forall m :: m in DateTimeMethods() ==> IsLower(m)
  {
    forall m | m in DateTimeMethods() ensures IsLower(m) {
    }
  }

  lemma StringMethodsAreLower()
    ensures forall m :: m in StringMethods() ==> IsLower(m)
  {
    forall m | m in StringMethods() ensures IsLower(m) {
    }
  }

  /** The types the `GridFilters` constructor registers filters for. */
  function DefaultTypes(): set<ClrType> {
    (set k | k in NumericKinds() :: Numeric(k)) + {DateTime, Boolean, String}
  }

  /**
   * The methods the `GridFilters` constructor registers for one type, all
   * stored lower-case; none for a type that is not built in.
   */
  function DefaultEntries(c: ClrType): (r: map<string, FilterTag>)
    ensures forall m :: m in r ==> IsLower(m)
    ensures c.Other? ==> |r| == 0
  {
    NumberMethodsAreLower();
    DateTimeMethodsAreLower();
    StringMethodsAreLower();
    match c
    case Numeric(k) => map m | m in NumberMethods() :: NumberFilter(k)
    case DateTime => map m | m in DateTimeMethods() :: DateTimeFilter
    case Boolean => map["equals" := BooleanFilter]
    case String => map[
      "equals" := StringEqualsFilter,
      "not-equals" := StringNotEqualsFilter,
      "contains" := StringContainsFilter,
      "starts-with" := StringStartsWithFilter,
      "ends-with" := StringEndsWithFilter]
    case Other(_) => map[]
  }

  /** What the `GridFilters` constructor registers; every stored name is lower-case. */
  function DefaultTable(): (r: Table)
    ensures Normalised(r)
  {
    map c | c in DefaultTypes() :: DefaultEntries(c)
  }

  // -----------------------------------------------------------------------
  // Lookup
  // -----------------------------------------------------------------------

  /** A lookup ignores the case of the method name. */
  lemma LookupIgnoresCase(table: Table, t: DeclaredType, name: string)
    ensures Lookup(table, t, name) == Lookup(table, t, Lower(name))
  {
    LowerIdempotent(name);
  }

  /** A lookup treats `Nullable<T>` as `T`. */
  lemma LookupFoldsNullable(table: Table, c: ClrType, name: string)
    ensures Lookup(table, NullableOf(c), name) == Lookup(table, Exactly(c), name)
  {
  }

  /** Removing a registration twice leaves the same table as removing it once. */
  lemma UnregisterIdempotent(table: Table, t: DeclaredType, name: string)
    ensures Unregistered(Unregistered(table, t, name), t, name) == Unregistered(table, t, name)
  {
    var key := t.underlying;
    if key in table {
      assert Unregistered(table, t, name)[key] - {Lower(name)} == table[key] - {Lower(name)};
    }
  }

  /**
   * The later of two registrations under the same normalised key wins,
   * whether either was made through `T` or `Nullable<T>` and in whatever case.
   */
  lemma LastRegistrationWins(table: Table, t: DeclaredType, name: string, first: FilterTag,
                             u: DeclaredType, m: string, second: FilterTag)
    requires SameKey(t, name, u, m)
    ensures Registered(Registered(table, t, name, first), u, m, second) == Registered(table, u, m, second)
  {
    var key := t.underlying;
    var inner := if key in table then table[key] else map[];
    assert Registered(table, t, name, first)[key] == inner[Lower(name) := first];
    assert inner[Lower(name) := first][Lower(m) := second] == inner[Lower(m) := second];
  }

  // -----------------------------------------------------------------------
  // The defaults
  // -----------------------------------------------------------------------

  /** A lookup in the default table reads the default entries of the declared type. */
  lemma DefaultLookup(t: DeclaredType, name: string)
    ensures Lookup(DefaultTable(), t, name) ==
      var entries := DefaultEntries(t.underlying);
      if Lower(name) in entries then Some(entries[Lower(name)]) else None
  {
    var c := t.underlying;
    if c.Numeric? {
      match c.kind {
        case SByte => case Byte => case Int16 => case UInt16 => case Int32 => case UInt32 =>
        case Int64 => case UInt64 => case Single => case Double => case Decimal =>
      }
      assert c in DefaultTypes();
    }
  }

  /**
   * For every numeric kind, the default table holds the number filter of that
   * kind for exactly the six methods the number filter understands.
   */
  lemma DefaultNumberFilters(kind: Number.NumericKind, name: string)
    ensures Lookup(DefaultTable(), Exactly(Numeric(kind)), name) ==
      if Number.MethodOp(Lower(name)).Some? then Some(NumberFilter(kind)) else None
  {
    DefaultLookup(Exactly(Numeric(kind)), name);
    var m := Lower(name);
    assert m in NumberMethods() <==> Number.MethodOp(m).Some?;
  }

  /** DateTime holds the date filter for exactly the six methods the date filter understands. */
  lemma DefaultDateTimeFilters(name: string)
    ensures Lookup(DefaultTable(), Exactly(DateTime), name) ==
      if Date.MethodOp(Lower(name)).Some? then Some(DateTimeFilter) else None
  {
    DefaultLookup(Exactly(DateTime), name);
    var m := Lower(name);
    assert m in DateTimeMethods() <==> Date.MethodOp(m).Some?;
  }

  /**
   * Boolean holds the boolean filter for "equals", in any case, and for no
   * other method, although the boolean filter also understands "not-equals".
   */
  lemma DefaultBooleanFilter(name: string)
    ensures Lookup(DefaultTable(), Exactly(Boolean), name) ==
      if Lower(name) == "equals" then Some(BooleanFilter) else None
    ensures Bool.MethodOp("equals").Some? && Bool.MethodOp("not-equals").Some?
  {
    DefaultLookup(Exactly(Boolean), name);
  }

  /** String holds one distinct filter class per method, and nothing else. */
  lemma DefaultStringFilters(name: string)
    ensures Lookup(DefaultTable(), Exactly(String), name) ==
      match Lower(name)
      case "equals" => Some(StringEqualsFilter)
      case "not-equals" => Some(StringNotEqualsFilter)
      case "contains" => Some(StringContainsFilter)
      case "starts-with" => Some(StringStartsWithFilter)
      case "ends-with" => Some(StringEndsWithFilter)
      case _ => None
  {
    DefaultLookup(Exactly(String), name);
  }

  /** A type nobody registered finds nothing, whatever the method. */
  lemma DefaultMissesOtherTypes(typeName: string, name: string)
    ensures Lookup(DefaultTable(), Exactly(Other(typeName)), name) == None
  {
    DefaultLookup(Exactly(Other(typeName)), name);
  }

  // -----------------------------------------------------------------------
  // The registry class
  // -----------------------------------------------------------------------

  class GridFilters {
    var table: Table

    /** A registry holding the default registrations. */
    constructor()
      ensures table == DefaultTable()
    {
      table := DefaultTable();
    }

    /**
     * The filter for a column of type `t` and method `name`: the class
     * registered under the normalised key, with `Method` set to the
     * lower-cased name; None when nothing is registered there.
     */
    function GetFilter(t: DeclaredType, name: string): (r: Option<GridFilter>)
      reads this
      ensures r.Some? <==> t.underlying in table && Lower(name) in table[t.underlying]
      ensures r.Some? ==> r.value.kind == table[t.underlying][Lower(name)]
      ensures r.Some? ==> r.value.methodName == Lower(name) && IsLower(r.value.methodName)
    {
      match Lookup(table, t, name)
      case Some(filter) => Some(GridFilter(filter, Lower(name)))
      case None => None
    }

    /** Registers `filter` for (`t`, `name`), replacing any earlier registration there. */
    method Register(t: DeclaredType, name: string, filter: FilterTag)
      modifies this
      ensures table == Registered(old(table), t, name, filter)
      ensures GetFilter(t, name) == Some(GridFilter(filter, Lower(name)))
      ensures forall u, m :: !SameKey(t, name, u, m) ==> GetFilter(u, m) == old(GetFilter(u, m))
    {
      table := Registered(table, t, name, filter);
    }

    /** Removes the registration for (`t`, `name`), if there is one. */
    method Unregister(t: DeclaredType, name: string)
      modifies this
      ensures table == Unregistered(old(table), t, name)
      ensures GetFilter(t, name) == None
      ensures forall u, m :: !SameKey(t, name, u, m) ==> GetFilter(u, m) == old(GetFilter(u, m))
    {
      table := Unregistered(table, t, name);
    }
  }

  /** Whatever the registry holds, a lookup ignores case and nullability. */
  lemma GetFilterNormalises(filters: GridFilters, c: ClrType, name: string)
    ensures filters.GetFilter(NullableOf(c), name) == filters.GetFilter(Exactly(c), Lower(name))
  {
    LowerIdempotent(name);
  }

  /** A fresh registry has no filter for `Object`. */
  method MissingTypeScenario() returns (found: Option<GridFilter>)
    ensures found == None
  {
    var filters := new GridFilters();
    DefaultMissesOtherTypes("System.Object", "equals");
    found := filters.GetFilter(Exactly(Other("System.Object")), "equals");
  }

  /** String has no "less-than" filter by default. */
  lemma StringLessThanMissing()
    ensures Lookup(DefaultTable(), Exactly(String), "less-than") == None
  {
    assert Lower("less-than") == "less-than" by {
      LowerKeepsLower("less-than");
    }
    DefaultStringFilters("less-than");
  }

  /** "CONTAINS" finds the string contains filter, whose method is then "contains". */
  lemma ContainsInCapitals()
    ensures Lookup(DefaultTable(), Exactly(String), "CONTAINS") == Some(StringContainsFilter)
    ensures Lower("CONTAINS") == "contains"
  {
    DefaultStringFilters("CONTAINS");
    assert Lower("CONTAINS") == "contains";
  }

  /**
   * Registering a filter for `Object`, then removing it in capitals and again
   * in lower case, leaves nothing there.
   */
  method UnregisterScenario() returns (found: Option<GridFilter>)
    ensures found == None
  {
    var filters := new GridFilters();
    var objectType := Exactly(Other("System.Object"));
    filters.Register(objectType, "test", StringEqualsFilter);
    filters.Unregister(objectType, "TEST");
    filters.Unregister(objectType, "test");
    found := filters.GetFilter(objectType, "test");
  }
}
