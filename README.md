# Grid filter engine

A model of the filtering core of the Mvc.Grid library (NonFactors.Mvc.Grid).
The library is a column grid for ASP.NET Core. A column filter is a method name
and one or more raw string values. The engine turns it into a predicate over
the column's field, or into "no filter". The source this model follows is the
library's xUnit test suite for that core, so the model states the behaviour
those tests pin down.

- `NumberFilter<T>.Apply` (`number_filter.dfy`) reads each raw value as a
  number of kind `T`. `""` and `null` become the null sentinel. A literal
  outside the kind's range, or text that is no number, is a failure. The method
  picks one of six comparisons. Several values are joined with OR, except
  `not-equals`, which joins them with AND.
- `BooleanFilter.Apply` (`boolean_filter.dfy`) reads "true" or "false" in any
  letter case. Its methods are `equals` and `not-equals`.
- `DateTimeFilter.Apply` (`datetime_filter.dfy`) takes one value and one
  method. The methods are `equals`, `not-equals`, `earlier-than`, `later-than`
  and the two `-or-equal` forms. A null value gives no filter: unlike the
  number and boolean filters, the date filter has no null sentinel.
- `GridFilters` (`grid_filters.dfy`) is the registry. It maps a declared type
  and a method name to a filter class. Method names are stored lower-case,
  `Nullable<T>` is folded onto `T`, a later registration replaces an earlier
  one, and `Unregister` may be repeated.

Shared pieces:

- `predicates.dfy` holds the predicate datatype and C#'s lifted comparison
  operators. A field value is an `Option`: `None` is an absent nullable field,
  and a non-nullable field is always `Some`. `==` and `!=` compare Options
  (null equals null), and an ordering is false when either side is absent.
  `Build` folds the parsed values into one predicate. `Combined` is its
  reference meaning: "some value matches", or "every value matches" for
  `not-equals`.
- `text.dfy` holds ASCII lower-casing, decimal integer reading (an optional
  sign, then digits) and printing, with the round trip between the two.

The three filter files and `predicates.dfy` are pure. The registry is a class
whose `Register` and `Unregister` methods reassign its table. Each method is
specified by a pure table function (`Registered`, `Unregistered`), and the
lemmas are about those functions.

A concrete `not-equals` on a nullable boolean also keeps records whose value
is absent (C#'s lifted `!=`); `BooleanFilter.SingleValueIsLifted` states it.

## Model

| member | source | states |
|---|---|---|
| Text.Lower | test/Mvc.Grid.Tests/Unit/Core/Filtering/GridFiltersTests.cs:133-140 | a lower-cased method name has the same length and contains no upper-case letter |
| Text.LowerKeepsLower | test/Mvc.Grid.Tests/Unit/Core/Filtering/GridFiltersTests.cs:133-140 | a name that is already lower-case is unchanged by lower-casing |
| Text.LowerIdempotent | test/Mvc.Grid.Tests/Unit/Core/Filtering/GridFiltersTests.cs:133-140 | lower-casing a stored name again changes nothing |
| Text.LowerIgnoresCase | test/Mvc.Grid.Tests/Unit/Core/Filtering/Boolean/BooleanFilterTests.cs:41-57 | two texts that differ only in letter case lower-case to the same text |
| Text.ReadDigits | test/Mvc.Grid.Tests/Unit/Core/Filtering/Number/NumberFilterTests.cs:30-39 | digits are read exactly when the text is nothing but decimal digits, and reading never lowers the value so far |
| Text.ParseInteger | test/Mvc.Grid.Tests/Unit/Core/Filtering/Number/NumberFilterTests.cs:30-149 | a number is read exactly from an integer literal (an optional sign, then at least one digit, nothing else), and a negative number only from a literal that starts with '-' |
| Text.ParseShow | test/Mvc.Grid.Tests/Unit/Core/Filtering/Number/NumberFilterTests.cs:151-163 | the invariant decimal form of every integer reads back as that integer |
| Predicates.Lifted | test/Mvc.Grid.Tests/Unit/Core/Filtering/Number/NumberFilterTests.cs:151-449 | C#'s lifted operators on nullable operands: null equals null and nothing else, a present value differs from null, and an ordering with an absent side is false |
| Predicates.Build | test/Mvc.Grid.Tests/Unit/Core/Filtering/Number/NumberFilterTests.cs:30-39 | a predicate exists exactly when there is at least one value and no value failed to parse |
| Predicates.BuildMeaning | test/Mvc.Grid.Tests/Unit/Core/Filtering/Number/NumberFilterTests.cs:165-249 | the built predicate keeps a record exactly when some value's lifted comparison holds, or every value's for not-equals |
| NumberFilter.ParseValue | test/Mvc.Grid.Tests/Unit/Core/Filtering/Number/NumberFilterTests.cs:30-149 | a value read as a number lies within the kind's bounds, and the null sentinel comes exactly from null or "" |
| NumberFilter.MethodOp | test/Mvc.Grid.Tests/Unit/Core/Filtering/Number/NumberFilterTests.cs:151-455 | only the six method names are known, each for its own comparison (the name given back by `MethodName`) |
| NumberFilter.MethodNameIsKnown | test/Mvc.Grid.Tests/Unit/Core/Filtering/Number/NumberFilterTests.cs:151-449 | each of the six comparisons is offered under its method name |
| NumberFilter.Apply | test/Mvc.Grid.Tests/Unit/Core/Filtering/Number/NumberFilterTests.cs:451-455 | a filter exists exactly when the method is known, there is a value and no value fails |
| NumberFilter.RangeIsExact | test/Mvc.Grid.Tests/Unit/Core/Filtering/Number/NumberFilterTests.cs:63-149 | the printed form of n is accepted as n exactly when n is within the kind's bounds, and is a failure otherwise |
| NumberFilter.OnePastTheBoundsRejected | test/Mvc.Grid.Tests/Unit/Core/Filtering/Number/NumberFilterTests.cs:30-149 | for every kind and method, the literal one past the maximum and the one below the minimum give no filter |
| NumberFilter.ByteBoundsRejected | test/Mvc.Grid.Tests/Unit/Core/Filtering/Number/NumberFilterTests.cs:140-149 | Byte rejects "256" and "-1" |
| NumberFilter.SByteBoundsRejected | test/Mvc.Grid.Tests/Unit/Core/Filtering/Number/NumberFilterTests.cs:129-138 | SByte rejects "128" and "-129" |
| NumberFilter.Int16BoundsRejected | test/Mvc.Grid.Tests/Unit/Core/Filtering/Number/NumberFilterTests.cs:107-116 | Int16 rejects "32768" and "-32769" |
| NumberFilter.UInt16BoundsRejected | test/Mvc.Grid.Tests/Unit/Core/Filtering/Number/NumberFilterTests.cs:118-127 | UInt16 rejects "65536" and "-1" |
| NumberFilter.UnsignedRejectsNegative | test/Mvc.Grid.Tests/Unit/Core/Filtering/Number/NumberFilterTests.cs:74-105 | UInt32 and UInt64 reject "-1" |
| NumberFilter.NonNumericRejected | test/Mvc.Grid.Tests/Unit/Core/Filtering/Number/NumberFilterTests.cs:30-39 | one non-empty value that is not an integer literal gives no filter, for every kind, method and other values |
| NumberFilter.NonNumericExamples | test/Mvc.Grid.Tests/Unit/Core/Filtering/Number/NumberFilterTests.cs:30-39 | "test" gives no filter for every kind and method; so do "1.5", "1e3" and " 1", which .NET also rejects only for "1.5" and "1e3" with the integer kinds (the rest is the integer-only reading under "Left out") |
| NumberFilter.SingleValueIsNativeComparison | test/Mvc.Grid.Tests/Unit/Core/Filtering/Number/NumberFilterTests.cs:176-188 | with one in-range value, a present field is kept exactly when C#'s operator holds, and an absent field is kept only by not-equals |
| NumberFilter.NamedOperators | test/Mvc.Grid.Tests/Unit/Core/Filtering/Number/NumberFilterTests.cs:176-449 | against one in-range value n, equals is ==, not-equals !=, less-than <, greater-than >, less-than-or-equal <= and greater-than-or-equal >= |
| NumberFilter.NullEqualsMatchesAbsent | test/Mvc.Grid.Tests/Unit/Core/Filtering/Number/NumberFilterTests.cs:151-163 | equals with null or "" keeps exactly the records whose field is absent |
| NumberFilter.NullNotEqualsMatchesPresent | test/Mvc.Grid.Tests/Unit/Core/Filtering/Number/NumberFilterTests.cs:226-238 | not-equals with null or "" keeps exactly the records whose field is present, so every non-nullable record |
| NumberFilter.NullOrderingMatchesNothing | test/Mvc.Grid.Tests/Unit/Core/Filtering/Number/NumberFilterTests.cs:251-263 | an ordering method against null or "" keeps no record |
| NumberFilter.OrderingNeverMatchesAbsent | test/Mvc.Grid.Tests/Unit/Core/Filtering/Number/NumberFilterTests.cs:251-449 | an ordering method never keeps a record whose field is absent, whatever the values |
| NumberFilter.DisjunctionOfSingles | test/Mvc.Grid.Tests/Unit/Core/Filtering/Number/NumberFilterTests.cs:165-174 | every method but not-equals is the OR of its single-value filters, and exists exactly when each of them does |
| NumberFilter.ConjunctionOfSingles | test/Mvc.Grid.Tests/Unit/Core/Filtering/Number/NumberFilterTests.cs:240-249 | not-equals is the AND of its single-value filters, and exists exactly when each of them does |
| NumberFilter.NotEqualsNegatesEquals | test/Mvc.Grid.Tests/Unit/Core/Filtering/Number/NumberFilterTests.cs:201-224 | not-equals over some values keeps exactly the records equals over the same values drops |
| NumberFilter.MultipleEqualsScenario | test/Mvc.Grid.Tests/Unit/Core/Filtering/Number/NumberFilterTests.cs:165-174 | equals ["", "1"] keeps absent and 1 but not 2 |
| NumberFilter.MultipleNotEqualsScenario | test/Mvc.Grid.Tests/Unit/Core/Filtering/Number/NumberFilterTests.cs:215-224 | not-equals ["", "1"] keeps 2 but neither absent nor 1 |
| NumberFilter.MultipleLessThanScenario | test/Mvc.Grid.Tests/Unit/Core/Filtering/Number/NumberFilterTests.cs:290-299 | less-than ["1", "2"] keeps what < 2 keeps |
| NumberFilter.MultipleGreaterThanScenario | test/Mvc.Grid.Tests/Unit/Core/Filtering/Number/NumberFilterTests.cs:340-349 | greater-than ["1", "2"] keeps what > 1 keeps |
| NumberFilter.MultipleLessThanOrEqualScenario | test/Mvc.Grid.Tests/Unit/Core/Filtering/Number/NumberFilterTests.cs:390-399 | less-than-or-equal ["0", "1"] keeps what <= 1 keeps |
| NumberFilter.MultipleGreaterThanOrEqualScenario | test/Mvc.Grid.Tests/Unit/Core/Filtering/Number/NumberFilterTests.cs:440-449 | greater-than-or-equal ["1", "2"] keeps what >= 1 keeps |
| NumberFilter.MultipleNullableLessThanScenario | test/Mvc.Grid.Tests/Unit/Core/Filtering/Number/NumberFilterTests.cs:265-274 | on a nullable field, less-than ["", "1"] keeps what < 1 keeps |
| NumberFilter.UnknownMethodRejected | test/Mvc.Grid.Tests/Unit/Core/Filtering/Number/NumberFilterTests.cs:451-455 | the method "test" gives no filter, whatever the values |
| BooleanFilter.ParseValue | test/Mvc.Grid.Tests/Unit/Core/Filtering/Boolean/BooleanFilterTests.cs:41-57 | the null sentinel comes exactly from null or "", and a boolean is read only from its spelling in some letter case |
| BooleanFilter.MethodOp | test/Mvc.Grid.Tests/Unit/Core/Filtering/Boolean/BooleanFilterTests.cs:41-165 | exactly "equals" and "not-equals" are known, "equals" standing for == and "not-equals" for !=; every other method name gives none |
| BooleanFilter.Apply | test/Mvc.Grid.Tests/Unit/Core/Filtering/Boolean/BooleanFilterTests.cs:32-39 | a filter exists exactly when the method is known, there is a value and no value fails |
| BooleanFilter.ParseIgnoresCase | test/Mvc.Grid.Tests/Unit/Core/Filtering/Boolean/BooleanFilterTests.cs:41-57 | non-empty text reads as b exactly when it spells b, ignoring letter case |
| BooleanFilter.ParseTrueExamples | test/Mvc.Grid.Tests/Unit/Core/Filtering/Boolean/BooleanFilterTests.cs:41-48 | "true" and "TRUE" read as true |
| BooleanFilter.ParseFalseExamples | test/Mvc.Grid.Tests/Unit/Core/Filtering/Boolean/BooleanFilterTests.cs:41-48 | "false" and "FALSE" read as false |
| BooleanFilter.ParseOtherExamples | test/Mvc.Grid.Tests/Unit/Core/Filtering/Boolean/BooleanFilterTests.cs:32-48 | "" and null read as the null sentinel, and "Test" fails |
| BooleanFilter.BadInputRejected | test/Mvc.Grid.Tests/Unit/Core/Filtering/Boolean/BooleanFilterTests.cs:32-39 | the value "Test", or the method "test", gives no filter |
| BooleanFilter.SingleValueIsLifted | test/Mvc.Grid.Tests/Unit/Core/Filtering/Boolean/BooleanFilterTests.cs:101-117 | with one value, equals is the lifted == and not-equals the lifted !=, so a concrete not-equals also keeps absent fields |
| BooleanFilter.NullableEqualsNullOrFalse | test/Mvc.Grid.Tests/Unit/Core/Filtering/Boolean/BooleanFilterTests.cs:59-69 | equals ["", "false"] keeps exactly the records whose value is not true |
| BooleanFilter.EqualsTrueOrFalseKeepsAll | test/Mvc.Grid.Tests/Unit/Core/Filtering/Boolean/BooleanFilterTests.cs:89-99 | equals ["true", "false"] keeps every non-nullable record |
| BooleanFilter.NullableNotEqualsNullOrFalse | test/Mvc.Grid.Tests/Unit/Core/Filtering/Boolean/BooleanFilterTests.cs:119-129 | not-equals ["", "false"] keeps exactly the records whose value is true |
| BooleanFilter.NotEqualsTrueOrFalseKeepsNone | test/Mvc.Grid.Tests/Unit/Core/Filtering/Boolean/BooleanFilterTests.cs:149-156 | not-equals ["true", "false"] keeps no non-nullable record |
| DateTimeFilter.MethodOp | test/Mvc.Grid.Tests/Unit/Core/Filtering/Date/DateTimeFilterTests.cs:40-191 | only the six method names are known, each for its own comparison (the name given back by `MethodName`) |
| DateTimeFilter.MethodNameIsKnown | test/Mvc.Grid.Tests/Unit/Core/Filtering/Date/DateTimeFilterTests.cs:40-182 | each of the six comparisons is offered under its method name |
| DateTimeFilter.Apply | test/Mvc.Grid.Tests/Unit/Core/Filtering/Date/DateTimeFilterTests.cs:32-38 | a filter exists exactly when the method is known and the value reads as a date, and it is one comparison against that date |
| DateTimeFilter.EqualityIsNative | test/Mvc.Grid.Tests/Unit/Core/Filtering/Date/DateTimeFilterTests.cs:40-86 | equals and not-equals are == and != on a present date; an absent date fails equals and passes not-equals |
| DateTimeFilter.OrderingIsNative | test/Mvc.Grid.Tests/Unit/Core/Filtering/Date/DateTimeFilterTests.cs:88-182 | earlier-than is <, later-than is >, the -or-equal forms are <= and >=, and none keeps an absent date |
| DateTimeFilter.LaterThanScenario | test/Mvc.Grid.Tests/Unit/Core/Filtering/Date/DateTimeFilterTests.cs:124-134 | of dates a < b < c, later-than b keeps only c and earlier-than b keeps only a |
| DateTimeFilter.BadInputRejected | test/Mvc.Grid.Tests/Unit/Core/Filtering/Date/DateTimeFilterTests.cs:184-191 | text that is no date, or the method "test", gives no filter |
| Filtering.Lookup | test/Mvc.Grid.Tests/Unit/Core/Filtering/GridFiltersTests.cs:121-140 | the entry found is the one stored under the type with Nullable<T> folded onto T and the lower-cased name; nothing is found when either key is missing |
| Filtering.Registered | test/Mvc.Grid.Tests/Unit/Core/Filtering/GridFiltersTests.cs:146-196 | after registering, the normalised key finds the new filter and every other key finds what it found before; stored names stay lower-case |
| Filtering.Unregistered | test/Mvc.Grid.Tests/Unit/Core/Filtering/GridFiltersTests.cs:202-221 | after removing, the normalised key finds nothing and every other key finds what it found before; stored names stay lower-case |
| Filtering.LookupIgnoresCase | test/Mvc.Grid.Tests/Unit/Core/Filtering/GridFiltersTests.cs:133-140 | a lookup by a name equals the lookup by its lower-case form |
| Filtering.LookupFoldsNullable | test/Mvc.Grid.Tests/Unit/Core/Filtering/GridFiltersTests.cs:155-162 | a lookup through Nullable<T> equals the lookup through T |
| Filtering.UnregisterIdempotent | test/Mvc.Grid.Tests/Unit/Core/Filtering/GridFiltersTests.cs:212-221 | removing a registration twice leaves the same table as removing it once |
| Filtering.LastRegistrationWins | test/Mvc.Grid.Tests/Unit/Core/Filtering/GridFiltersTests.cs:164-180 | a second registration under the same normalised key, through T or T? and in any case, replaces the first |
| Filtering.DefaultEntries | test/Mvc.Grid.Tests/Unit/Core/Filtering/GridFiltersTests.cs:20-115 | every default method name is stored lower-case, and a type that is not built in has no default entries |
| Filtering.DefaultTable | test/Mvc.Grid.Tests/Unit/Core/Filtering/GridFiltersTests.cs:20-115 | every method name in the default table is stored lower-case |
| Filtering.DefaultLookup | test/Mvc.Grid.Tests/Unit/Core/Filtering/GridFiltersTests.cs:20-115 | a lookup in the default table reads the default entries of the declared type |
| Filtering.DefaultNumberFilters | test/Mvc.Grid.Tests/Unit/Core/Filtering/GridFiltersTests.cs:20-96 | each numeric kind has its number filter for exactly the six methods the number filter understands |
| Filtering.DefaultDateTimeFilters | test/Mvc.Grid.Tests/Unit/Core/Filtering/GridFiltersTests.cs:98-103 | DateTime has the date filter for exactly the six methods the date filter understands |
| Filtering.DefaultBooleanFilter | test/Mvc.Grid.Tests/Unit/Core/Filtering/GridFiltersTests.cs:105 | Boolean has the boolean filter for "equals" in any case, and for no other method |
| Filtering.DefaultStringFilters | test/Mvc.Grid.Tests/Unit/Core/Filtering/GridFiltersTests.cs:107-111 | String has a distinct filter for each of its five methods, and nothing else |
| Filtering.DefaultMissesOtherTypes | test/Mvc.Grid.Tests/Unit/Core/Filtering/GridFiltersTests.cs:121-125 | a type with no default registrations, such as Object, finds nothing |
| Filtering.StringLessThanMissing | test/Mvc.Grid.Tests/Unit/Core/Filtering/GridFiltersTests.cs:127-131 | String has no "less-than" filter |
| Filtering.MissingTypeScenario | test/Mvc.Grid.Tests/Unit/Core/Filtering/GridFiltersTests.cs:121-125 | a fresh registry gives no filter for Object and "equals" |
| Filtering.ContainsInCapitals | test/Mvc.Grid.Tests/Unit/Core/Filtering/GridFiltersTests.cs:133-140 | "CONTAINS" finds the contains filter, and its method becomes "contains" |
| Filtering.GridFilters.constructor | test/Mvc.Grid.Tests/Unit/Core/Filtering/GridFiltersTests.cs:20-115 | a new registry holds exactly the default table |
| Filtering.GridFilters.GetFilter | test/Mvc.Grid.Tests/Unit/Core/Filtering/GridFiltersTests.cs:121-140 | a filter is found exactly when one is registered under the normalised key; its Method is the lower-cased name |
| Filtering.GridFilters.Register | test/Mvc.Grid.Tests/Unit/Core/Filtering/GridFiltersTests.cs:146-196 | the key now finds the new filter and every other key is unchanged |
| Filtering.GridFilters.Unregister | test/Mvc.Grid.Tests/Unit/Core/Filtering/GridFiltersTests.cs:202-221 | the key now finds nothing and every other key is unchanged |
| Filtering.GetFilterNormalises | test/Mvc.Grid.Tests/Unit/Core/Filtering/GridFiltersTests.cs:182-188 | GetFilter through Nullable<T> and any case equals GetFilter through T and the lower-case name |
| Filtering.UnregisterScenario | test/Mvc.Grid.Tests/Unit/Core/Filtering/GridFiltersTests.cs:202-221 | after registering for Object, then removing twice ("TEST", then "test"), no filter is found |

## Left out

- Expression trees and `IQueryable.Where`: a predicate is a datatype evaluated on an `Option` field value.
- Floating-point parsing of Single and Double: values are exact integers, and only the overflow bounds are modelled. The model reads no fraction and no exponent, so the test inputs `1.8076931348623157E+308` and `3.50282347E+38` are rejected because they are not integers, not because they overflow.
- Decimal fractions: Decimal values are integers within ±(2^96 - 1).
- Whitespace, thousands separators, hexadecimal and culture-specific number forms: a number is an optional sign followed by ASCII digits.
- Non-ASCII case folding: lower-casing maps only the letters A to Z.
- Culture-dependent date reading (`ToString()`, "d", "D"): the date reader is a parameter from text to ticks.
- Several values for a date filter: the date filter takes one value and one method.
- String filter semantics (contains, starts-with and the rest): only their registration is modelled.
- A Boolean "not-equals" registry entry: the registry tests show none.
- Instantiating registered filter classes through reflection: a registration names a filter class by tag, and any other class by name.
- `GridRow`: its constructor only stores an index and a model.
- NumberFilter.OnePastTheBoundsRejected: the long boundary literals of Int32, UInt32, Int64, UInt64 and Decimal are covered through the printed form of MaxValue + 1 and MinValue - 1 rather than written out digit by digit.
