/**
 * The text handling the filters rely on: invariant lower-casing of method
 * names, and the invariant decimal integer format used to read numbers.
 */
module Text {
  import opened Wrappers

  // ---------------------------------------------------------------------
  // Lower-casing (ASCII letters only)
  // ---------------------------------------------------------------------

  predicate IsUpper(c: char) {
    'A' <= c <= 'Z'
  }

  function LowerChar(c: char): char {
    if IsUpper(c) then (c as int + ('a' as int - 'A' as int)) as char else c
  }

  /** A string with no upper-case letter in it: a normalised method name. */
  predicate IsLower(s: string) {
    forall i :: 0 <= i < |s| ==> !IsUpper(s[i])
  }

  /** `String.ToLower()` restricted to the ASCII letters. */
  function Lower(s: string): (r: string)
    ensures |r| == |s|
    ensures IsLower(r)
  {
    if s == [] then [] else [LowerChar(s[0])] + Lower(s[1..])
  }

  /** A name that is already lower-case is left as it is. */
  lemma {:induction false} LowerKeepsLower(s: string)
    requires IsLower(s)
    ensures Lower(s) == s
  {
    if s != [] {
      assert IsLower(s[1..]) by {
        forall i | 0 <= i < |s[1..]| ensures !IsUpper(s[1..][i]) {
          assert s[1..][i] == s[i + 1];
        }
      }
      LowerKeepsLower(s[1..]);
      assert !IsUpper(s[0]);
    }
  }

  /** Lower-casing twice is lower-casing once. */
  lemma LowerIdempotent(s: string)
    ensures Lower(Lower(s)) == Lower(s)
  {
    LowerKeepsLower(Lower(s));
  }

  /** Two names that differ only in the case of letters lower-case alike. */
  lemma {:induction false} LowerIgnoresCase(a: string, b: string)
    requires |a| == |b|
    requires forall i :: 0 <= i < |a| ==> LowerChar(a[i]) == LowerChar(b[i])
    ensures Lower(a) == Lower(b)
  {
    if a != [] {
      assert LowerChar(a[0]) == LowerChar(b[0]);
      forall i | 0 <= i < |a[1..]| ensures LowerChar(a[1..][i]) == LowerChar(b[1..][i]) {
        assert a[1..][i] == a[i + 1] && b[1..][i] == b[i + 1];
      }
      LowerIgnoresCase(a[1..], b[1..]);
    }
  }

  // ---------------------------------------------------------------------
  // Decimal integers in the invariant format
  // ---------------------------------------------------------------------

  predicate IsDigit(c: char) {
    '0' <= c <= '9'
  }

  function DigitValue(c: char): nat
    requires IsDigit(c)
  {
    c as int - '0' as int
  }

  function DigitChar(d: nat): (c: char)
    requires d < 10
    ensures IsDigit(c) && DigitValue(c) == d
  {
    ('0' as int + d) as char
  }

  /** Nothing but decimal digits (possibly nothing at all). */
  predicate AllDigits(s: string) {
    forall i :: 0 <= i < |s| ==> IsDigit(s[i])
  }

  /**
   * Reads decimal digits left to right onto `acc`, as `Int64.Parse` does
   * (`acc * 10 + digit` per character); None at the first non-digit.
   */
  function ReadDigits(s: string, acc: nat): (r: Option<nat>)
    ensures r.Some? <==> AllDigits(s)
    ensures r.Some? ==> r.value >= acc
    decreases |s|
  {
    if s == [] then Some(acc)
    else if IsDigit(s[0]) then
      assert AllDigits(s) <==> AllDigits(s[1..]) by {
        if AllDigits(s[1..]) {
          forall i | 0 <= i < |s| ensures IsDigit(s[i]) {
            if i > 0 { assert s[i] == s[1..][i - 1]; }
          }
        }
      }
      ReadDigits(s[1..], acc * 10 + DigitValue(s[0]))
    else None
  }

  /** Reading `a + b` reads `a`, then carries on through `b` from the value read so far. */
  lemma {:induction false} ReadDigitsConcat(a: string, b: string, acc: nat)
    ensures ReadDigits(a + b, acc) ==
      match ReadDigits(a, acc)
      case Some(v) => ReadDigits(b, v)
      case None => None
    decreases |a|
  {
    if a != [] {
      assert (a + b)[0] == a[0];
      assert (a + b)[1..] == a[1..] + b;
      if IsDigit(a[0]) {
        ReadDigitsConcat(a[1..], b, acc * 10 + DigitValue(a[0]));
      }
    } else {
      assert a + b == b;
    }
  }

  /** What follows the optional leading sign of a literal. */
  function Unsigned(s: string): string {
    if |s| > 0 && (s[0] == '-' || s[0] == '+') then s[1..] else s
  }

  /**
   * An integer literal: an optional sign (`-` or `+`) followed by at least one
   * decimal digit. Anything else ("test", "1.5", "1e3", " 1") is not a number.
   */
  predicate IsIntegerLiteral(s: string) {
    |Unsigned(s)| > 0 && AllDigits(Unsigned(s))
  }

  /**
   * Reads an integer literal. Exactly the integer literals are read, and a
   * negative number only from a literal that starts with '-'.
   */
  function ParseInteger(s: string): (r: Option<int>)
    ensures r.Some? <==> IsIntegerLiteral(s)
    ensures r.Some? && r.value < 0 ==> s[0] == '-'
  {
    if |s| == 0 then None
    else if s[0] == '-' then
      match ReadNumber(s[1..])
      case Some(v) => Some(-(v as int))
      case None => None
    else if s[0] == '+' then ReadNumber(s[1..])
    else ReadNumber(s)
  }

  /** At least one digit, and nothing but digits. */
  function ReadNumber(digits: string): (r: Option<int>)
    ensures r.Some? <==> |digits| > 0 && AllDigits(digits)
    ensures r.Some? ==> r.value >= 0
  {
    if digits == [] then None
    else
      match ReadDigits(digits, 0)
      case Some(v) => Some(v)
      case None => None
  }

  /** `n.ToString()` in the invariant culture, for a natural number. */
  function ShowNat(n: nat): (r: string)
  {
    if n < 10 then [DigitChar(n)] else ShowNat(n / 10) + [DigitChar(n % 10)]
  }

  /** `n.ToString()` in the invariant culture. */
  function Show(n: int): string {
    if n < 0 then "-" + ShowNat(-n) else ShowNat(n)
  }

  lemma {:induction false} ShowNatDigits(n: nat)
    ensures |ShowNat(n)| > 0 && IsDigit(ShowNat(n)[0])
    ensures ReadDigits(ShowNat(n), 0) == Some(n)
  {
    if n >= 10 {
      ShowNatDigits(n / 10);
      ReadDigitsConcat(ShowNat(n / 10), [DigitChar(n % 10)], 0);
    }
  }

  /** Reading back a printed integer gives the integer: parsing inverts printing. */
  lemma ParseShow(n: int)
    ensures ParseInteger(Show(n)) == Some(n)
  {
    var m: nat := if n < 0 then -n else n;
    ShowNatDigits(m);
    var digits := ShowNat(m);
    if n < 0 {
      var s := Show(n);
      assert s == "-" + digits;
      assert s[1..] == digits;
      assert s[0] == '-';
    }
  }
}
