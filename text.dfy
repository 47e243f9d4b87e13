/** Text operations the bulk-upload code relies on from the Java library:
    String.toLowerCase, String.trim, String.join and Integer.parseInt.
    Case folding covers the ASCII letters only. */
module Text {
  import opened Wrappers

  const MIN_INT: int := -0x8000_0000
  const MAX_INT: int := 0x7fff_ffff

  predicate IsInt32(x: int) { MIN_INT <= x <= MAX_INT }

  /** Java `int` arithmetic: the mathematical result reduced into the 32-bit range. */
  function Wrap32(x: int): (r: int)
    ensures IsInt32(r)
    ensures (r - x) % 0x1_0000_0000 == 0
    ensures IsInt32(x) ==> r == x
  {
    (x - MIN_INT) % 0x1_0000_0000 + MIN_INT
  }

  // ---------------------------------------------------------------------------
  // Case folding

  predicate IsUpper(c: char) { 'A' <= c <= 'Z' }

  function LowerChar(c: char): (d: char)
    ensures !IsUpper(d)
    ensures !IsUpper(c) ==> d == c
  {
    if IsUpper(c) then (c as int + 32) as char else c
  }

  /** String.toLowerCase, ASCII letters only. */
  function Lower(s: string): (r: string)
    ensures |r| == |s|
  {
    if s == [] then [] else [LowerChar(s[0])] + Lower(s[1..])
  }

  lemma {:induction false} LowerMeaning(s: string)
    ensures forall i :: 0 <= i < |s| ==> Lower(s)[i] == LowerChar(s[i]) && !IsUpper(Lower(s)[i])
  {
    if s != [] {
      LowerMeaning(s[1..]);
    }
  }

  lemma LowerIdempotent(s: string)
    ensures Lower(Lower(s)) == Lower(s)
  {
    LowerMeaning(s);
    LowerMeaning(Lower(s));
  }

  /** equalsIgnoreCase against a lower-case constant, ASCII letters only. */
  predicate EqualsIgnoreCase(s: string, t: string) { Lower(s) == Lower(t) }

  // ---------------------------------------------------------------------------
  // String.trim: drop every leading and trailing character whose code is at most U+0020.

  predicate IsTrimmed(c: char) { c <= ' ' }

  /** Number of blanks at the front. */
  function LeadingBlanks(s: string): (n: nat)
    ensures n <= |s|
  {
    if |s| > 0 && IsTrimmed(s[0]) then 1 + LeadingBlanks(s[1..]) else 0
  }

  lemma {:induction false} LeadingBlanksMeaning(s: string)
    ensures forall k :: 0 <= k < LeadingBlanks(s) ==> IsTrimmed(s[k])
    ensures LeadingBlanks(s) < |s| ==> !IsTrimmed(s[LeadingBlanks(s)])
  {
    if |s| > 0 && IsTrimmed(s[0]) {
      LeadingBlanksMeaning(s[1..]);
    }
  }

  /** Number of blanks at the back. */
  function TrailingBlanks(s: string): (n: nat)
    ensures n <= |s|
  {
    if |s| > 0 && IsTrimmed(s[|s| - 1]) then 1 + TrailingBlanks(s[..|s| - 1]) else 0
  }

  lemma {:induction false} TrailingBlanksMeaning(s: string)
    ensures forall k :: |s| - TrailingBlanks(s) <= k < |s| ==> IsTrimmed(s[k])
    ensures TrailingBlanks(s) < |s| ==> !IsTrimmed(s[|s| - TrailingBlanks(s) - 1])
  {
    if |s| > 0 && IsTrimmed(s[|s| - 1]) {
      TrailingBlanksMeaning(s[..|s| - 1]);
    }
  }

  /** Number of blanks Trim drops at the front. */
  function TrimStart(s: string): (i: nat)
    ensures i <= |s|
  {
    LeadingBlanks(s)
  }

  /** One past the last character Trim keeps. */
  function TrimEnd(s: string): (j: nat)
    ensures TrimStart(s) <= j <= |s|
  {
    var i := LeadingBlanks(s);
    |s| - TrailingBlanks(s[i..])
  }

  /** String.trim: drop every leading and trailing character whose code is at most U+0020. */
  function Trim(s: string): string
  {
    s[TrimStart(s)..TrimEnd(s)]
  }

  /** Trim removes a run of blanks at each end and keeps the middle untouched. */
  lemma TrimShape(s: string)
    ensures var r, i := Trim(s), TrimStart(s);
      && i + |r| <= |s| && r == s[i..i + |r|]
      && (forall k :: 0 <= k < i ==> IsTrimmed(s[k]))
      && (forall k :: i + |r| <= k < |s| ==> IsTrimmed(s[k]))
      && (r != [] ==> !IsTrimmed(r[0]) && !IsTrimmed(r[|r| - 1]))
  {
    var i := LeadingBlanks(s);
    var t := s[i..];
    var n := TrailingBlanks(t);
    LeadingBlanksMeaning(s);
    TrailingBlanksMeaning(t);
    forall k | i + |Trim(s)| <= k < |s| ensures IsTrimmed(s[k]) {
      assert s[k] == t[k - i];
    }
    if Trim(s) != [] {
      assert Trim(s)[0] == s[i];
      assert Trim(s)[|Trim(s)| - 1] == t[|t| - n - 1];
    }
  }

  /** A blank string (every character at most U+0020) trims to the empty string, and conversely. */
  lemma TrimEmptyIffBlank(s: string)
    ensures Trim(s) == [] <==> forall k :: 0 <= k < |s| ==> IsTrimmed(s[k])
  {
    TrimShape(s);
    LeadingBlanksMeaning(s);
    if forall k :: 0 <= k < |s| ==> IsTrimmed(s[k]) {
      if TrimStart(s) < |s| {
        assert IsTrimmed(s[TrimStart(s)]);
      }
    }
  }

  lemma TrimIdempotent(s: string)
    ensures Trim(Trim(s)) == Trim(s)
  {
    var t := Trim(s);
    TrimShape(s);
    if t != [] {
      LeadingBlanksMeaning(t);
      TrailingBlanksMeaning(t);
      assert LeadingBlanks(t) == 0;
      assert t[0..] == t;
      assert TrailingBlanks(t) == 0;
    }
  }

  // ---------------------------------------------------------------------------
  // String.join(", ", xs)

  function JoinComma(xs: seq<string>): string
  {
    if xs == [] then "" else if |xs| == 1 then xs[0] else xs[0] + ", " + JoinComma(xs[1..])
  }

  // ---------------------------------------------------------------------------
  // Integer.parseInt on decimal text (ASCII digits); a null string fails too.

  predicate IsDigit(c: char) { '0' <= c <= '9' }

  predicate AllDigits(s: string) { forall i :: 0 <= i < |s| ==> IsDigit(s[i]) }

  function DigitsValue(s: string): (n: nat)
    requires AllDigits(s)
  {
    if s == [] then 0 else DigitsValue(s[..|s| - 1]) * 10 + (s[|s| - 1] as int - '0' as int)
  }

  /** The value parsed, or None where parseInt throws NumberFormatException. */
  function ParseInt(s: Option<string>): (r: Option<int>)
    ensures r.Some? ==> IsInt32(r.value)
    ensures r.Some? ==> s.Some? && |s.value| > 0
  {
    match s
    case None => None
    case Some(t) =>
      var neg := |t| > 0 && t[0] == '-';
      var digits := if |t| > 0 && (t[0] == '-' || t[0] == '+') then t[1..] else t;
      if |digits| == 0 || !AllDigits(digits) then None
      else
        var magnitude: int := DigitsValue(digits);
        var v := if neg then 0 - magnitude else magnitude;
        if IsInt32(v) then Some(v) else None
  }

  function DigitChar(d: nat): (c: char)
    requires d < 10
    ensures IsDigit(c) && c as int - '0' as int == d
  {
    ('0' as int + d) as char
  }

  /** Integer.toString for non-negative numbers. */
  function Decimal(n: nat): (s: string)
    ensures |s| > 0 && AllDigits(s)
  {
    if n < 10 then [DigitChar(n)] else Decimal(n / 10) + [DigitChar(n % 10)]
  }

  lemma {:induction false} DecimalValue(n: nat)
    ensures DigitsValue(Decimal(n)) == n
  {
    if n >= 10 {
      DecimalValue(n / 10);
      var s := Decimal(n);
      assert s[..|s| - 1] == Decimal(n / 10);
    }
  }

  /** parseInt reads back every non-negative int that toString writes. */
  lemma ParseIntOfDecimal(n: nat)
    requires n <= MAX_INT
    ensures ParseInt(Some(Decimal(n))) == Some(n)
  {
    DecimalValue(n);
    var s := Decimal(n);
    assert IsDigit(s[0]);
  }
}
