/**
 * The string operations the app relies on from the Kotlin standard library:
 * `isWhitespace`, `isBlank`, `trim`, `lowercase`, `contains` (with and
 * without `ignoreCase`), `compareTo` and the decimal rendering of a `Long`.
 * Strings are sequences of characters.
 */
module Text {
  import opened Wrappers

  // ---------------------------------------------------------------------
  // Whitespace, isBlank, trim
  // ---------------------------------------------------------------------

  /** Kotlin's `Char.isWhitespace()` on the JVM: `Character.isWhitespace(c) || Character.isSpaceChar(c)`,
    * that is the ASCII controls TAB..CR and FS..US, the space separators, and the line and paragraph separators. */
  predicate IsWhitespace(c: char) {
    || ('\t' <= c <= '\r')
    || ('\U{1C}' <= c <= ' ')
    || c == '\U{A0}' || c == '\U{1680}'
    || ('\U{2000}' <= c <= '\U{200A}')
    || c == '\U{2028}' || c == '\U{2029}' || c == '\U{202F}' || c == '\U{205F}' || c == '\U{3000}'
  }

  /** Every character of `s` satisfies `p`. */
  predicate All(p: char -> bool, s: string) {
    forall i :: 0 <= i < |s| ==> p(s[i])
  }

  /** `CharSequence.isBlank()`: empty, or whitespace only. */
  predicate IsBlank(s: string) {
    All(IsWhitespace, s)
  }

  /** The length of the longest prefix of `s` whose characters satisfy `p`. */
  function LeadingRun(p: char -> bool, s: string): (n: nat)
    ensures n <= |s| && All(p, s[..n]) && (n < |s| ==> !p(s[n]))
  {
    if s != [] && p(s[0]) then
      var m := LeadingRun(p, s[1..]);
      assert s[..1 + m] == [s[0]] + s[1..][..m];
      1 + m
    else 0
  }

  /** The length of the longest suffix of `s` whose characters satisfy `p`. */
  function TrailingRun(p: char -> bool, s: string): (n: nat)
    ensures n <= |s| && All(p, s[|s| - n..]) && (n < |s| ==> !p(s[|s| - n - 1]))
  {
    if s != [] && p(s[|s| - 1]) then
      var m := TrailingRun(p, s[..|s| - 1]);
      assert s[|s| - (1 + m)..] == s[..|s| - 1][|s| - 1 - m..] + [s[|s| - 1]];
      1 + m
    else 0
  }

  /** Kotlin's `CharSequence.trim(predicate)`: the slice of `s` from its first to its last
    * character that does not satisfy `p`, or the empty string when there is none. */
  function TrimBy(p: char -> bool, s: string): (r: string)
    ensures r == [] <==> All(p, s)
    ensures r != [] ==> !p(r[0]) && !p(r[|r| - 1])
    ensures r != [] ==> var i := LeadingRun(p, s); i + |r| <= |s| && r == s[i..i + |r|] && All(p, s[i + |r|..])
  {
    var i := LeadingRun(p, s);
    var j := |s| - TrailingRun(p, s);
    if i == |s| then
      assert s[..i] == s;
      []
    else
      assert !p(s[i]);
      assert i < j;
      s[i..j]
  }

  /** `String.trim()`: the slice of `s` between its leading and its trailing whitespace;
    * a blank string trims to the empty string. */
  function Trim(s: string): (r: string)
    ensures r == [] <==> IsBlank(s)
    ensures r != [] ==> !IsWhitespace(r[0]) && !IsWhitespace(r[|r| - 1])
    ensures r != [] ==> var i := LeadingRun(IsWhitespace, s);
      i + |r| <= |s| && r == s[i..i + |r|] && IsBlank(s[..i]) && IsBlank(s[i + |r|..])
  {
    var r := TrimBy(IsWhitespace, s);
    assert All(IsWhitespace, s[..LeadingRun(IsWhitespace, s)]);
    r
  }

  // ---------------------------------------------------------------------
  // Case: lowercase() and an abstract case fold
  // ---------------------------------------------------------------------

  /** `Char.lowercaseChar()` restricted to ASCII: A..Z become a..z, every other character is kept. */
  function Lower(c: char): char {
    if 'A' <= c <= 'Z' then (c as int + 32) as char else c
  }

  /** Applies a per-character case mapping to every character of `s`. */
  function FoldAll(fold: char -> char, s: string): (r: string)
    ensures |r| == |s|
    ensures forall i :: 0 <= i < |s| ==> r[i] == fold(s[i])
  {
    seq(|s|, i requires 0 <= i < |s| => fold(s[i]))
  }

  /** `String.lowercase()`. */
  function LowerAll(s: string): string {
    FoldAll(Lower, s)
  }

  /** Lowercasing is idempotent, and a lowercased string contains no A..Z. */
  lemma LowerAllIdempotent(s: string)
    ensures LowerAll(LowerAll(s)) == LowerAll(s)
    ensures forall i :: 0 <= i < |s| ==> !('A' <= LowerAll(s)[i] <= 'Z')
  {
  }

  // ---------------------------------------------------------------------
  // Substrings: contains(other) and contains(other, ignoreCase = true)
  // ---------------------------------------------------------------------

  /** `sub` occurs in `s` starting at index `i`. */
  predicate OccursAt(s: string, sub: string, i: int) {
    0 <= i && i + |sub| <= |s| && s[i..i + |sub|] == sub
  }

  /** `CharSequence.contains(other)`: the empty string occurs in every string. */
  predicate Contains(s: string, sub: string)
    decreases |s|
  {
    |sub| <= |s| && (s[..|sub|] == sub || Contains(s[1..], sub))
  }

  lemma {:induction false} ContainsIffOccurs(s: string, sub: string)
    ensures Contains(s, sub) <==> exists i :: OccursAt(s, sub, i)
    decreases |s|
  {
    if |sub| > |s| {
    } else if s[..|sub|] == sub {
      assert OccursAt(s, sub, 0);
    } else {
      ContainsIffOccurs(s[1..], sub);
      if Contains(s, sub) {
        var i :| OccursAt(s[1..], sub, i);
        assert s[1..][i..i + |sub|] == s[i + 1..i + 1 + |sub|];
        assert OccursAt(s, sub, i + 1);
      }
      if exists i :: OccursAt(s, sub, i) {
        var i :| OccursAt(s, sub, i);
        assert i != 0;
        assert s[1..][i - 1..i - 1 + |sub|] == s[i..i + |sub|];
        assert OccursAt(s[1..], sub, i - 1);
      }
    }
  }

  /** Kotlin's `regionMatches(ignoreCase = true)` at index `i`: every character of `sub`
    * matches the character of `s` under it once both are case-folded. */
  predicate MatchesAt(fold: char -> char, s: string, sub: string, i: int) {
    0 <= i && i + |sub| <= |s| && forall k :: 0 <= k < |sub| ==> fold(s[i + k]) == fold(sub[k])
  }

  /** `CharSequence.contains(other, ignoreCase = true)`, with `fold` standing for the
    * platform's per-character case comparison. */
  predicate ContainsIgnoringCase(fold: char -> char, s: string, sub: string) {
    Contains(FoldAll(fold, s), FoldAll(fold, sub))
  }

  /** Searching the folded strings finds exactly the windows that match ignoring case. */
  lemma ContainsIgnoringCaseIffMatches(fold: char -> char, s: string, sub: string)
    ensures ContainsIgnoringCase(fold, s, sub) <==> exists i :: MatchesAt(fold, s, sub, i)
  {
    var fs, fsub := FoldAll(fold, s), FoldAll(fold, sub);
    ContainsIffOccurs(fs, fsub);
    forall i ensures OccursAt(fs, fsub, i) <==> MatchesAt(fold, s, sub, i) {
      if 0 <= i && i + |sub| <= |s| {
        if OccursAt(fs, fsub, i) {
          forall k | 0 <= k < |sub| ensures fold(s[i + k]) == fold(sub[k]) {
            assert fs[i..i + |sub|][k] == fs[i + k];
          }
        }
        if MatchesAt(fold, s, sub, i) {
          assert fs[i..i + |sub|] == fsub;
        }
      }
    }
  }

  // ---------------------------------------------------------------------
  // String.compareTo: lexicographic order
  // ---------------------------------------------------------------------

  /** `a.compareTo(b) <= 0`: a proper prefix comes first, otherwise the first differing character decides. */
  predicate LexLe(a: string, b: string) {
    |a| == 0 || (|b| > 0 && (a[0] < b[0] || (a[0] == b[0] && LexLe(a[1..], b[1..]))))
  }

  lemma {:induction false} LexLeTotal(a: string, b: string)
    ensures LexLe(a, b) || LexLe(b, a)
  {
    if |a| > 0 && |b| > 0 && a[0] == b[0] {
      LexLeTotal(a[1..], b[1..]);
    }
  }

  lemma {:induction false} LexLeTransitive(a: string, b: string, c: string)
    requires LexLe(a, b) && LexLe(b, c)
    ensures LexLe(a, c)
  {
    if |a| > 0 && a[0] == b[0] && b[0] == c[0] {
      LexLeTransitive(a[1..], b[1..], c[1..]);
    }
  }

  lemma {:induction false} LexLeAntisymmetric(a: string, b: string)
    requires LexLe(a, b) && LexLe(b, a)
    ensures a == b
  {
    if |a| > 0 {
      LexLeAntisymmetric(a[1..], b[1..]);
      assert a == [a[0]] + a[1..] && b == [b[0]] + b[1..];
    }
  }

  // ---------------------------------------------------------------------
  // Decimal rendering of integers (Long.toString, "%d") and its inverse
  // ---------------------------------------------------------------------

  predicate IsDigit(c: char) {
    '0' <= c <= '9'
  }

  predicate AllDigits(s: string) {
    forall i :: 0 <= i < |s| ==> IsDigit(s[i])
  }

  function DigitChar(d: nat): (c: char)
    requires d < 10
    ensures IsDigit(c) && c as int - '0' as int == d
  {
    ('0' as int + d) as char
  }

  /** The decimal digits of `n`, without leading zeros. */
  function Natural(n: nat): (r: string)
    ensures 1 <= |r| && AllDigits(r)
    ensures n < 10 <==> |r| == 1
    ensures r[0] == '0' ==> n == 0
  {
    if n < 10 then [DigitChar(n)] else Natural(n / 10) + [DigitChar(n % 10)]
  }

  /** `Long.toString()` and `"%d"`: a minus sign for negative values, then the digits of the magnitude. */
  function Decimal(n: int): string {
    if n < 0 then "-" + Natural(-n) else Natural(n)
  }

  /** The value of a string of decimal digits. */
  function ParseNatural(s: string): nat
    requires AllDigits(s)
  {
    if s == [] then 0 else ParseNatural(s[..|s| - 1]) * 10 + (s[|s| - 1] as int - '0' as int)
  }

  /** Reads back what `Decimal` writes: an optional minus sign followed by at least one digit. */
  function ParseDecimal(s: string): Option<int> {
    if 2 <= |s| && s[0] == '-' && AllDigits(s[1..]) then Some(-(ParseNatural(s[1..]) as int))
    else if 1 <= |s| && AllDigits(s) then Some(ParseNatural(s))
    else None
  }

  lemma {:induction false} ParseNaturalInverse(n: nat)
    ensures ParseNatural(Natural(n)) == n
  {
    if n >= 10 {
      var r := Natural(n);
      assert r[..|r| - 1] == Natural(n / 10);
      ParseNaturalInverse(n / 10);
    }
  }

  /** `Decimal` loses nothing: parsing its output gives the number back. */
  lemma DecimalRoundTrip(n: int)
    ensures ParseDecimal(Decimal(n)) == Some(n)
  {
    if n < 0 {
      ParseNaturalInverse(-n);
      assert Decimal(n)[1..] == Natural(-n);
    } else {
      ParseNaturalInverse(n);
    }
  }

  /** Distinct numbers have distinct decimal renderings. */
  lemma DecimalInjective(a: int, b: int)
    requires Decimal(a) == Decimal(b)
    ensures a == b
  {
    DecimalRoundTrip(a);
    DecimalRoundTrip(b);
  }
}
