/** String helpers that stand in for the JavaScript string methods the
    services call: `toLowerCase`, `trim` and `includes`. Lower-casing is
    modelled on ASCII letters only. */
module Text {

  /** JavaScript `toLowerCase` on one character, restricted to ASCII letters. */
  function LowerChar(c: char): char {
    if 'A' <= c <= 'Z' then (c as int + 32) as char else c
  }

  function Lower(s: string): (r: string)
    ensures |r| == |s|
    ensures forall i :: 0 <= i < |s| ==> r[i] == LowerChar(s[i])
  {
    seq(|s|, i requires 0 <= i < |s| => LowerChar(s[i]))
  }

  /** A string that lower-casing leaves as it is. */
  predicate IsLower(s: string) {
    forall i :: 0 <= i < |s| ==> LowerChar(s[i]) == s[i]
  }

  lemma LowerIsLower(s: string)
    ensures IsLower(Lower(s))
  {
    forall i | 0 <= i < |s| ensures LowerChar(Lower(s)[i]) == Lower(s)[i] {
      var c := s[i];
      if 'A' <= c <= 'Z' {
        assert Lower(s)[i] == (c as int + 32) as char;
      }
    }
  }

  lemma LowerOfLower(s: string)
    requires IsLower(s)
    ensures Lower(s) == s
  {
  }

  /** The characters JavaScript's `trim` removes (line terminators, tab,
      vertical tab, form feed, space, no-break space, byte-order mark and the
      line/paragraph separators; other Unicode space separators are not
      modelled). */
  const Spaces: set<char> :=
    {' ', '\t', '\n', '\r', '\U{000B}', '\U{000C}', '\U{00A0}', '\U{FEFF}', '\U{2028}', '\U{2029}'}

  predicate IsSpace(c: char) {
    c in Spaces
  }

  /** Every character of `p` is white space. */
  predicate AllSpace(p: string) {
    forall i :: 0 <= i < |p| ==> IsSpace(p[i])
  }

  /** How many white-space characters `s` starts with. */
  function LeadingSpaces(s: string): (n: nat)
    ensures n <= |s| && AllSpace(s[..n])
    ensures n == |s| || !IsSpace(s[n])
  {
    if |s| > 0 && IsSpace(s[0]) then
      var m := LeadingSpaces(s[1..]);
      assert s[..m + 1][1..] == s[1..][..m];
      assert m == |s| - 1 || s[m + 1] == s[1..][m];
      m + 1
    else 0
  }

  /** How many white-space characters `s` ends with. */
  function TrailingSpaces(s: string): (n: nat)
    ensures n <= |s| && AllSpace(s[|s| - n..])
    ensures n == |s| || !IsSpace(s[|s| - n - 1])
  {
    if |s| > 0 && IsSpace(s[|s| - 1]) then
      var p := s[..|s| - 1];
      var m := TrailingSpaces(p);
      assert s[|s| - (m + 1)..] == p[|p| - m..] + [s[|s| - 1]];
      assert m == |p| || s[|s| - m - 2] == p[|p| - m - 1];
      m + 1
    else 0
  }

  /** JavaScript `trim`: `s` without its leading and trailing white space,
      so that what is left neither starts nor ends with white space
      (`TrimSpaceAround` says where it sits in `s`). */
  function Trim(s: string): (r: string)
    ensures r == [] || (!IsSpace(r[0]) && !IsSpace(r[|r| - 1]))
  {
    var t := s[LeadingSpaces(s)..];
    t[..|t| - TrailingSpaces(t)]
  }

  /** `Trim(s)` occurs in `s` right after the leading white space, and what
      `Trim` removes on both sides of it is white space. */
  lemma TrimSpaceAround(s: string)
    ensures var a := LeadingSpaces(s);
      OccursAt(s, Trim(s), a) && AllSpace(s[..a]) && AllSpace(s[a + |Trim(s)|..])
  {
    var t := s[LeadingSpaces(s)..];
    TrimmedWithin(s, LeadingSpaces(s), t, TrailingSpaces(t), Trim(s));
  }

  /** Cutting `b` white-space characters off the end of the suffix `t` of `s`
      from `a` leaves a part `r` of `s` at `a` that only white space follows. */
  lemma TrimmedWithin(s: string, a: nat, t: string, b: nat, r: string)
    requires a <= |s| && t == s[a..] && b <= |t| && AllSpace(t[|t| - b..])
    requires r == t[..|t| - b]
    ensures OccursAt(s, r, a) && AllSpace(s[a + |r|..])
  {
    PrefixOfSuffix(s, a, |r|);
    assert s[a + |r|..] == t[|t| - b..];
  }

  lemma PrefixOfSuffix(s: string, i: nat, n: nat)
    requires i + n <= |s|
    ensures s[i..][..n] == s[i..i + n]
  {
  }

  /** The comparability key of the price history: `s.toLowerCase().trim()`. */
  function Normalize(s: string): (r: string)
    ensures IsLower(r)
  {
    LowerIsLower(s);
    Trim(Lower(s))
  }

  /** SQL `LOWER` over a stored normalized key changes nothing, so matching
      `LOWER(manufacturerNormalized) = key` is plain equality of keys. */
  lemma {:induction false} LowerOfNormalize(s: string)
    ensures Lower(Normalize(s)) == Normalize(s)
  {
    LowerOfLower(Normalize(s));
  }

  lemma {:induction false} NormalizeIdempotent(s: string)
    ensures Normalize(Normalize(s)) == Normalize(s)
  {
    var n := Normalize(s);
    LowerOfLower(n);
    TrimOfTrimmed(n);
  }

  lemma TrimOfTrimmed(s: string)
    requires s == [] || (!IsSpace(s[0]) && !IsSpace(s[|s| - 1]))
    ensures Trim(s) == s
  {
  }

  /** `needle` occurs in `hay` starting at offset `i`. */
  predicate OccursAt(hay: string, needle: string, i: int) {
    0 <= i <= |hay| - |needle| && hay[i..i + |needle|] == needle
  }

  /** JavaScript `hay.includes(needle)`. */
  function Contains(hay: string, needle: string): bool
    decreases |hay|
  {
    needle <= hay || (|hay| > 0 && Contains(hay[1..], needle))
  }

  /** `Contains` is the usual substring relation: `needle` occurs at some
      offset of `hay`. */
  lemma {:induction false} ContainsIff(hay: string, needle: string)
    ensures Contains(hay, needle) <==> exists i :: OccursAt(hay, needle, i)
    decreases |hay|
  {
    if needle <= hay {
      assert hay[0..|needle|] == needle;
      assert OccursAt(hay, needle, 0);
    } else if |hay| > 0 {
      ContainsIff(hay[1..], needle);
      if Contains(hay[1..], needle) {
        var i :| OccursAt(hay[1..], needle, i);
        assert hay[i + 1..i + 1 + |needle|] == needle;
        assert OccursAt(hay, needle, i + 1);
      }
      if exists i :: OccursAt(hay, needle, i) {
        var i :| OccursAt(hay, needle, i);
        if i > 0 {
          assert hay[1..][i - 1..i - 1 + |needle|] == needle;
          assert OccursAt(hay[1..], needle, i - 1);
        }
      }
    }
  }

  /** Every string contains the empty string; JavaScript agrees (`"x".includes("")`). */
  lemma ContainsEmpty(hay: string)
    ensures Contains(hay, "")
  {
  }

  predicate IsDigit(c: char) {
    '0' as int <= c as int <= '9' as int
  }

  /** The decimal text of a natural number, as template interpolation writes it. */
  function Decimal(n: nat): (r: string)
    ensures |r| >= 1 && forall i :: 0 <= i < |r| ==> IsDigit(r[i])
    ensures n < 10 <==> |r| == 1
  {
    if n < 10 then ['0' + n as char]
    else Decimal(n / 10) + ['0' + (n % 10) as char]
  }

  /** Reading the digits back gives the number. */
  function DigitsValue(s: string): (v: nat)
    requires forall i :: 0 <= i < |s| ==> IsDigit(s[i])
  {
    if s == [] then 0
    else
      assert IsDigit(s[|s| - 1]);
      10 * DigitsValue(s[..|s| - 1]) + (s[|s| - 1] as int - '0' as int)
  }

  lemma {:induction false} DecimalRoundTrip(n: nat)
    ensures DigitsValue(Decimal(n)) == n
  {
    if n >= 10 {
      DecimalRoundTrip(n / 10);
      var r := Decimal(n);
      assert r[..|r| - 1] == Decimal(n / 10);
    }
  }
}
