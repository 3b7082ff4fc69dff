/** The few Python string and list operations the validators rely on:
    `str.isspace`/`str.strip`, `str.lower`, `str.isalnum`, `str.replace`
    with an empty replacement, `len(set(xs))`, `str(int)` and `str.join`. */
module Text {

  /** Python's `str.isspace`: the characters `str.strip()` removes. */
  predicate IsSpace(c: char) {
    || ('\t' <= c <= '\r')
    || ('\U{1c}' <= c <= '\U{1f}')
    || c == ' '
    || c == '\U{85}'
    || c == '\U{a0}'
    || c == '\U{1680}'
    || ('\U{2000}' <= c <= '\U{200a}')
    || c == '\U{2028}'
    || c == '\U{2029}'
    || c == '\U{202f}'
    || c == '\U{205f}'
    || c == '\U{3000}'
  }

  predicate AllSpace(s: string) {
    forall i :: 0 <= i < |s| ==> IsSpace(s[i])
  }

  /** How many whitespace characters `s` starts with. */
  function LeadingSpaces(s: string): (n: nat)
    ensures n <= |s|
    ensures forall i :: 0 <= i < n ==> IsSpace(s[i])
    ensures n == |s| || !IsSpace(s[n])
    decreases |s|
  {
    if |s| > 0 && IsSpace(s[0]) then 1 + LeadingSpaces(s[1..]) else 0
  }

  /** How many whitespace characters `s` ends with. */
  function TrailingSpaces(s: string): (n: nat)
    ensures n <= |s|
    ensures forall i :: |s| - n <= i < |s| ==> IsSpace(s[i])
    ensures n == |s| || !IsSpace(s[|s| - n - 1])
    decreases |s|
  {
    if |s| > 0 && IsSpace(s[|s| - 1]) then 1 + TrailingSpaces(s[..|s| - 1]) else 0
  }

  /** `s.lstrip()`: what is left is a suffix of `s`, everything cut off is
      whitespace, and what is left does not start with whitespace. */
  function LStrip(s: string): (r: string)
    ensures |r| <= |s| && r == s[|s| - |r|..]
    ensures AllSpace(s[..|s| - |r|])
    ensures r == [] || !IsSpace(r[0])
  {
    s[LeadingSpaces(s)..]
  }

  /** `s.rstrip()`: a prefix of `s`, whitespace cut off, not ending in whitespace. */
  function RStrip(s: string): (r: string)
    ensures |r| <= |s| && r == s[..|r|]
    ensures AllSpace(s[|r|..])
    ensures r == [] || !IsSpace(r[|r| - 1])
  {
    s[..|s| - TrailingSpaces(s)]
  }

  /** `s.strip()`. */
  function Strip(s: string): (r: string)
  {
    RStrip(LStrip(s))
  }

  /** Reference characterisation of `Strip`: the result is the slice of `s`
      between a whitespace prefix and a whitespace suffix, and it neither
      starts nor ends with whitespace. */
  lemma StripIsTrimmedSlice(s: string)
    ensures |s| - |LStrip(s)| + |Strip(s)| <= |s|
    ensures Strip(s) == s[|s| - |LStrip(s)|..|s| - |LStrip(s)| + |Strip(s)|]
    ensures AllSpace(s[..|s| - |LStrip(s)|])
    ensures AllSpace(s[|s| - |LStrip(s)| + |Strip(s)|..])
    ensures Strip(s) == [] || (!IsSpace(Strip(s)[0]) && !IsSpace(Strip(s)[|Strip(s)| - 1]))
  {
    var l := LStrip(s);
    var r := RStrip(l);
    var i := |s| - |l|;
    var j := i + |r|;
    assert l[|r|..] == s[j..];
    if r != [] {
      assert r[0] == l[0];
    }
  }

  /** Stripping is idempotent: a stored, already stripped value validates to itself. */
  lemma {:induction false} StripIdempotent(s: string)
    ensures Strip(Strip(s)) == Strip(s)
  {
    var t := Strip(s);
    StripIsTrimmedSlice(s);
    assert LStrip(t) == t;
    assert RStrip(t) == t;
  }

  /** `not s.strip()` holds exactly for strings made of whitespace only. */
  lemma {:induction false} StripEmptyIffBlank(s: string)
    ensures Strip(s) == [] <==> AllSpace(s)
  {
    var l := LStrip(s);
    var i := |s| - |l|;
    if Strip(s) == [] {
      assert AllSpace(l[0..]);
      assert s == s[..i] + l;
    }
  }

  /** `str.lower` restricted to ASCII letters. */
  function LowerChar(c: char): char {
    if 'A' <= c <= 'Z' then (c as int + 32) as char else c
  }

  predicate IsUpperChar(c: char) {
    'A' <= c <= 'Z'
  }

  function Lower(s: string): (r: string)
    ensures |r| == |s|
    ensures forall i :: 0 <= i < |s| ==> r[i] == LowerChar(s[i]) && !IsUpperChar(r[i])
  {
    seq(|s|, i requires 0 <= i < |s| => LowerChar(s[i]))
  }

  lemma LowerOfLowercase(s: string)
    requires forall i :: 0 <= i < |s| ==> !IsUpperChar(s[i])
    ensures Lower(s) == s
  {
  }

  lemma LowerIdempotent(s: string)
    ensures Lower(Lower(s)) == Lower(s)
  {
    LowerOfLowercase(Lower(s));
  }

  predicate IsAlnumChar(c: char) {
    ('a' <= c <= 'z') || ('A' <= c <= 'Z') || ('0' <= c <= '9')
  }

  /** `str.isalnum` for ASCII: non-empty and every character a letter or digit. */
  predicate IsAlnum(s: string) {
    |s| > 0 && forall i :: 0 <= i < |s| ==> IsAlnumChar(s[i])
  }

  /** `s.replace(c, "")`. */
  function Remove(s: string, c: char): (r: string)
    ensures |r| <= |s|
    ensures forall x :: x in r <==> x in s && x != c
  {
    if s == [] then []
    else if s[0] == c then Remove(s[1..], c)
    else [s[0]] + Remove(s[1..], c)
  }

  /** `set(xs)`. */
  function Elements<T>(s: seq<T>): set<T> {
    set x | x in s
  }

  predicate Distinct<T(==)>(s: seq<T>) {
    forall i, j :: 0 <= i < j < |s| ==> s[i] != s[j]
  }

  lemma {:induction false} ElementsBound<T>(s: seq<T>)
    ensures |Elements(s)| <= |s|
  {
    if s == [] {
      assert Elements(s) == {};
    } else {
      ElementsBound(s[1..]);
      assert Elements(s) == {s[0]} + Elements(s[1..]);
    }
  }

  /** The validators' duplicate test `len(xs) != len(set(xs))` holds exactly
      when two positions of the list carry the same element. */
  lemma {:induction false} DistinctIffNoCollapse<T>(s: seq<T>)
    ensures Distinct(s) <==> |Elements(s)| == |s|
  {
    if s == [] {
      assert Elements(s) == {};
    } else {
      var t := s[1..];
      DistinctIffNoCollapse(t);
      ElementsBound(t);
      assert Elements(s) == {s[0]} + Elements(t);
      if s[0] in t {
        assert Elements(s) == Elements(t);
        var k :| 0 <= k < |t| && t[k] == s[0];
        assert s[0] == s[k + 1];
      } else {
        assert |Elements(s)| == |Elements(t)| + 1;
        if Distinct(t) {
          forall i, j | 0 <= i < j < |s|
            ensures s[i] != s[j]
          {
            if i == 0 {
              assert s[j] == t[j - 1];
            } else {
              assert s[i] == t[i - 1] && s[j] == t[j - 1];
            }
          }
        }
        if Distinct(s) {
          forall i, j | 0 <= i < j < |t|
            ensures t[i] != t[j]
          {
            assert t[i] == s[i + 1] && t[j] == s[j + 1];
          }
        }
      }
    }
  }

  function DigitChar(d: nat): char
    requires d < 10
  {
    "0123456789"[d]
  }

  /** `str(n)` for a non-negative integer. */
  function NatToDecimal(n: nat): (r: string)
    ensures |r| >= 1
    decreases n
  {
    if n < 10 then [DigitChar(n)] else NatToDecimal(n / 10) + [DigitChar(n % 10)]
  }

  /** `str(i)` for any integer. */
  function IntToDecimal(i: int): string {
    if i < 0 then "-" + NatToDecimal(-i) else NatToDecimal(i)
  }

  /** `sep.join(parts)`. */
  function Join(parts: seq<string>, sep: string): string {
    if |parts| == 0 then ""
    else if |parts| == 1 then parts[0]
    else parts[0] + sep + Join(parts[1..], sep)
  }
}
