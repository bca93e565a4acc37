/**
 * The string primitives the chat screen relies on, with JavaScript's meaning:
 * `String.prototype.trim`, `toLowerCase`, `includes`/`indexOf`, and the decimal
 * rendering of a non-negative integer in a template literal.
 */
module Text {
  import opened Types

  /** The code points `trim` removes: JavaScript's WhiteSpace and LineTerminator sets. */
  predicate IsSpace(c: char) {
    c == '\t' || c == '\n' || c == '\U{000B}' || c == '\U{000C}' || c == '\r' || c == ' '
    || c == '\U{00A0}' || c == '\U{1680}' || ('\U{2000}' <= c <= '\U{200A}')
    || c == '\U{2028}' || c == '\U{2029}' || c == '\U{202F}' || c == '\U{205F}'
    || c == '\U{3000}' || c == '\U{FEFF}'
  }

  predicate AllSpace(s: string) {
    forall i :: 0 <= i < |s| ==> IsSpace(s[i])
  }

  /** The length of the white-space run at the start of `s`. */
  function LeadingSpaces(s: string): (k: nat)
    ensures k <= |s|
    ensures AllSpace(s[..k])
    ensures k < |s| ==> !IsSpace(s[k])
  {
    if s == [] || !IsSpace(s[0]) then 0
    else
      var k := LeadingSpaces(s[1..]);
      assert s[..k + 1] == [s[0]] + s[1..][..k];
      k + 1
  }

  /** The length of the white-space run at the end of `s`. */
  function TrailingSpaces(s: string): (k: nat)
    ensures k <= |s|
    ensures AllSpace(s[|s| - k..])
    ensures k < |s| ==> !IsSpace(s[|s| - 1 - k])
  {
    if s == [] || !IsSpace(s[|s| - 1]) then 0
    else
      var init := s[..|s| - 1];
      var k := TrailingSpaces(init);
      assert s[|s| - (k + 1)..] == init[|init| - k..] + [s[|s| - 1]];
      k + 1
  }

  /** `s` without its leading white space: a suffix of `s`, empty exactly when `s` is all white space. */
  function TrimStart(s: string): (t: string)
    ensures |t| <= |s| && t == s[|s| - |t|..] && AllSpace(s[..|s| - |t|])
    ensures t != [] ==> !IsSpace(t[0])
    ensures t == [] <==> AllSpace(s)
  {
    var a := LeadingSpaces(s);
    assert a == |s| ==> s[..a] == s;
    s[a..]
  }

  /** `t` without its trailing white space: a prefix of `t`, empty exactly when `t` is all white space. */
  function TrimEnd(t: string): (r: string)
    ensures |r| <= |t| && r == t[..|r|] && AllSpace(t[|r|..])
    ensures r != [] ==> !IsSpace(r[|r| - 1])
    ensures r == [] <==> AllSpace(t)
  {
    var b := TrailingSpaces(t);
    assert b == |t| ==> t[|t| - b..] == t;
    t[..|t| - b]
  }

  /** `r` is a piece of `s` with nothing but white space before and after it. */
  ghost predicate FramedBySpace(s: string, r: string) {
    exists a :: 0 <= a <= |s| - |r| && s[a..a + |r|] == r && AllSpace(s[..a]) && AllSpace(s[a + |r|..])
  }

  /**
   * `s.trim()`: `s` with its leading and trailing white space removed. The result is
   * the piece of `s` that sits between two all-white-space runs, it neither starts
   * nor ends with white space, and it is empty exactly when `s` is all white space.
   */
  function Trim(s: string): (r: string)
    ensures |r| <= |s|
    ensures FramedBySpace(s, r)
    ensures r != [] ==> !IsSpace(r[0]) && !IsSpace(r[|r| - 1])
    ensures r == [] <==> AllSpace(s)
  {
    TrimShape(s);
    TrimEnd(TrimStart(s))
  }

  /** The facts `Trim` promises, about the two halves it is made of. */
  lemma TrimShape(s: string)
    ensures var r := TrimEnd(TrimStart(s));
            |r| <= |s| && FramedBySpace(s, r)
            && (r != [] ==> !IsSpace(r[0]) && !IsSpace(r[|r| - 1]))
            && (r == [] <==> AllSpace(s))
  {
    var r := TrimEnd(TrimStart(s));
    var a := |s| - |TrimStart(s)|;
    TrimIsPiece(s);
    assert 0 <= a <= |s| - |r| && s[a..a + |r|] == r && AllSpace(s[..a]) && AllSpace(s[a + |r|..]);
    TrimEndsNotSpace(s);
    TrimEmptyIff(s);
  }

  /** The trimmed string sits in `s` between the leading and the trailing white-space runs. */
  lemma TrimIsPiece(s: string)
    ensures var t := TrimStart(s); var r := TrimEnd(t); var a := |s| - |t|;
            a + |r| <= |s| && s[a..a + |r|] == r && AllSpace(s[..a]) && AllSpace(s[a + |r|..])
  {
    var t := TrimStart(s);
    var r := TrimEnd(t);
    var a := |s| - |t|;
    assert t == s[a..];
    assert r == t[..|r|];
    assert s[a..][..|r|] == s[a..a + |r|];
    assert s[a..][|r|..] == s[a + |r|..];
  }

  lemma TrimEndsNotSpace(s: string)
    ensures var r := TrimEnd(TrimStart(s)); r != [] ==> !IsSpace(r[0]) && !IsSpace(r[|r| - 1])
  {
    var t := TrimStart(s);
    var r := TrimEnd(t);
    assert r != [] ==> r[0] == t[0];
  }

  lemma TrimEmptyIff(s: string)
    ensures TrimEnd(TrimStart(s)) == [] <==> AllSpace(s)
  {
    var t := TrimStart(s);
    assert t != [] ==> !AllSpace(t);
  }

  /** Trimming twice is trimming once. */
  lemma TrimIdempotent(s: string)
    ensures Trim(Trim(s)) == Trim(s)
  {
    var r := Trim(s);
    assert LeadingSpaces(r) == 0;
    assert TrailingSpaces(r[0..]) == 0;
  }

  /** `!s.trim()`: the string is empty after trimming. */
  function IsBlank(s: string): (b: bool)
    ensures b <==> AllSpace(s)
  {
    Trim(s) == []
  }

  function LowerChar(c: char): char {
    if 'A' <= c <= 'Z' then (c as int + 32) as char else c
  }

  /**
   * `s.toLowerCase()` restricted to the ASCII letters: each capital letter becomes its
   * small letter, 32 code points further on, every other character is kept, and no
   * capital letter is left.
   */
  function ToLower(s: string): (r: string)
    ensures |r| == |s|
    ensures forall i :: 0 <= i < |s| ==> if 'A' <= s[i] <= 'Z' then r[i] as int == s[i] as int + 32 else r[i] == s[i]
    ensures forall i :: 0 <= i < |r| ==> !('A' <= r[i] <= 'Z')
  {
    seq(|s|, i requires 0 <= i < |s| => LowerChar(s[i]))
  }

  /** `pat` occurs in `s` starting at index `k`. */
  predicate OccursAt(s: string, pat: string, k: nat) {
    k + |pat| <= |s| && s[k..k + |pat|] == pat
  }

  /** `s.indexOf(pat, from)`: the first occurrence of `pat` at or after `from`, if any. */
  function IndexOf(s: string, pat: string, from: nat): (r: Option<nat>)
    ensures r.Some? ==> from <= r.value && OccursAt(s, pat, r.value)
                        && forall k: nat :: from <= k < r.value ==> !OccursAt(s, pat, k)
    ensures r.None? ==> forall k: nat :: from <= k ==> !OccursAt(s, pat, k)
    decreases |s| - from
  {
    if |s| < from + |pat| then None
    else if OccursAt(s, pat, from) then Some(from)
    else IndexOf(s, pat, from + 1)
  }

  /** `s.includes(pat)`. */
  function Includes(s: string, pat: string): (b: bool)
    ensures b <==> exists k: nat :: OccursAt(s, pat, k)
  {
    IndexOf(s, pat, 0).Some?
  }

  predicate IsDigit(c: char) {
    '0' <= c <= '9'
  }

  predicate AllDigits(s: string) {
    forall i :: 0 <= i < |s| ==> IsDigit(s[i])
  }

  function Digit(d: nat): (c: char)
    requires d < 10
    ensures IsDigit(c)
  {
    ('0' as int + d) as char
  }

  /** The decimal rendering of `n`, as `${n}` gives it for a non-negative integer. */
  function NatToString(n: nat): (r: string)
    ensures r != [] && AllDigits(r)
    ensures |r| > 1 ==> r[0] != '0'
  {
    if n < 10 then [Digit(n)] else NatToString(n / 10) + [Digit(n % 10)]
  }

  /** The value of a string of decimal digits: the reference reading of `NatToString`. */
  function DecimalValue(s: string): nat
    requires AllDigits(s)
  {
    if s == [] then 0 else DecimalValue(s[..|s| - 1]) * 10 + (s[|s| - 1] as int - '0' as int)
  }

  /** Reading back the decimal rendering of `n` gives `n`. */
  lemma {:induction false} DecimalRoundTrip(n: nat)
    ensures DecimalValue(NatToString(n)) == n
  {
    if n >= 10 {
      var s := NatToString(n);
      assert s[..|s| - 1] == NatToString(n / 10);
      DecimalRoundTrip(n / 10);
    }
  }

  /** Distinct numbers render as distinct strings. */
  lemma NatToStringInjective(a: nat, b: nat)
    ensures NatToString(a) == NatToString(b) ==> a == b
  {
    DecimalRoundTrip(a);
    DecimalRoundTrip(b);
  }

  /** An occurrence inside a piece of `s` is an occurrence in `s`, shifted by the piece's start. */
  lemma OccursInPiece(s: string, i: nat, t: string, pat: string, k: nat)
    requires i + |t| <= |s| && s[i..i + |t|] == t
    requires OccursAt(t, pat, k)
    ensures OccursAt(s, pat, i + k)
  {
    forall j | 0 <= j < |pat|
      ensures s[i + k + j] == pat[j]
    {
      assert t[k + j] == s[i + k + j];
    }
    assert s[i + k..i + k + |pat|] == pat;
  }

  /** An occurrence in the right operand of a concatenation, shifted past the left one. */
  lemma OccursInConcat(a: string, b: string, pat: string, k: nat)
    requires OccursAt(b, pat, k)
    ensures OccursAt(a + b, pat, |a| + k)
  {
    assert (a + b)[|a|..|a| + |b|] == b;
    OccursInPiece(a + b, |a|, b, pat, k);
  }

  /** An occurrence in the left operand of a concatenation. */
  lemma OccursBeforeConcat(a: string, b: string, pat: string, k: nat)
    requires OccursAt(a, pat, k)
    ensures OccursAt(a + b, pat, k)
  {
    assert (a + b)[0..|a|] == a;
    OccursInPiece(a + b, 0, a, pat, k);
  }

  /** A text occurs in any string it is the middle piece of. */
  lemma IncludesMiddle(p: string, k: string, q: string)
    ensures Includes(p + k + q, k)
  {
    assert OccursAt(k, k, 0);
    OccursInConcat(p, k, k, 0);
    OccursBeforeConcat(p + k, q, k, |p|);
  }
}
