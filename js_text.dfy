/**
 * The JavaScript string operations the console relies on, stated over `seq<char>`:
 * `trim`, ASCII `toUpperCase`, `includes` and the decimal rendering of an integer
 * inside a template string.
 */
module JsText {

  /** The characters `String.prototype.trim` removes: JavaScript's WhiteSpace and LineTerminator. */
  predicate IsWhitespace(c: char) {
    || c == '\t' || c == '\n' || c == '\U{B}' || c == '\U{C}' || c == '\r' || c == ' '
    || c == '\U{A0}' || c == '\U{1680}' || ('\U{2000}' <= c <= '\U{200A}')
    || c == '\U{2028}' || c == '\U{2029}' || c == '\U{202F}' || c == '\U{205F}'
    || c == '\U{3000}' || c == '\U{FEFF}'
  }

  /** A string that is empty or whitespace only: exactly the strings whose `trim()` is falsy. */
  predicate IsBlank(s: string) {
    forall i :: 0 <= i < |s| ==> IsWhitespace(s[i])
  }

  /** `trimStart`: the suffix left after dropping the leading whitespace. */
  function TrimStart(s: string): (r: string)
    ensures |r| <= |s| && r == s[|s| - |r|..]
    ensures forall i :: 0 <= i < |s| - |r| ==> IsWhitespace(s[i])
    ensures r == [] || !IsWhitespace(r[0])
  {
    if s != [] && IsWhitespace(s[0]) then TrimStart(s[1..]) else s
  }

  /** `trimEnd`: the prefix left after dropping the trailing whitespace. */
  function TrimEnd(s: string): (r: string)
    ensures |r| <= |s| && r == s[..|r|]
    ensures forall i :: |r| <= i < |s| ==> IsWhitespace(s[i])
    ensures r == [] || !IsWhitespace(r[|r| - 1])
  {
    if s != [] && IsWhitespace(s[|s| - 1]) then TrimEnd(s[..|s| - 1]) else s
  }

  /** `trim`. */
  function Trim(s: string): (r: string)
    ensures r == [] || (!IsWhitespace(r[0]) && !IsWhitespace(r[|r| - 1]))
    ensures r == [] <==> IsBlank(s)
  {
    TrimEnd(TrimStart(s))
  }

  /** `trimStart` drops a blank prefix. */
  lemma TrimStartDropsBlank(s: string)
    ensures var a := s[..|s| - |TrimStart(s)|]; s == a + TrimStart(s) && IsBlank(a)
  {
    var n := |s| - |TrimStart(s)|;
    forall j | 0 <= j < n
      ensures IsWhitespace(s[..n][j])
    {
      assert s[..n][j] == s[j];
    }
    assert s == s[..n] + s[n..];
  }

  /** `trimEnd` drops a blank suffix. */
  lemma TrimEndDropsBlank(s: string)
    ensures var b := s[|TrimEnd(s)|..]; s == TrimEnd(s) + b && IsBlank(b)
  {
    var n := |TrimEnd(s)|;
    forall j | 0 <= j < |s| - n
      ensures IsWhitespace(s[n..][j])
    {
      assert s[n..][j] == s[n + j];
    }
    assert s == s[..n] + s[n..];
  }

  /**
   * `trim` removes exactly the outer whitespace: the input is a blank prefix, the
   * result and a blank suffix. With the non-white ends of `Trim`, this fixes the result.
   */
  lemma TrimRemovesOuterBlanks(s: string)
    ensures exists a, b :: s == a + Trim(s) + b && IsBlank(a) && IsBlank(b)
  {
    var t := TrimStart(s);
    TrimStartDropsBlank(s);
    TrimEndDropsBlank(t);
    assert Trim(s) == TrimEnd(t);
    BlankFrame(s, s[..|s| - |t|], t, Trim(s), t[|Trim(s)|..]);
  }

  /** A blank prefix before `t`, where `t` is `r` then a blank suffix, frames `r` in `s`. */
  lemma BlankFrame(s: string, a: string, t: string, r: string, b: string)
    requires s == a + t && IsBlank(a)
    requires t == r + b && IsBlank(b)
    ensures exists a, b :: s == a + r + b && IsBlank(a) && IsBlank(b)
  {
    assert s == a + r + b;
  }

  /** The whole of a string with no surrounding whitespace survives `trim`. */
  lemma TrimKeepsInner(s: string)
    requires s == [] || (!IsWhitespace(s[0]) && !IsWhitespace(s[|s| - 1]))
    ensures Trim(s) == s
  {
  }

  predicate IsAsciiLower(c: char) { 'a' <= c <= 'z' }
  predicate IsAsciiUpper(c: char) { 'A' <= c <= 'Z' }
  predicate IsAsciiLetter(c: char) { IsAsciiLower(c) || IsAsciiUpper(c) }

  /** A character of the block U+4E00..U+9FA5 that the console's regular expressions accept. */
  predicate IsCjk(c: char) { '\U{4E00}' <= c <= '\U{9FA5}' }

  /** `toUpperCase` restricted to ASCII: lower-case ASCII letters move up, everything else stays. */
  function AsciiUpper(c: char): (r: char)
    ensures IsAsciiLetter(c) <==> IsAsciiLetter(r)
    ensures IsAsciiLetter(c) ==> IsAsciiUpper(r)
    ensures IsAsciiLower(c) ==> r as int == c as int - 32
    ensures !IsAsciiLower(c) ==> r == c
  {
    if IsAsciiLower(c) then (c as int - 32) as char else c
  }

  /** `s.includes(p)`: `p` occurs in `s` as a contiguous run, scanning from the left. */
  predicate Includes(s: string, p: string) {
    p <= s || (s != [] && Includes(s[1..], p))
  }

  /** `p` occurs in `s` starting at index `i`. */
  predicate OccursAt(s: string, p: string, i: int) {
    0 <= i <= |s| - |p| && s[i..i + |p|] == p
  }

  /** `Includes` agrees with the positional definition of an occurrence. */
  lemma {:induction false} IncludesAt(s: string, p: string)
    ensures Includes(s, p) <==> exists i :: OccursAt(s, p, i)
  {
    if p <= s {
      assert OccursAt(s, p, 0);
    } else if s == [] {
    } else {
      IncludesAt(s[1..], p);
      if exists i :: OccursAt(s, p, i) {
        var i :| OccursAt(s, p, i);
        assert i != 0;
        assert OccursAt(s[1..], p, i - 1);
      }
      if exists j :: OccursAt(s[1..], p, j) {
        var j :| OccursAt(s[1..], p, j);
        assert s[j + 1..j + 1 + |p|] == s[1..][j..j + |p|];
        assert OccursAt(s, p, j + 1);
      }
    }
  }

  function DigitChar(d: nat): (c: char)
    requires d < 10
  {
    ('0' as int + d) as char
  }

  predicate IsDigit(c: char) { '0' <= c <= '9' }

  function DigitValue(c: char): (d: nat)
    requires IsDigit(c)
    ensures d < 10 && DigitChar(d) == c
  {
    c as int - '0' as int
  }

  /** The decimal text JavaScript writes for a non-negative integer in a template string. */
  function NatToString(n: nat): (r: string)
    ensures |r| >= 1
    ensures forall i :: 0 <= i < |r| ==> IsDigit(r[i])
    ensures r[0] == '0' ==> n == 0
  {
    if n < 10 then [DigitChar(n)] else NatToString(n / 10) + [DigitChar(n % 10)]
  }

  /** The value of a string of decimal digits, most significant first. */
  function ParseDecimal(s: string): nat
    requires forall i :: 0 <= i < |s| ==> IsDigit(s[i])
  {
    if s == [] then 0 else ParseDecimal(s[..|s| - 1]) * 10 + DigitValue(s[|s| - 1])
  }

  /** The decimal text of a status code reads back as that status code. */
  lemma {:induction false} NatToStringRoundTrip(n: nat)
    ensures ParseDecimal(NatToString(n)) == n
  {
    if n >= 10 {
      var s := NatToString(n);
      assert s[..|s| - 1] == NatToString(n / 10);
      NatToStringRoundTrip(n / 10);
    }
  }

  /** Different numbers are written differently. */
  lemma NatToStringInjective(m: nat, n: nat)
    requires NatToString(m) == NatToString(n)
    ensures m == n
  {
    NatToStringRoundTrip(m);
    NatToStringRoundTrip(n);
  }
}
