/**
 * Character classes and string helpers shared by the server (Python) and the
 * client (TypeScript) parts of the model. Strings are sequences of Unicode
 * scalar values; case mapping covers ASCII letters only.
 */
module Text {

  predicate IsDigit(c: char) { '0' <= c <= '9' }

  predicate IsAsciiLetter(c: char) { 'a' <= c <= 'z' || 'A' <= c <= 'Z' }

  /** A word character of a regular expression's `\w` and `\b`, restricted to ASCII. */
  predicate IsWordChar(c: char) { IsDigit(c) || IsAsciiLetter(c) || c == '_' }

  /** The characters Python's `str.isspace()` and the regex class `\s` accept. */
  predicate IsPySpace(c: char) {
    ('\t' <= c <= '\r') || ('\U{1c}' <= c <= ' ') || c == '\U{85}' || c == '\U{a0}'
    || c == '\U{1680}' || ('\U{2000}' <= c <= '\U{200a}') || c == '\U{2028}' || c == '\U{2029}'
    || c == '\U{202f}' || c == '\U{205f}' || c == '\U{3000}'
  }

  /** The characters JavaScript's `String.prototype.trim` and the regex class `\s` accept. */
  predicate IsJsSpace(c: char) {
    ('\t' <= c <= '\r') || c == ' ' || c == '\U{a0}' || c == '\U{1680}'
    || ('\U{2000}' <= c <= '\U{200a}') || c == '\U{2028}' || c == '\U{2029}'
    || c == '\U{202f}' || c == '\U{205f}' || c == '\U{3000}' || c == '\U{feff}'
  }

  function LowerChar(c: char): char {
    if 'A' <= c <= 'Z' then (c as int + 32) as char else c
  }

  function UpperChar(c: char): char {
    if 'a' <= c <= 'z' then (c as int - 32) as char else c
  }

  function Lower(s: string): (r: string)
    ensures |r| == |s|
    ensures forall i :: 0 <= i < |s| ==> r[i] == LowerChar(s[i])
  {
    seq(|s|, i requires 0 <= i < |s| => LowerChar(s[i]))
  }

  function Upper(s: string): (r: string)
    ensures |r| == |s|
    ensures forall i :: 0 <= i < |s| ==> r[i] == UpperChar(s[i])
  {
    seq(|s|, i requires 0 <= i < |s| => UpperChar(s[i]))
  }

  /** `p` occurs in `s` starting at index `i`. */
  predicate PrefixAt(s: string, p: string, i: nat)
    decreases |p|
  {
    |p| == 0 || (i < |s| && s[i] == p[0] && PrefixAt(s, p[1..], i + 1))
  }

  predicate ContainsFrom(s: string, p: string, i: nat)
    decreases |s| - i
  {
    PrefixAt(s, p, i) || (i < |s| && ContainsFrom(s, p, i + 1))
  }

  /** Python's `p in s` and JavaScript's `s.includes(p)`. */
  predicate Contains(s: string, p: string) { ContainsFrom(s, p, 0) }

  predicate ContainsAny(s: string, ps: seq<string>) {
    exists k :: 0 <= k < |ps| && Contains(s, ps[k])
  }

  lemma {:induction false} PrefixAtIff(s: string, p: string, i: nat)
    requires i <= |s|
    ensures PrefixAt(s, p, i) <==> i + |p| <= |s| && s[i..i + |p|] == p
    decreases |p|
  {
    if |p| > 0 {
      if i < |s| { PrefixAtIff(s, p[1..], i + 1); }
      if i + |p| <= |s| {
        var w := s[i..i + |p|];
        assert w[0] == s[i] && w[1..] == s[i + 1..i + |p|];
        if w == p {
          assert s[i] == p[0] && s[i + 1..i + |p|] == p[1..];
        }
        if s[i] == p[0] && s[i + 1..i + |p|] == p[1..] {
          assert w == [w[0]] + w[1..] && p == [p[0]] + p[1..];
        }
      }
    }
  }

  /** A match found at `k` is found by a scan that starts at or before `k`. */
  lemma {:induction false} ContainsFromOf(s: string, p: string, i: nat, k: nat)
    requires i <= k && PrefixAt(s, p, k)
    ensures ContainsFrom(s, p, i)
    decreases k - i
  {
    if i < k {
      ContainsFromOf(s, p, i + 1, k);
      // a non-empty match at k needs k < |s|; an empty one matches everywhere
      assert PrefixAt(s, p, i) || i < |s|;
    }
  }

  /** A successful scan points at an occurrence. */
  lemma {:induction false} ContainsFromWitness(s: string, p: string, i: nat) returns (k: nat)
    requires i <= |s| && ContainsFrom(s, p, i)
    ensures i <= k <= |s| && PrefixAt(s, p, k)
    decreases |s| - i
  {
    if PrefixAt(s, p, i) {
      k := i;
    } else {
      k := ContainsFromWitness(s, p, i + 1);
    }
  }

  /** A string that has a substring `q` contains every substring of `q`. */
  lemma ContainsTransitive(s: string, q: string, p: string)
    requires Contains(s, q) && Contains(q, p)
    ensures Contains(s, p)
  {
    var k := ContainsFromWitness(s, q, 0);
    var m := ContainsFromWitness(q, p, 0);
    PrefixAtIff(s, q, k);
    PrefixAtIff(q, p, m);
    assert k + |q| <= |s| && m + |p| <= |q|;
    forall j | 0 <= j < |p| ensures s[k + m + j] == p[j] {
      assert q[m + j] == p[j];
      assert s[k + (m + j)] == q[m + j];
    }
    assert s[k + m..k + m + |p|] == p;
    PrefixAtIff(s, p, k + m);
    ContainsFromOf(s, p, 0, k + m);
  }

  predicate AllPySpace(s: string) { forall i :: 0 <= i < |s| ==> IsPySpace(s[i]) }

  predicate AllJsSpace(s: string) { forall i :: 0 <= i < |s| ==> IsJsSpace(s[i]) }

  /** Python's `s.strip()`. */
  function StripPy(s: string): (r: string)
    ensures |r| <= |s|
    ensures r == [] <==> AllPySpace(s)
    decreases |s|
  {
    if |s| > 0 && IsPySpace(s[0]) then StripPy(s[1..])
    else if |s| > 0 && IsPySpace(s[|s| - 1]) then StripPy(s[..|s| - 1])
    else s
  }

  /** JavaScript's `s.trim()`. */
  function TrimJs(s: string): (r: string)
    ensures |r| <= |s|
    ensures r == [] <==> AllJsSpace(s)
    decreases |s|
  {
    if |s| > 0 && IsJsSpace(s[0]) then TrimJs(s[1..])
    else if |s| > 0 && IsJsSpace(s[|s| - 1]) then TrimJs(s[..|s| - 1])
    else s
  }

  /** JavaScript's `s.length`: UTF-16 code units, two for a character beyond U+FFFF. */
  function Utf16Length(s: string): (n: nat)
    ensures |s| <= n <= 2 * |s|
  {
    if s == [] then 0 else (if s[0] as int > 0xFFFF then 2 else 1) + Utf16Length(s[1..])
  }

  /** Text within the Basic Multilingual Plane has one UTF-16 code unit per character. */
  lemma {:induction false} Utf16LengthOfBmp(s: string)
    requires forall i :: 0 <= i < |s| ==> s[i] as int <= 0xFFFF
    ensures Utf16Length(s) == |s|
  {
    if s != [] {
      Utf16LengthOfBmp(s[1..]);
    }
  }

  /** Python's `sep.join(parts)` and JavaScript's `parts.join(sep)`. */
  function Join(parts: seq<string>, sep: string): string {
    if parts == [] then ""
    else if |parts| == 1 then parts[0]
    else parts[0] + sep + Join(parts[1..], sep)
  }

  /** The last `n` characters (all of them when there are fewer): Python's `s[-n:]` for n > 0. */
  function LastN(s: string, n: nat): (r: string)
    ensures |r| == if |s| < n then |s| else n
    ensures r == s[|s| - |r|..]
  {
    if |s| < n then s else s[|s| - n..]
  }

  function DigitChar(d: nat): char
    requires d < 10
  {
    ('0' as int + d) as char
  }

  /** Decimal rendering of a natural number, as `str(n)`. */
  function NatToString(n: nat): (r: string)
    ensures |r| > 0
    ensures forall i :: 0 <= i < |r| ==> IsDigit(r[i])
  {
    if n < 10 then [DigitChar(n)] else NatToString(n / 10) + [DigitChar(n % 10)]
  }

  /** `str(i)` for an integer. */
  function IntToString(i: int): string {
    if i < 0 then "-" + NatToString(-i) else NatToString(i)
  }

  function TwoDigits(n: nat): string
    requires n < 100
  {
    [DigitChar(n / 10), DigitChar(n % 10)]
  }

  /** Python's `f"{x:.2f}"` of an amount held in cents. */
  function FormatCents(cents: int): string {
    var a := if cents < 0 then -cents else cents;
    (if cents < 0 then "-" else "") + NatToString(a / 100) + "." + TwoDigits(a % 100)
  }

  /**
   * `str(price)` of a catalog price held in cents: whole prices arrive from the
   * catalog as JSON integers and print without a fraction; others print as
   * Python prints the float, without trailing zeros.
   */
  function PriceText(cents: int): string {
    var a := if cents < 0 then -cents else cents;
    var frac := a % 100;
    (if cents < 0 then "-" else "") + NatToString(a / 100)
    + (if frac == 0 then ""
       else if frac % 10 == 0 then "." + [DigitChar(frac / 10)]
       else "." + TwoDigits(frac))
  }
}
