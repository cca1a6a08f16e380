/** String operations of the JavaScript runtime that the backend and the
    frontend rely on: `trim`, the regex class `\s`, ASCII case mapping,
    `length` in UTF-16 code units, substring search and `join`. */
module Text {

  /** White space as `String.prototype.trim` and the regex class `\s` see it:
      the WhiteSpace and LineTerminator characters of ECMA-262. */
  predicate IsSpace(c: char) {
    var n := c as int;
    (9 <= n <= 13) || n == 0x20 || n == 0xA0 || n == 0x1680 || (0x2000 <= n <= 0x200A)
    || n == 0x2028 || n == 0x2029 || n == 0x202F || n == 0x205F || n == 0x3000 || n == 0xFEFF
  }

  predicate AllSpace(s: string) {
    forall i | 0 <= i < |s| :: IsSpace(s[i])
  }

  /** Number of white-space characters at the front of `s`. */
  function LeadingSpaces(s: string): (n: nat)
    ensures n <= |s|
    ensures AllSpace(s[..n])
    ensures n < |s| ==> !IsSpace(s[n])
  {
    if |s| > 0 && IsSpace(s[0]) then
      var k := LeadingSpaces(s[1..]);
      assert s[..k + 1] == [s[0]] + s[1..][..k];
      k + 1
    else 0
  }

  /** Number of white-space characters at the back of `s`. */
  function TrailingSpaces(s: string): (n: nat)
    ensures n <= |s|
    ensures AllSpace(s[|s| - n..])
    ensures n < |s| ==> !IsSpace(s[|s| - 1 - n])
  {
    if |s| > 0 && IsSpace(s[|s| - 1]) then
      var p := s[..|s| - 1];
      var k := TrailingSpaces(p);
      assert s[|s| - (k + 1)..] == p[|p| - k..] + [s[|s| - 1]];
      AllSpaceConcat(p[|p| - k..], [s[|s| - 1]]);
      k + 1
    else 0
  }

  function TrimStart(s: string): string {
    s[LeadingSpaces(s)..]
  }

  function TrimEnd(s: string): string {
    s[..|s| - TrailingSpaces(s)]
  }

  /** `s.trim()`: `s` without its leading and trailing white space. */
  function Trim(s: string): (r: string)
    ensures |r| <= |s|
  {
    TrimEnd(TrimStart(s))
  }

  /** What is left after trimming starts and ends with a non-space character,
      is empty exactly when the input was all white space, and sits in the
      input between two runs of white space. */
  lemma TrimShape(s: string)
    ensures Trim(s) == [] || (!IsSpace(Trim(s)[0]) && !IsSpace(Trim(s)[|Trim(s)| - 1]))
    ensures Trim(s) == [] <==> AllSpace(s)
    ensures exists i :: TrimmedAt(s, Trim(s), i)
  {
    var a := LeadingSpaces(s);
    var t := s[a..];
    var b := TrailingSpaces(t);
    var r := t[..|t| - b];
    assert r == Trim(s);
    TrimEnds(s, a, t, b, r);
    TrimInfix(s, a, t, b, r);
    TrimEmpty(s, a, t, b, r);
    assert TrimmedAt(s, Trim(s), a);
  }

  /** Trimming leaves nothing exactly when the input is all white space. */
  lemma TrimEmpty(s: string, a: nat, t: string, b: nat, r: string)
    requires a == LeadingSpaces(s) && t == s[a..] && b == TrailingSpaces(t) && r == t[..|t| - b]
    ensures r == [] <==> AllSpace(s)
  {
    if r == [] {
      assert s == s[..a] + t;
      assert t[|t| - b..] == t;
      AllSpaceConcat(s[..a], t);
    } else {
      assert r[0] == s[a] && !IsSpace(s[a]);
    }
  }

  /** `r` occurs in `s` at position `i`, with only white space around it. */
  predicate TrimmedAt(s: string, r: string, i: int) {
    0 <= i <= |s| - |r| && r == s[i..i + |r|] && AllSpace(s[..i]) && AllSpace(s[i + |r|..])
  }

  lemma TrimEnds(s: string, a: nat, t: string, b: nat, r: string)
    requires a == LeadingSpaces(s) && t == s[a..] && b == TrailingSpaces(t) && r == t[..|t| - b]
    ensures r == [] || (!IsSpace(r[0]) && !IsSpace(r[|r| - 1]))
    ensures r != [] ==> s[a] == r[0]
  {
    if r != [] {
      assert r[0] == t[0] == s[a];
      assert r[|r| - 1] == t[|t| - 1 - b];
    }
  }

  lemma TrimInfix(s: string, a: nat, t: string, b: nat, r: string)
    requires a == LeadingSpaces(s) && t == s[a..] && b == TrailingSpaces(t) && r == t[..|t| - b]
    ensures TrimmedAt(s, r, a)
  {
    TrimMiddle(s, a, t, b, r);
    TrimTail(s, a, t, b, r);
  }

  lemma TrimMiddle(s: string, a: nat, t: string, b: nat, r: string)
    requires a <= |s| && t == s[a..] && b <= |t| && r == t[..|t| - b]
    ensures a + |r| <= |s| && r == s[a..a + |r|]
  {
    forall i | 0 <= i < |r| ensures r[i] == s[a + i] {
      assert r[i] == t[i];
    }
  }

  lemma TrimTail(s: string, a: nat, t: string, b: nat, r: string)
    requires a <= |s| && t == s[a..] && b <= |t| && AllSpace(t[|t| - b..]) && r == t[..|t| - b]
    ensures AllSpace(s[a + |r|..])
  {
    var e := a + |r|;
    var tail := t[|t| - b..];
    forall i | 0 <= i < |s| - e ensures s[e..][i] == tail[i] {
      assert tail[i] == t[|t| - b + i];
    }
    assert s[e..] == tail;
  }

  lemma AllSpaceConcat(x: string, y: string)
    requires AllSpace(x) && AllSpace(y)
    ensures AllSpace(x + y)
  {
    forall i | 0 <= i < |x + y| ensures IsSpace((x + y)[i]) {
      if i < |x| { assert (x + y)[i] == x[i]; } else { assert (x + y)[i] == y[i - |x|]; }
    }
  }

  /** Trimming text that neither starts nor ends with white space changes nothing. */
  lemma TrimOfTrimmed(s: string)
    requires s == [] || (!IsSpace(s[0]) && !IsSpace(s[|s| - 1]))
    ensures Trim(s) == s
  {
    assert LeadingSpaces(s) == 0;
    assert TrailingSpaces(s) == 0;
  }

  /** `trim` is idempotent. */
  lemma TrimIdempotent(s: string)
    ensures Trim(Trim(s)) == Trim(s)
  {
    TrimOfTrimmed(Trim(s));
  }

  /** `toLowerCase` on one character; only ASCII letters are mapped. */
  function LowerChar(c: char): char {
    if 'A' <= c <= 'Z' then (c as int + 32) as char else c
  }

  /** `toUpperCase` on one character; only ASCII letters are mapped. */
  function UpperChar(c: char): char {
    if 'a' <= c <= 'z' then (c as int - 32) as char else c
  }

  function ToLower(s: string): (r: string)
    ensures |r| == |s|
    ensures forall i | 0 <= i < |s| :: r[i] == LowerChar(s[i])
  {
    seq(|s|, i requires 0 <= i < |s| => LowerChar(s[i]))
  }

  function ToUpper(s: string): (r: string)
    ensures |r| == |s|
    ensures forall i | 0 <= i < |s| :: r[i] == UpperChar(s[i])
  {
    seq(|s|, i requires 0 <= i < |s| => UpperChar(s[i]))
  }

  /** Lower-casing leaves white space alone and never creates any. */
  lemma LowerCharKeepsSpace(c: char)
    ensures IsSpace(LowerChar(c)) <==> IsSpace(c)
    ensures LowerChar(LowerChar(c)) == LowerChar(c)
  {
  }

  lemma ToLowerIdempotent(s: string)
    ensures ToLower(ToLower(s)) == ToLower(s)
  {
  }

  /** Trimming and lower-casing commute, so `s.trim().toLowerCase()` is
      also what a schema with both `trim` and `lowercase` setters stores. */
  lemma TrimLowerCommute(s: string)
    ensures Trim(ToLower(s)) == ToLower(Trim(s))
  {
    TrimStartLower(s);
    TrimEndLower(TrimStart(s));
  }

  lemma TrimStartLower(s: string)
    ensures TrimStart(ToLower(s)) == ToLower(TrimStart(s))
  {
    LowerSameSpaces(s);
    LeadingSame(s, ToLower(s));
    LowerSlices(s, LeadingSpaces(s));
  }

  lemma TrimEndLower(t: string)
    ensures TrimEnd(ToLower(t)) == ToLower(TrimEnd(t))
  {
    LowerSameSpaces(t);
    TrailingSame(t, ToLower(t));
    LowerSlices(t, |t| - TrailingSpaces(t));
  }

  /** Lower-casing keeps every character's white-space status. */
  lemma LowerSameSpaces(s: string)
    ensures |ToLower(s)| == |s|
    ensures forall i | 0 <= i < |s| :: IsSpace(ToLower(s)[i]) <==> IsSpace(s[i])
  {
    forall i | 0 <= i < |s| ensures IsSpace(ToLower(s)[i]) <==> IsSpace(s[i]) {
      LowerCharKeepsSpace(s[i]);
    }
  }

  /** Lower-casing commutes with taking a prefix or a suffix. */
  lemma LowerSlices(s: string, n: nat)
    requires n <= |s|
    ensures ToLower(s)[n..] == ToLower(s[n..])
    ensures ToLower(s)[..n] == ToLower(s[..n])
  {
  }

  /** Two strings whose characters agree on being white space have the same
      amount of leading white space. */
  lemma {:induction false} LeadingSame(s: string, t: string)
    requires |s| == |t|
    requires forall i | 0 <= i < |s| :: IsSpace(s[i]) <==> IsSpace(t[i])
    ensures LeadingSpaces(s) == LeadingSpaces(t)
  {
    if |s| > 0 && IsSpace(s[0]) {
      LeadingSame(s[1..], t[1..]);
    }
  }

  lemma {:induction false} TrailingSame(s: string, t: string)
    requires |s| == |t|
    requires forall i | 0 <= i < |s| :: IsSpace(s[i]) <==> IsSpace(t[i])
    ensures TrailingSpaces(s) == TrailingSpaces(t)
  {
    if |s| > 0 && IsSpace(s[|s| - 1]) {
      TrailingSame(s[..|s| - 1], t[..|t| - 1]);
    }
  }

  /** `s.length` in JavaScript: characters outside the Basic Multilingual
      Plane take two UTF-16 code units. */
  function Utf16Length(s: string): (n: nat)
    ensures |s| <= n <= 2 * |s|
  {
    if s == [] then 0
    else (if s[0] as int > 0xFFFF then 2 else 1) + Utf16Length(s[1..])
  }

  /** `s.includes(sub)`, also what an unanchored regex of one literal tests. */
  predicate Contains(s: string, sub: string) {
    exists i | 0 <= i <= |s| - |sub| :: OccursAt(s, sub, i)
  }

  /** `sub` starts at position `i` of `s`. */
  predicate OccursAt(s: string, sub: string, i: nat) {
    i + |sub| <= |s| && s[i..i + |sub|] == sub
  }

  /** `parts.join(sep)`. */
  function Join(parts: seq<string>, sep: string): string {
    if parts == [] then ""
    else if |parts| == 1 then parts[0]
    else parts[0] + sep + Join(parts[1..], sep)
  }

  predicate IsDigit(c: char) {
    '0' <= c <= '9'
  }

  function DigitChar(d: nat): (c: char)
    requires d < 10
    ensures IsDigit(c)
  {
    ('0' as int + d) as char
  }

  /** Decimal notation of a natural number, as `String(n)` writes it. */
  function NatToString(n: nat): (r: string)
    ensures r != [] && forall i | 0 <= i < |r| :: IsDigit(r[i])
    ensures |r| > 1 ==> r[0] != '0'
  {
    if n < 10 then [DigitChar(n)] else NatToString(n / 10) + [DigitChar(n % 10)]
  }

  /** Decimal notation of an integer, with a leading '-' when negative. */
  function IntToString(n: int): string {
    if n < 0 then "-" + NatToString(-n) else NatToString(n)
  }
}
