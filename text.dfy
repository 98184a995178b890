/** The string operations the application applies to user messages and
    identifiers: Python's whitespace test, ASCII case mapping, substring search,
    `str.split()`, `str.replace`, `str.isalpha`, repetition and decimal rendering
    of counters. */
module Text {

  /** Python's `str.isspace()` for one character. */
  predicate IsSpace(c: char) {
    c == ' ' || c == '\t' || c == '\n' || c == '\r' || c == '\U{000B}' || c == '\U{000C}'
    || ('\U{001C}' <= c <= '\U{001F}') || c == '\U{0085}' || c == '\U{00A0}' || c == '\U{1680}'
    || ('\U{2000}' <= c <= '\U{200A}') || c == '\U{2028}' || c == '\U{2029}' || c == '\U{202F}'
    || c == '\U{205F}' || c == '\U{3000}'
  }

  /** `len(s.strip()) == 0`: nothing but whitespace (or nothing at all). */
  predicate IsBlank(s: string) {
    forall i | 0 <= i < |s| :: IsSpace(s[i])
  }

  function LowerChar(c: char): char {
    if 'A' <= c <= 'Z' then (c as int + 32) as char else c
  }

  function UpperChar(c: char): char {
    if 'a' <= c <= 'z' then (c as int - 32) as char else c
  }

  /** `s.lower()` on ASCII letters. */
  function Lower(s: string): (r: string)
    ensures |r| == |s|
    ensures forall i | 0 <= i < |s| :: r[i] == LowerChar(s[i])
  {
    seq(|s|, i requires 0 <= i < |s| => LowerChar(s[i]))
  }

  /** `s.upper()` on ASCII letters. */
  function Upper(s: string): (r: string)
    ensures |r| == |s|
    ensures forall i | 0 <= i < |s| :: r[i] == UpperChar(s[i])
  {
    seq(|s|, i requires 0 <= i < |s| => UpperChar(s[i]))
  }

  /** No character is a lower-case ASCII letter. */
  predicate NoLower(s: string) {
    forall i | 0 <= i < |s| :: !('a' <= s[i] <= 'z')
  }

  /** Upper-casing leaves no lower-case ASCII letter. */
  lemma UpperHasNoLower(s: string)
    ensures NoLower(Upper(s))
  {
  }

  /** Lower-casing forgets a previous upper-casing. */
  lemma LowerOfUpper(s: string)
    ensures Lower(Upper(s)) == Lower(s)
  {
  }

  /** Lower-casing twice is lower-casing once. */
  lemma LowerIdempotent(s: string)
    ensures Lower(Lower(s)) == Lower(s)
  {
  }


  predicate StartsWith(s: string, p: string) {
    |p| <= |s| && s[..|p|] == p
  }

  /** Python's `p in s`, searched left to right. */
  predicate Contains(s: string, p: string)
    decreases |s|
  {
    if StartsWith(s, p) then true
    else if |s| == 0 then false
    else Contains(s[1..], p)
  }

  /** `p` occurs in `s` starting at position `i`. */
  predicate OccursAt(s: string, p: string, i: int) {
    0 <= i <= |s| - |p| && s[i..i + |p|] == p
  }

  /** A successful search has found an occurrence. */
  lemma {:induction false} ContainsWitness(s: string, p: string) returns (i: int)
    requires Contains(s, p)
    ensures OccursAt(s, p, i)
    decreases |s|
  {
    if StartsWith(s, p) {
      i := 0;
    } else {
      var j := ContainsWitness(s[1..], p);
      assert s[1..][j..j + |p|] == s[j + 1..j + 1 + |p|];
      i := j + 1;
    }
  }

  /** Any occurrence is found by the search. */
  lemma {:induction false} OccursContains(s: string, p: string, i: int)
    requires OccursAt(s, p, i)
    ensures Contains(s, p)
    decreases i
  {
    if i > 0 && !StartsWith(s, p) {
      assert s[1..][i - 1..i - 1 + |p|] == s[i..i + |p|];
      OccursContains(s[1..], p, i - 1);
    }
  }

  /** The search finds `p` exactly when `p` occurs at some position of `s`. */
  lemma ContainsIff(s: string, p: string)
    ensures Contains(s, p) <==> exists i :: OccursAt(s, p, i)
  {
    if Contains(s, p) {
      var i := ContainsWitness(s, p);
    }
    forall i | OccursAt(s, p, i) ensures Contains(s, p) {
      OccursContains(s, p, i);
    }
  }

  /** A pattern holding a character that `s` lacks is not found in `s`. */
  lemma AbsentChar(s: string, p: string, c: char)
    requires c in p && c !in s
    ensures !Contains(s, p)
  {
    var j :| 0 <= j < |p| && p[j] == c;
    forall i ensures !OccursAt(s, p, i) {
      if 0 <= i <= |s| - |p| {
        assert s[i..i + |p|][j] == s[i + j];
      }
    }
    ContainsIff(s, p);
  }

  /** `any(p in s for p in ps)`. */
  predicate ContainsAny(s: string, ps: seq<string>) {
    exists k | 0 <= k < |ps| :: Contains(s, ps[k])
  }

  /** `sum(1 for p in ps if p in s)`: how many entries of `ps` occur in `s`. */
  function CountContained(s: string, ps: seq<string>): (n: nat)
    ensures n <= |ps|
    ensures n == 0 <==> !ContainsAny(s, ps)
  {
    if ps == [] then 0
    else (if Contains(s, ps[0]) then 1 else 0) + CountContained(s, ps[1..])
  }

  /** The position of the first non-whitespace character of `s` at or
      after `i`. */
  function SkipSpaces(s: string, i: nat): (j: nat)
    requires i <= |s|
    ensures i <= j <= |s|
    ensures j == |s| || !IsSpace(s[j])
    ensures forall k | i <= k < j :: IsSpace(s[k])
    decreases |s| - i
  {
    if i == |s| || !IsSpace(s[i]) then i else SkipSpaces(s, i + 1)
  }

  /** The position of the first whitespace character of `s` at or after
      `i`. */
  function WordEnd(s: string, i: nat): (j: nat)
    requires i <= |s|
    ensures i <= j <= |s|
    ensures j == |s| || IsSpace(s[j])
    ensures forall k | i <= k < j :: !IsSpace(s[k])
    decreases |s| - i
  {
    if i == |s| || IsSpace(s[i]) then i else WordEnd(s, i + 1)
  }

  predicate IsWord(w: string) {
    |w| > 0 && forall i | 0 <= i < |w| :: !IsSpace(w[i])
  }

  /** `s[i:].split()`: the maximal runs of non-whitespace characters from
      position `i` on, in order. */
  function WordsFrom(s: string, i: nat): seq<string>
    requires i <= |s|
    decreases |s| - i
  {
    var a := SkipSpaces(s, i);
    if a == |s| then []
    else
      var b := WordEnd(s, a);
      [s[a..b]] + WordsFrom(s, b)
  }

  /** `s.split()`. */
  function Words(s: string): seq<string> {
    WordsFrom(s, 0)
  }

  /** Every word is non-empty and free of whitespace. */
  lemma {:induction false} WordsFromAreWords(s: string, i: nat)
    requires i <= |s|
    ensures forall k | 0 <= k < |WordsFrom(s, i)| :: IsWord(WordsFrom(s, i)[k])
    decreases |s| - i
  {
    var a := SkipSpaces(s, i);
    if a < |s| {
      var b := WordEnd(s, a);
      assert IsWord(s[a..b]);
      WordsFromAreWords(s, b);
    }
  }

  lemma NoLowerSlice(s: string, lo: nat, hi: nat)
    requires NoLower(s) && lo <= hi <= |s|
    ensures NoLower(s[lo..hi])
  {
  }

  /** Splitting a string free of lower-case letters yields words free of
      them. */
  lemma {:induction false} WordsNoLower(s: string, i: nat)
    requires NoLower(s) && i <= |s|
    ensures forall k | 0 <= k < |WordsFrom(s, i)| :: NoLower(WordsFrom(s, i)[k])
    decreases |s| - i
  {
    var a := SkipSpaces(s, i);
    if a < |s| {
      var b := WordEnd(s, a);
      NoLowerSlice(s, a, b);
      WordsNoLower(s, b);
    }
  }

  /** `w.isalpha()` for ASCII letters: non-empty and letters only. */
  predicate IsAlpha(w: string) {
    |w| > 0 && forall i | 0 <= i < |w| :: ('a' <= w[i] <= 'z') || ('A' <= w[i] <= 'Z')
  }

  /** A word of letters with no lower-case letter is upper-case and
      upper-casing leaves it unchanged. */
  lemma UpperAlpha(t: string)
    requires IsAlpha(t) && forall i | 0 <= i < |t| :: !('a' <= t[i] <= 'z')
    ensures forall i | 0 <= i < |t| :: 'A' <= t[i] <= 'Z'
    ensures Upper(t) == t
  {
  }

  /** `c * k` in Python: empty when `k` is zero or negative. */
  function Repeat(c: char, k: int): (r: string)
    ensures |r| == if k <= 0 then 0 else k
    ensures forall i | 0 <= i < |r| :: r[i] == c
    decreases k
  {
    if k <= 0 then [] else [c] + Repeat(c, k - 1)
  }

  /** `s.replace(p, r)`: every non-overlapping occurrence of `p`, found left to
      right, is replaced by `r`. */
  function ReplaceAll(s: string, p: string, r: string): string
    requires |p| > 0
    decreases |s|
  {
    if |s| < |p| then s
    else if s[..|p|] == p then r + ReplaceAll(s[|p|..], p, r)
    else [s[0]] + ReplaceAll(s[1..], p, r)
  }

  /** A string without `p` comes back unchanged. */
  lemma {:induction false} ReplaceAbsent(s: string, p: string, r: string)
    requires |p| > 0 && !Contains(s, p)
    ensures ReplaceAll(s, p, r) == s
    decreases |s|
  {
    if |s| >= |p| {
      assert !StartsWith(s, p);
      ReplaceAbsent(s[1..], p, r);
      assert [s[0]] + s[1..] == s;
    }
  }

  /** `s[:n]`. */
  function Take(s: string, n: nat): (r: string)
    ensures |r| == if |s| <= n then |s| else n
    ensures r == s[..|r|]
  {
    if |s| <= n then s else s[..n]
  }

  /** `sep.join(parts)`. */
  function Join(parts: seq<string>, sep: string): string {
    if |parts| == 0 then ""
    else if |parts| == 1 then parts[0]
    else parts[0] + sep + Join(parts[1..], sep)
  }

  /** Concatenation of all parts, as `+=` in a loop builds it. */
  function Concat(parts: seq<string>): string {
    if |parts| == 0 then "" else Concat(parts[..|parts| - 1]) + parts[|parts| - 1]
  }

  function DigitChar(d: nat): char
    requires d < 10
  {
    ('0' as int + d) as char
  }

  predicate IsDigits(s: string) {
    forall i | 0 <= i < |s| :: '0' <= s[i] <= '9'
  }

  /** `str(n)` for a non-negative integer. */
  function NatToString(n: nat): (s: string)
    ensures |s| > 0 && IsDigits(s)
  {
    if n < 10 then [DigitChar(n)] else NatToString(n / 10) + [DigitChar(n % 10)]
  }

  /** `str(i)` for any integer: a minus sign exactly for a negative one. */
  function IntToString(i: int): (s: string)
    ensures |s| > 0 && (s[0] == '-' <==> i < 0)
  {
    if i < 0 then "-" + NatToString(-i) else NatToString(i)
  }

  /** The value of a string of decimal digits; the inverse of `NatToString`. */
  function ParseDigits(s: string): nat
    requires IsDigits(s)
  {
    if s == [] then 0 else ParseDigits(s[..|s| - 1]) * 10 + (s[|s| - 1] as int - '0' as int)
  }

  lemma {:induction false} ParseNatToString(n: nat)
    ensures ParseDigits(NatToString(n)) == n
  {
    if n >= 10 {
      ParseNatToString(n / 10);
      var s := NatToString(n);
      assert s[..|s| - 1] == NatToString(n / 10);
    }
  }

  /** Different counters render differently. */
  lemma NatToStringInjective(m: nat, n: nat)
    requires NatToString(m) == NatToString(n)
    ensures m == n
  {
    ParseNatToString(m);
    ParseNatToString(n);
  }

  /** What follows the last `_` of `z` (all of `z` when it has none). */
  function AfterLastUnderscore(z: string): string {
    if z == [] then []
    else if z[|z| - 1] == '_' then []
    else AfterLastUnderscore(z[..|z| - 1]) + [z[|z| - 1]]
  }

  lemma {:induction false} AfterLastUnderscoreOf(x: string, s: string)
    requires forall i | 0 <= i < |s| :: s[i] != '_'
    ensures AfterLastUnderscore(x + "_" + s) == s
  {
    var z := x + "_" + s;
    if s == [] {
      assert z[|z| - 1] == '_';
    } else {
      assert z[..|z| - 1] == x + "_" + s[..|s| - 1];
      AfterLastUnderscoreOf(x, s[..|s| - 1]);
      assert s[..|s| - 1] + [s[|s| - 1]] == s;
    }
  }

  /** If two strings end in `_` followed by an underscore-free tail, equal
      strings have equal tails. */
  lemma SameTailAfterUnderscore(x: string, s: string, y: string, t: string)
    requires forall i | 0 <= i < |s| :: s[i] != '_'
    requires forall i | 0 <= i < |t| :: t[i] != '_'
    requires x + "_" + s == y + "_" + t
    ensures s == t
  {
    AfterLastUnderscoreOf(x, s);
    AfterLastUnderscoreOf(y, t);
  }
}
