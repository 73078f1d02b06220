/** String and path helpers shared by the modules: the JavaScript string
    methods the source calls (`includes`, `startsWith`, `split`, `pop`,
    `trim`, number-to-string) written out over `seq<char>`. */
module Strings {

  /** `p` is a prefix of `s`. */
  predicate StartsWith(s: string, p: string) {
    |p| <= |s| && s[..|p|] == p
  }

  /** `p` is a suffix of `s`. */
  predicate EndsWith(s: string, p: string) {
    |p| <= |s| && s[|s| - |p|..] == p
  }

  /** `sub` occurs somewhere in `s`. */
  predicate Contains(s: string, sub: string)
    decreases |s|
  {
    StartsWith(s, sub) || (|s| > 0 && Contains(s[1..], sub))
  }

  /** `sub` occurs in `s` at position `i`. */
  ghost predicate OccursAt(s: string, sub: string, i: int) {
    0 <= i && i + |sub| <= |s| && s[i..i + |sub|] == sub
  }

  /** An occurrence at a position makes `Contains` hold. */
  lemma {:induction false} OccurrenceContains(s: string, sub: string, i: int)
    requires OccursAt(s, sub, i)
    ensures Contains(s, sub)
    decreases i
  {
    if i == 0 {
      assert s[..|sub|] == s[0..|sub|];
    } else {
      assert s[1..][i - 1..i - 1 + |sub|] == s[i..i + |sub|];
      OccurrenceContains(s[1..], sub, i - 1);
    }
  }

  /** `Contains` has a position where `sub` occurs. */
  lemma {:induction false} ContainsOccurrence(s: string, sub: string) returns (i: nat)
    requires Contains(s, sub)
    ensures OccursAt(s, sub, i)
    decreases |s|
  {
    if StartsWith(s, sub) {
      i := 0;
      assert s[0..|sub|] == s[..|sub|];
    } else {
      var j := ContainsOccurrence(s[1..], sub);
      assert s[1..][j..j + |sub|] == s[j + 1..j + 1 + |sub|];
      i := j + 1;
    }
  }

  /** `Contains` holds exactly when there is a position where `sub` occurs. */
  lemma ContainsIff(s: string, sub: string)
    ensures Contains(s, sub) <==> exists i :: OccursAt(s, sub, i)
  {
    if Contains(s, sub) {
      var i := ContainsOccurrence(s, sub);
    }
    forall i | OccursAt(s, sub, i) ensures Contains(s, sub) {
      OccurrenceContains(s, sub, i);
    }
  }

  /** A string shorter than `sub` does not contain it. */
  lemma {:induction false} ShortLacks(s: string, sub: string)
    requires |s| < |sub|
    ensures !Contains(s, sub)
    decreases |s|
  {
    if |s| > 0 {
      ShortLacks(s[1..], sub);
    }
  }

  /** An occurrence of `w` in `a + [c] + b` lies wholly in `a`, wholly in
      `b`, or covers `c` (so `c` is a character of `w`). */
  lemma ContainsAcross(a: string, c: char, b: string, w: string)
    requires Contains(a + [c] + b, w)
    ensures c in w || Contains(a, w) || Contains(b, w)
  {
    var s := a + [c] + b;
    var i := ContainsOccurrence(s, w);
    if i + |w| <= |a| {
      assert s[i..i + |w|] == a[i..i + |w|];
      OccurrenceContains(a, w, i);
    } else if i > |a| {
      assert s[|a| + 1..] == b;
      assert s[i..i + |w|] == s[|a| + 1..][i - |a| - 1..i - |a| - 1 + |w|];
      OccurrenceContains(b, w, i - |a| - 1);
    } else {
      assert w[|a| - i] == s[|a|] == c;
    }
  }

  /** Index of the last `c` in `s`, or -1 (`s.lastIndexOf(c)`). */
  function LastIndexOf(s: string, c: char): (k: int)
    ensures -1 <= k < |s|
    ensures k == -1 <==> c !in s
    ensures k >= 0 ==> s[k] == c && c !in s[k + 1..]
  {
    if |s| == 0 then -1
    else if s[|s| - 1] == c then |s| - 1
    else
      var k := LastIndexOf(s[..|s| - 1], c);
      assert s[..|s| - 1] + [s[|s| - 1]] == s;
      k
  }

  /** The text after the last `c`, or all of `s` when there is none. */
  function LastSegment(s: string, c: char): (r: string)
    ensures c !in r && EndsWith(s, r)
  {
    if |s| == 0 || s[|s| - 1] == c then ""
    else
      var r := LastSegment(s[..|s| - 1], c);
      assert s[..|s| - 1][|s| - 1 - |r|..] + [s[|s| - 1]] == s[|s| - |r| - 1..];
      r + [s[|s| - 1]]
  }

  /** The text before the last `c`, or
      the empty string when `s` has no `c`. */
  function AllButLastSegment(s: string, c: char): (r: string)
    ensures StartsWith(s, r)
  {
    var k := LastIndexOf(s, c);
    if k < 0 then "" else s[..k]
  }

  /** The last segment is what follows the last separator. */
  lemma {:induction false} LastSegmentAt(s: string, c: char)
    ensures LastSegment(s, c) == s[LastIndexOf(s, c) + 1..]
    decreases |s|
  {
    if |s| > 0 && s[|s| - 1] != c {
      var t := s[..|s| - 1];
      LastSegmentAt(t, c);
      var k := LastIndexOf(t, c);
      assert LastIndexOf(s, c) == k;
      assert LastSegment(s, c) == t[k + 1..] + [s[|s| - 1]];
      assert t[k + 1..] + [s[|s| - 1]] == s[k + 1..];
    }
  }

  /** Splitting at the last separator loses nothing: the two parts and the
      separator rebuild the string. */
  lemma SegmentsRebuild(s: string, c: char)
    ensures c in s ==> AllButLastSegment(s, c) + [c] + LastSegment(s, c) == s
    ensures c !in s ==> AllButLastSegment(s, c) == "" && LastSegment(s, c) == s
  {
    if c in s {
      RebuildAtLast(s, c);
    } else {
      LastSegmentAt(s, c);
      assert s[0..] == s;
    }
  }

  lemma RebuildAtLast(s: string, c: char)
    requires c in s
    ensures AllButLastSegment(s, c) + [c] + LastSegment(s, c) == s
  {
    LastSegmentAt(s, c);
    CutAt(s, LastIndexOf(s, c));
  }

  /** A sequence is its part before `k`, its element at `k` and its part
      after `k`. */
  lemma CutAt<T>(s: seq<T>, k: nat)
    requires k < |s|
    ensures s[..k] + [s[k]] + s[k + 1..] == s
  {
  }

  /** Joining two parts with a separator the second part lacks is undone
      by cutting at the last separator. */
  lemma SegmentsOfJoin(a: string, c: char, b: string)
    requires c !in b
    ensures AllButLastSegment(a + [c] + b, c) == a
    ensures LastSegment(a + [c] + b, c) == b
  {
    var s := a + [c] + b;
    LastSegmentAt(s, c);
    var k := LastIndexOf(s, c);
    assert s[|a|] == c;
    assert s[|a| + 1..] == b;
    assert k == |a|;
    assert s[..k] == a;
  }

  /** Directory part of a `/`-separated path. */
  function Dirname(path: string): string {
    AllButLastSegment(path, '/')
  }

  /** File-name part of a `/`-separated path. */
  function Basename(path: string): string {
    LastSegment(path, '/')
  }

  /** A path's extension: the text after its last dot. */
  function Extension(path: string): string {
    LastSegment(path, '.')
  }

  /** The pieces of `s` between occurrences of `c`. */
  function Split(s: string, c: char): (r: seq<string>)
    ensures |r| >= 1
    ensures forall i :: 0 <= i < |r| ==> c !in r[i]
    decreases |s|
  {
    if c !in s then [s]
    else
      var k := FirstIndexOf(s, c);
      [s[..k]] + Split(s[k + 1..], c)
  }

  /** Index of the first `c` in `s`. */
  function FirstIndexOf(s: string, c: char): (k: nat)
    requires c in s
    ensures k < |s| && s[k] == c && c !in s[..k]
  {
    if s[0] == c then 0
    else
      assert s == [s[0]] + s[1..];
      1 + FirstIndexOf(s[1..], c)
  }

  /** The parts with `c` between each two. */
  function Join(parts: seq<string>, c: char): string
    requires |parts| >= 1
  {
    if |parts| == 1 then parts[0] else parts[0] + [c] + Join(parts[1..], c)
  }

  /** Joining the pieces of a split with the same separator gives back the
      original string. */
  lemma {:induction false} JoinSplit(s: string, c: char)
    ensures Join(Split(s, c), c) == s
    decreases |s|
  {
    if c in s {
      var k := FirstIndexOf(s, c);
      var rest := s[k + 1..];
      var parts := Split(s, c);
      assert parts == [s[..k]] + Split(rest, c);
      assert parts[0] == s[..k] && parts[1..] == Split(rest, c);
      JoinSplit(rest, c);
      assert Join(parts, c) == s[..k] + [c] + rest;
      CutAt(s, k);
    } else {
      assert Split(s, c) == [s];
    }
  }

  /** Characters JavaScript's `trim` removes: tab, vertical tab, form
      feed, the byte order mark, the space separators of Unicode (category
      Zs) and the four line terminators. */
  predicate IsWhitespace(ch: char) {
    ch == '\t' || ch == '\U{000B}' || ch == '\U{000C}' || ch == '\U{FEFF}' ||
    ch == ' ' || ch == '\U{00A0}' || ch == '\U{1680}' || '\U{2000}' <= ch <= '\U{200A}' ||
    ch == '\U{202F}' || ch == '\U{205F}' || ch == '\U{3000}' ||
    ch == '\n' || ch == '\r' || ch == '\U{2028}' || ch == '\U{2029}'
  }

  /** `s` without its leading whitespace. */
  function TrimStart(s: string): (r: string)
    ensures EndsWith(s, r)
    ensures r == [] || !IsWhitespace(r[0])
    ensures forall i :: 0 <= i < |s| - |r| ==> IsWhitespace(s[i])
  {
    if |s| > 0 && IsWhitespace(s[0]) then TrimStart(s[1..]) else s
  }

  /** ASCII lower-casing of one character. */
  function LowerChar(ch: char): char {
    if 'A' <= ch <= 'Z' then (ch as int + 32) as char else ch
  }

  /** ASCII lower-casing, as a case-insensitive regular expression sees it. */
  function Lower(s: string): (r: string)
    ensures |r| == |s| && forall i :: 0 <= i < |s| ==> r[i] == LowerChar(s[i])
  {
    if s == [] then [] else [LowerChar(s[0])] + Lower(s[1..])
  }

  /** `s` ends with `suffix`, given in lower case, ignoring case. */
  predicate EndsWithIgnoreCase(s: string, suffix: string) {
    EndsWith(Lower(s), suffix)
  }

  /** The decimal digit for `d` in 0..9. */
  function DigitChar(d: nat): (ch: char)
    requires d < 10
    ensures '0' <= ch <= '9' && ch as int - '0' as int == d
  {
    ('0' as int + d) as char
  }

  /** JavaScript's decimal rendering of a non-negative integer. */
  function NatToString(n: nat): (r: string)
    ensures |r| >= 1
    ensures forall i :: 0 <= i < |r| ==> '0' <= r[i] <= '9'
    ensures n > 0 ==> r[0] != '0'
    decreases n
  {
    if n < 10 then [DigitChar(n)] else NatToString(n / 10) + [DigitChar(n % 10)]
  }

  /** Reads a string of decimal digits back as a number. */
  function ParseDigits(s: string): nat
    requires forall i :: 0 <= i < |s| ==> '0' <= s[i] <= '9'
  {
    if s == [] then 0
    else 10 * ParseDigits(s[..|s| - 1]) + (s[|s| - 1] as int - '0' as int)
  }

  /** The rendering of a number reads back as that number. */
  lemma {:induction false} NatToStringRoundTrip(n: nat)
    ensures ParseDigits(NatToString(n)) == n
    decreases n
  {
    var r := NatToString(n);
    if n < 10 {
      assert r[..|r| - 1] == [];
    } else {
      NatToStringRoundTrip(n / 10);
      assert r[..|r| - 1] == NatToString(n / 10);
      assert r[|r| - 1] as int - '0' as int == n % 10;
      assert ParseDigits(r) == 10 * (n / 10) + n % 10;
    }
  }

  /** Different numbers render differently. */
  lemma NatToStringInjective(m: nat, n: nat)
    requires NatToString(m) == NatToString(n)
    ensures m == n
  {
    NatToStringRoundTrip(m);
    NatToStringRoundTrip(n);
  }
}
