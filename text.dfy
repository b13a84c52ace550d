/** The JavaScript string operations the application relies on, on `string` = `seq<char>`:
    `startsWith`, `includes`, `indexOf` of one character, `replace` of the first
    occurrence, `split` on one character, `trim`, `toLowerCase`, `substring` and the
    decimal `toString` of an integer. */
module Text {

  // ---------------------------------------------------------------------------
  // Prefixes and substrings
  // ---------------------------------------------------------------------------

  /** `s.startsWith(p)`. */
  predicate StartsWith(s: string, p: string) {
    |p| <= |s| && s[..|p|] == p
  }

  /** `s.includes(p)`: a left-to-right scan, one start position at a time. */
  predicate Includes(s: string, p: string)
    decreases |s|
  {
    StartsWith(s, p) || (s != [] && Includes(s[1..], p))
  }

  /** `p` occurs in `s` starting at index `i`: the declarative meaning of `includes`. */
  ghost predicate OccursAt(s: string, p: string, i: int) {
    0 <= i && i + |p| <= |s| && s[i..i + |p|] == p
  }

  /** The scan finds `p` exactly when `p` occurs somewhere in `s`. */
  lemma {:induction false} IncludesIff(s: string, p: string)
    ensures Includes(s, p) <==> exists i :: OccursAt(s, p, i)
  {
    if StartsWith(s, p) {
      assert OccursAt(s, p, 0);
    } else if s != [] {
      IncludesIff(s[1..], p);
      forall i | OccursAt(s[1..], p, i) ensures OccursAt(s, p, i + 1) {
        assert s[1..][i..i + |p|] == s[i + 1..i + 1 + |p|];
      }
      forall i | OccursAt(s, p, i) ensures OccursAt(s[1..], p, i - 1) {
        assert i != 0;
        assert s[1..][i - 1..i - 1 + |p|] == s[i..i + |p|];
      }
    }
  }

  /** Every string contains the empty string. */
  lemma IncludesEmpty(s: string)
    ensures Includes(s, [])
  {
    assert s[..0] == [];
  }

  /** Every character of an included string is a character of the including one. */
  lemma IncludedCharsOccur(s: string, p: string, k: int)
    requires Includes(s, p) && 0 <= k < |p|
    ensures p[k] in s
  {
    IncludesIff(s, p);
    var i :| OccursAt(s, p, i);
    assert s[i..i + |p|][k] == s[i + k];
  }

  /** So a string that lacks one character of `p` does not include `p`. */
  lemma MissingCharExcludes(s: string, p: string, k: int)
    requires 0 <= k < |p| && p[k] !in s
    ensures !Includes(s, p)
  {
    if Includes(s, p) {
      IncludedCharsOccur(s, p, k);
    }
  }

  // ---------------------------------------------------------------------------
  // indexOf, replace(first), split
  // ---------------------------------------------------------------------------

  /** `s.indexOf(c)`: the first index holding `c`, or -1. */
  function IndexOf(s: string, c: char): (k: int)
    ensures -1 <= k < |s|
    ensures k == -1 <==> c !in s
    ensures k >= 0 ==> s[k] == c && c !in s[..k]
  {
    if s == [] then -1
    else if s[0] == c then 0
    else
      var k := IndexOf(s[1..], c);
      if k == -1 then -1
      else
        assert s[..k + 1] == [s[0]] + s[1..][..k];
        k + 1
  }

  /** `s.replace(c, '')` with a one-character string pattern: only the FIRST `c` is removed. */
  function ReplaceFirst(s: string, c: char): (r: string)
    ensures c !in s ==> r == s
    ensures c in s ==> exists k :: 0 <= k < |s| && s[k] == c && c !in s[..k] && r == s[..k] + s[k + 1..]
    ensures multiset(r) == multiset(s) - multiset{c}
  {
    var k := IndexOf(s, c);
    if k == -1 then s
    else
      assert s == s[..k] + [s[k]] + s[k + 1..];
      s[..k] + s[k + 1..]
  }

  /** `s.split(sep)` for a one-character separator: the maximal `sep`-free fields, in order. */
  function Split(s: string, sep: char): (fields: seq<string>)
    ensures |fields| >= 1
    ensures forall i :: 0 <= i < |fields| ==> sep !in fields[i]
    ensures Join(fields, sep) == s
  {
    if s == [] then [[]]
    else
      var rest := Split(s[1..], sep);
      if s[0] == sep then
        assert ([[]] + rest)[1..] == rest;
        [[]] + rest
      else
        JoinPrepend(s[0], rest, sep);
        [[s[0]] + rest[0]] + rest[1..]
  }

  /** The first index holding `c` is the one before which no `c` occurs. */
  lemma IndexOfIs(s: string, c: char, k: int)
    requires 0 <= k < |s| && s[k] == c && c !in s[..k]
    ensures IndexOf(s, c) == k
  {
    assert s[..k + 1][k] == c;
    var j := IndexOf(s, c);
    assert forall m :: 0 <= m < k ==> s[..k][m] == s[m];
    assert forall m :: 0 <= m < j ==> s[..j][m] == s[m];
  }

  /** `fields.join(sep)`. */
  function Join(fields: seq<string>, sep: char): string
    requires |fields| >= 1
  {
    if |fields| == 1 then fields[0] else fields[0] + [sep] + Join(fields[1..], sep)
  }

  /** Putting a character in front of the first field puts it in front of the joined string. */
  lemma JoinPrepend(c: char, fields: seq<string>, sep: char)
    requires |fields| >= 1
    ensures Join([[c] + fields[0]] + fields[1..], sep) == [c] + Join(fields, sep)
  {
    var g := [[c] + fields[0]] + fields[1..];
    if |fields| > 1 {
      assert g[1..] == fields[1..];
    }
  }

  /** In a join of two or more fields, the second field stands between the first separator and
      the next separator or the end. */
  lemma JoinSecondField(fields: seq<string>, sep: char)
    requires |fields| >= 2
    ensures var s, k := Join(fields, sep), |fields[0]|;
      && k + 1 + |fields[1]| <= |s|
      && s[..k] == fields[0] && s[k] == sep
      && s[k + 1..k + 1 + |fields[1]|] == fields[1]
      && (k + 1 + |fields[1]| == |s| || s[k + 1 + |fields[1]|] == sep)
  {
    var rest := Join(fields[1..], sep);
    if |fields| > 2 {
      assert fields[1..][1..] == fields[2..];
      assert rest == fields[1] + [sep] + Join(fields[2..], sep);
    }
  }

  /** Joining `sep`-free fields and splitting again gives the fields back: `Split` and
      `Join` are inverse bijections between strings and non-empty lists of `sep`-free fields. */
  lemma {:induction false} SplitJoin(fields: seq<string>, sep: char)
    requires |fields| >= 1
    requires forall i :: 0 <= i < |fields| ==> sep !in fields[i]
    ensures Split(Join(fields, sep), sep) == fields
    decreases |Join(fields, sep)|
  {
    var s := Join(fields, sep);
    if fields[0] == [] {
      if |fields| > 1 {
        assert s == [sep] + Join(fields[1..], sep);
        assert s[1..] == Join(fields[1..], sep);
        SplitJoin(fields[1..], sep);
        assert fields == [[]] + fields[1..];
      }
    } else {
      var c := fields[0][0];
      var g := [fields[0][1..]] + fields[1..];
      assert fields[0] == [c] + g[0] && g[1..] == fields[1..];
      JoinPrepend(c, g, sep);
      assert fields == [[c] + g[0]] + g[1..];
      assert s == [c] + Join(g, sep);
      assert s[1..] == Join(g, sep);
      assert c == fields[0][0] && c != sep;
      forall i | 0 <= i < |g| ensures sep !in g[i] {
        if i == 0 {
          assert forall x :: x in g[0] ==> x in fields[0];
        } else {
          assert g[i] == fields[i];
        }
      }
      SplitJoin(g, sep);
    }
  }

  /** The last field of `s.split(sep)` (what `.pop()` returns): the text after the last
      `sep`, or all of `s` when it has none. */
  function LastField(s: string, sep: char): (f: string)
    ensures sep !in f
    ensures |f| <= |s| && f == s[|s| - |f|..]
    ensures |f| < |s| ==> s[|s| - |f| - 1] == sep
  {
    var fields := Split(s, sep);
    LastFieldIsSuffix(fields, sep);
    fields[|fields| - 1]
  }

  lemma {:induction false} LastFieldIsSuffix(fields: seq<string>, sep: char)
    requires |fields| >= 1
    ensures var s, f := Join(fields, sep), fields[|fields| - 1];
      |f| <= |s| && f == s[|s| - |f|..] && (|f| < |s| ==> s[|s| - |f| - 1] == sep)
  {
    if |fields| > 1 {
      LastFieldIsSuffix(fields[1..], sep);
      var t := Join(fields[1..], sep);
      assert Join(fields, sep) == (fields[0] + [sep]) + t;
    }
  }

  // ---------------------------------------------------------------------------
  // trim
  // ---------------------------------------------------------------------------

  /** The ECMAScript WhiteSpace and LineTerminator code points, which `trim` strips. */
  predicate IsSpace(c: char) {
    c == '\t' || c == '\n' || c == '\U{000B}' || c == '\U{000C}' || c == '\r' || c == ' '
    || c == '\U{00A0}' || c == '\U{1680}' || ('\U{2000}' <= c <= '\U{200A}')
    || c == '\U{2028}' || c == '\U{2029}' || c == '\U{202F}' || c == '\U{205F}'
    || c == '\U{3000}' || c == '\U{FEFF}'
  }

  /** The ECMAScript LineTerminator code points (which a regular expression `.` does not match). */
  predicate IsLineTerminator(c: char) {
    c == '\n' || c == '\r' || c == '\U{2028}' || c == '\U{2029}'
  }

  /** The end of the run of white space that starts at index `i`. */
  function SpaceRunFrom(s: string, i: nat): (j: nat)
    requires i <= |s|
    ensures i <= j <= |s|
    ensures forall k :: i <= k < j ==> IsSpace(s[k])
    ensures j < |s| ==> !IsSpace(s[j])
    decreases |s| - i
  {
    if i < |s| && IsSpace(s[i]) then SpaceRunFrom(s, i + 1) else i
  }

  /** The start of the run of white space that ends at index `j`, going no lower than `lo`. */
  function SpaceRunBefore(s: string, j: nat, lo: nat): (i: nat)
    requires lo <= j <= |s|
    ensures lo <= i <= j
    ensures forall k :: i <= k < j ==> IsSpace(s[k])
    ensures i > lo ==> !IsSpace(s[i - 1])
  {
    if j > lo && IsSpace(s[j - 1]) then SpaceRunBefore(s, j - 1, lo) else j
  }

  /** A string with no white space at either end. */
  predicate IsTrimmed(t: string) {
    t == [] || (!IsSpace(t[0]) && !IsSpace(t[|t| - 1]))
  }

  /** `s.trim()`: `s` with white space removed at both ends, and only there. */
  function Trim(s: string): (r: string)
    ensures IsTrimmed(r)
    ensures exists a :: PaddedAt(s, r, a)
  {
    var a := SpaceRunFrom(s, 0);
    var b := SpaceRunBefore(s, |s|, a);
    assert PaddedAt(s, s[a..b], a);
    s[a..b]
  }

  /** `s` is `r` with only white space before index `a` and after `r`. */
  ghost predicate PaddedAt(s: string, r: string, a: int) {
    0 <= a <= |s| - |r| && (forall j :: 0 <= j < |r| ==> r[j] == s[a + j])
    && (forall i :: 0 <= i < a ==> IsSpace(s[i]))
    && (forall i :: a + |r| <= i < |s| ==> IsSpace(s[i]))
  }

  /** `trim` finds nothing to remove in a trimmed string. */
  lemma TrimTrimmed(t: string)
    requires IsTrimmed(t)
    ensures Trim(t) == t
  {
  }

  /** `trim` is idempotent. */
  lemma TrimIdempotent(s: string)
    ensures Trim(Trim(s)) == Trim(s)
  {
    TrimTrimmed(Trim(s));
  }

  /** `s.trim() === ''` exactly when every character of `s` is white space. */
  lemma TrimEmptyIff(s: string)
    ensures Trim(s) == [] <==> forall i :: 0 <= i < |s| ==> IsSpace(s[i])
  {
    var r := Trim(s);
    var a :| PaddedAt(s, r, a);
    if r != [] {
      assert s[a] == r[0];
    }
  }

  // ---------------------------------------------------------------------------
  // toLowerCase (per character)
  // ---------------------------------------------------------------------------

  /** An upper-case letter of ASCII, of Latin-1, or of Romanian (Ă, Ş, Ţ, Ș, Ț). */
  predicate IsCapital(c: char) {
    'A' <= c <= 'Z' || ('\U{00C0}' <= c <= '\U{00DE}' && c != '\U{00D7}')
    || c == '\U{0102}' || c == '\U{015E}' || c == '\U{0162}' || c == '\U{0218}' || c == '\U{021A}'
  }

  /** `toLowerCase` on one character, for the letters `IsCapital` names; every other
      character is its own lower case. */
  function LowerChar(c: char): (l: char)
    ensures l != c ==> IsCapital(c)
    ensures IsCapital(c) ==> l != c && !IsCapital(l)
  {
    if 'A' <= c <= 'Z' || ('\U{00C0}' <= c <= '\U{00DE}' && c != '\U{00D7}') then (c as int + 32) as char
    else if IsCapital(c) then (c as int + 1) as char
    else c
  }

  /** `s.toLowerCase()`, character by character (so the length is kept). */
  function LowerStr(s: string): (r: string)
    ensures |r| == |s|
    ensures forall i :: 0 <= i < |s| ==> r[i] == LowerChar(s[i])
  {
    seq(|s|, i requires 0 <= i < |s| => LowerChar(s[i]))
  }

  /** A character that is not a capital and that no capital lowers to survives lowering
      only where it already was. */
  lemma LowerStrLacks(s: string, c: char)
    requires c !in s
    requires forall x :: IsCapital(x) ==> LowerChar(x) != c
    ensures c !in LowerStr(s)
  {
    forall i | 0 <= i < |s| ensures LowerStr(s)[i] != c {
      assert s[i] != c;
    }
  }

  /** Lowering leaves a string without capitals unchanged. */
  lemma LowerStrNoCapitals(s: string)
    requires forall i :: 0 <= i < |s| ==> !IsCapital(s[i])
    ensures LowerStr(s) == s
  {
  }

  /** Lowering twice is lowering once. */
  lemma LowerStrIdempotent(s: string)
    ensures LowerStr(LowerStr(s)) == LowerStr(s)
  {
  }

  /** Lowering neither makes nor removes white space. */
  lemma LowerCharKeepsSpace(c: char)
    ensures IsSpace(LowerChar(c)) <==> IsSpace(c)
  {
  }

  // ---------------------------------------------------------------------------
  // substring, Number.prototype.toString
  // ---------------------------------------------------------------------------

  /** An index argument of `substring` clamped to `[0, n]`. */
  function ClampIndex(x: int, n: nat): (c: nat)
    ensures c <= n
    ensures 0 <= x <= n ==> c == x
    ensures x < 0 ==> c == 0
    ensures x > n ==> c == n
  {
    if x < 0 then 0 else if x > n then n else x
  }

  /** `s.substring(start, end)`: both ends clamped to `[0, |s|]`, swapped when reversed;
      the result is the piece of `s` between the lower and the upper clamped end. */
  function Substring(s: string, start: int, end: int): (r: string)
    ensures var a, b := ClampIndex(start, |s|), ClampIndex(end, |s|);
      |r| == (if a <= b then b - a else a - b) && OccursAt(s, r, if a <= b then a else b)
  {
    var a, b := ClampIndex(start, |s|), ClampIndex(end, |s|);
    var lo, hi := if a <= b then a else b, if a <= b then b else a;
    s[lo..hi]
  }

  /** The decimal digit character for `d`. */
  function DigitChar(d: int): char
    requires 0 <= d < 10
  {
    ('0' as int + d) as char
  }

  predicate IsDigit(c: char) {
    '0' <= c <= '9'
  }

  /** The number a string of decimal digits denotes. */
  function DecimalValue(s: string): int
    requires forall i :: 0 <= i < |s| ==> IsDigit(s[i])
  {
    if s == [] then 0 else DecimalValue(s[..|s| - 1]) * 10 + (s[|s| - 1] as int - '0' as int)
  }

  /** `n.toString()` for a natural number: its decimal digits, without leading zeros. */
  function Decimal(n: nat): (s: string)
    ensures |s| >= 1
    ensures forall i :: 0 <= i < |s| ==> IsDigit(s[i])
    ensures DecimalValue(s) == n
    ensures |s| > 1 ==> s[0] != '0'
  {
    if n < 10 then
      [DigitChar(n)]
    else
      var prefix := Decimal(n / 10);
      var s := prefix + [DigitChar(n % 10)];
      assert s[..|s| - 1] == prefix;
      s
  }

  /** `i.toString()` for an integer: a minus sign before the digits of a negative one. */
  function IntText(i: int): (s: string)
    ensures |s| >= 1
    ensures i < 0 <==> s[0] == '-'
    ensures forall k :: (if i < 0 then 1 else 0) <= k < |s| ==> IsDigit(s[k])
    ensures DecimalValue(if i < 0 then s[1..] else s) == if i < 0 then -i else i
    ensures |s| > (if i < 0 then 2 else 1) ==> s[if i < 0 then 1 else 0] != '0'
  {
    if i < 0 then
      var d := Decimal(-i);
      assert (['-'] + d)[1..] == d;
      ['-'] + d
    else Decimal(i)
  }
}
