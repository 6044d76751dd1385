/** Strings as JavaScript sees them: the character classes that `\s`, `trim` and
    `toLowerCase` use, `startsWith`/`endsWith`/`includes`, `split` and `join` on a
    single-character separator, and the decimal rendering of integers. */
module Text {

  /** The ECMAScript WhiteSpace and LineTerminator characters: exactly the
      characters matched by the regular-expression class `\s` and removed by `trim`. */
  predicate IsSpace(c: char) {
    || c == '\t' || c == '\n' || c == '\U{B}' || c == '\U{C}' || c == '\r' || c == ' '
    || c == '\U{A0}' || c == '\U{1680}' || ('\U{2000}' <= c <= '\U{200A}')
    || c == '\U{2028}' || c == '\U{2029}' || c == '\U{202F}' || c == '\U{205F}'
    || c == '\U{3000}' || c == '\U{FEFF}'
  }

  /** The characters that the regular-expression `.` does not match. */
  predicate IsLineTerminator(c: char) {
    c == '\n' || c == '\r' || c == '\U{2028}' || c == '\U{2029}'
  }

  predicate IsDigit(c: char) {
    '0' <= c <= '9'
  }

  predicate IsAsciiLetter(c: char) {
    ('a' <= c <= 'z') || ('A' <= c <= 'Z')
  }

  predicate AllSpace(s: string) {
    forall i :: 0 <= i < |s| ==> IsSpace(s[i])
  }

  predicate StartsWith(s: string, prefix: string) {
    |prefix| <= |s| && s[..|prefix|] == prefix
  }

  predicate EndsWith(s: string, suffix: string) {
    |suffix| <= |s| && s[|s| - |suffix|..] == suffix
  }

  /** `sub` occurs in `s` starting at index `i`. */
  predicate OccursAt(s: string, sub: string, i: int) {
    0 <= i && i + |sub| <= |s| && s[i..i + |sub|] == sub
  }

  /** `s.includes(sub)`. */
  predicate Contains(s: string, sub: string) {
    exists i | 0 <= i <= |s| - |sub| :: OccursAt(s, sub, i)
  }

  /** A one-character string occurs in `s` exactly when its character does. */
  lemma ContainsChar(s: string, c: char)
    ensures Contains(s, [c]) <==> c in s
  {
    if c in s {
      var i :| 0 <= i < |s| && s[i] == c;
      assert OccursAt(s, [c], i);
    }
    if Contains(s, [c]) {
      var i :| 0 <= i <= |s| - 1 && OccursAt(s, [c], i);
      assert s[i..i + 1][0] == s[i];
    }
  }

  /** ASCII lower-casing of one character. */
  function LowerChar(c: char): char {
    if 'A' <= c <= 'Z' then (c as int + 32) as char else c
  }

  /** `s.toLowerCase()`, restricted to the ASCII letters. */
  function ToLower(s: string): (r: string)
    ensures |r| == |s|
    ensures forall i :: 0 <= i < |s| ==> r[i] == LowerChar(s[i])
  {
    if s == [] then [] else [LowerChar(s[0])] + ToLower(s[1..])
  }

  /** `c.repeat(n)` for a one-character string `c`. */
  function Repeat(c: char, n: nat): (r: string)
    ensures |r| == n
    ensures forall i :: 0 <= i < n ==> r[i] == c
  {
    if n == 0 then [] else [c] + Repeat(c, n - 1)
  }

  /** The UTF-16 code units that encode `c`: two for a character beyond U+FFFF
      (a surrogate pair), one otherwise. */
  function Utf16Width(c: char): nat {
    if c <= '\U{FFFF}' then 1 else 2
  }

  /** A JavaScript string's `length`: the number of UTF-16 code units of `s`.
      It counts from the end, the way a string literal is built. */
  function Utf16Length(s: string): (n: nat)
    ensures |s| <= n <= 2 * |s|
  {
    if s == [] then 0 else Utf16Length(s[..|s| - 1]) + Utf16Width(s[|s| - 1])
  }

  lemma {:induction false} Utf16LengthConcat(a: string, b: string)
    ensures Utf16Length(a + b) == Utf16Length(a) + Utf16Length(b)
  {
    if b == [] {
      assert a + b == a;
    } else {
      assert (a + b)[..|a + b| - 1] == a + b[..|b| - 1];
      assert (a + b)[|a + b| - 1] == b[|b| - 1];
      Utf16LengthConcat(a, b[..|b| - 1]);
    }
  }

  /** A run of `n` characters beyond U+FFFF is `2 * n` code units long. */
  lemma {:induction false} Utf16LengthAstral(c: char, n: nat)
    requires c > '\U{FFFF}'
    ensures Utf16Length(Repeat(c, n)) == 2 * n
  {
    if n > 0 {
      assert Repeat(c, n)[..n - 1] == Repeat(c, n - 1);
      Utf16LengthAstral(c, n - 1);
    }
  }

  /** The characters of `s` from `lo` up to `hi` are all spaces. */
  predicate SpacesBetween(s: string, lo: int, hi: int) {
    forall k :: lo <= k < hi && 0 <= k < |s| ==> IsSpace(s[k])
  }

  /** Number of leading characters of `s` that are spaces. */
  function LeadingSpaces(s: string): (n: nat)
    ensures n <= |s|
    ensures SpacesBetween(s, 0, n)
    ensures n < |s| ==> !IsSpace(s[n])
  {
    if s == [] || !IsSpace(s[0]) then 0
    else
      var k := LeadingSpaces(s[1..]);
      assert forall m :: 1 <= m < |s| ==> s[m] == s[1..][m - 1];
      k + 1
  }

  /** Number of trailing characters of `s` that are spaces. */
  function TrailingSpaces(s: string): (n: nat)
    ensures n <= |s|
    ensures SpacesBetween(s, |s| - n, |s|)
    ensures n < |s| ==> !IsSpace(s[|s| - n - 1])
  {
    if s == [] || !IsSpace(s[|s| - 1]) then 0
    else
      var k := TrailingSpaces(s[..|s| - 1]);
      assert forall m :: 0 <= m < |s| - 1 ==> s[m] == s[..|s| - 1][m];
      k + 1
  }

  /** `s.trim()`: the longest infix of `s` that neither starts nor ends with a space,
      obtained by removing only spaces. */
  function Trim(s: string): (r: string)
    ensures exists i, j :: 0 <= i <= j <= |s| && r == s[i..j] && SpacesBetween(s, 0, i) && SpacesBetween(s, j, |s|)
    ensures r != [] ==> !IsSpace(r[0]) && !IsSpace(r[|r| - 1])
    ensures AllSpace(s) <==> r == []
  {
    var i := LeadingSpaces(s);
    var j := if i == |s| then |s| else |s| - TrailingSpaces(s);
    TrimCut(s, i, j);
    assert i < j ==> s[i..j][0] == s[i] && s[i..j][j - i - 1] == s[j - 1];
    s[i..j]
  }

  /** The cut points of `trim` leave spaces outside and none at either end inside. */
  lemma TrimCut(s: string, i: nat, j: nat)
    requires i == LeadingSpaces(s)
    requires j == if i == |s| then |s| else |s| - TrailingSpaces(s)
    ensures i <= j <= |s| && SpacesBetween(s, 0, i) && SpacesBetween(s, j, |s|)
    ensures i < j ==> !IsSpace(s[i]) && !IsSpace(s[j - 1])
    ensures AllSpace(s) <==> i == j
  {
    if i < |s| {
      TrimCutInside(s, i, j);
    }
  }

  /** When some character is not a space, both cuts fall on such characters. */
  lemma TrimCutInside(s: string, i: nat, j: int)
    requires i == LeadingSpaces(s) && i < |s| && j == |s| - TrailingSpaces(s)
    ensures i < j <= |s| && !IsSpace(s[i]) && !IsSpace(s[j - 1]) && !AllSpace(s)
  {
  }

  /** Index of the first occurrence of `c` in `s`. */
  function IndexOf(s: string, c: char): (i: nat)
    requires c in s
    ensures i < |s| && s[i] == c && c !in s[..i]
  {
    if s[0] == c then 0
    else
      var k := IndexOf(s[1..], c);
      assert s[..k + 1] == [s[0]] + s[1..][..k];
      k + 1
  }

  /** `parts.join(sep)`. */
  function Join(parts: seq<string>, sep: string): string {
    if |parts| == 0 then ""
    else if |parts| == 1 then parts[0]
    else parts[0] + sep + Join(parts[1..], sep)
  }

  /** `s.split(sep)` for a one-character separator: the maximal pieces between
      separators, never empty as a list. */
  function Split(s: string, sep: char): (r: seq<string>)
    ensures |r| >= 1
    ensures forall k :: 0 <= k < |r| ==> sep !in r[k]
    decreases |s|
  {
    if sep !in s then [s]
    else
      var i := IndexOf(s, sep);
      [s[..i]] + Split(s[i + 1..], sep)
  }

  /** Joining the pieces of a split with the separator gives the original string back. */
  lemma {:induction false} JoinSplit(s: string, sep: char)
    ensures Join(Split(s, sep), [sep]) == s
    decreases |s|
  {
    if sep in s {
      var i := IndexOf(s, sep);
      var tail := Split(s[i + 1..], sep);
      assert Split(s, sep) == [s[..i]] + tail;
      JoinSplit(s[i + 1..], sep);
      JoinCons(s[..i], tail, [sep]);
      assert s == s[..i] + [sep] + s[i + 1..];
    }
  }

  /** Joining a list with a first piece and a nonempty rest. */
  lemma JoinCons(head: string, tail: seq<string>, sep: string)
    requires tail != []
    ensures Join([head] + tail, sep) == head + sep + Join(tail, sep)
  {
    assert ([head] + tail)[0] == head && ([head] + tail)[1..] == tail;
  }

  /** Splitting a join of separator-free pieces gives the pieces back. */
  lemma {:induction false} SplitJoin(parts: seq<string>, sep: char)
    requires |parts| >= 1
    requires forall k :: 0 <= k < |parts| ==> sep !in parts[k]
    ensures Split(Join(parts, [sep]), sep) == parts
    decreases |parts|
  {
    if |parts| > 1 {
      var p0, tail := parts[0], parts[1..];
      var rest := Join(tail, [sep]);
      var s := p0 + [sep] + rest;
      JoinCons(p0, tail, [sep]);
      assert [p0] + tail == parts;
      SplitAt(p0, sep, rest);
      assert forall k :: 0 <= k < |tail| ==> tail[k] == parts[k + 1];
      SplitJoin(tail, sep);
      assert parts == [p0] + tail;
    }
  }

  /** Splitting at the first separator. */
  lemma SplitAt(p0: string, sep: char, rest: string)
    requires sep !in p0
    ensures Split(p0 + [sep] + rest, sep) == [p0] + Split(rest, sep)
  {
    var s := p0 + [sep] + rest;
    assert s[..|p0|] == p0 && s[|p0|] == sep;
    IndexOfAt(s, sep, |p0|);
    assert s[|p0| + 1..] == rest;
  }

  /** The first occurrence is found wherever it is. */
  lemma IndexOfAt(s: string, c: char, k: nat)
    requires k < |s| && s[k] == c && c !in s[..k]
    ensures IndexOf(s, c) == k
  {
    var i := IndexOf(s, c);
    assert forall m :: 0 <= m < k ==> s[..k][m] == s[m];
    assert forall m :: 0 <= m < i ==> s[..i][m] == s[m];
  }

  /** A string occurs wherever it is concatenated in. */
  lemma ContainsMiddle(a: string, x: string, b: string)
    ensures Contains(a + x + b, x)
  {
    assert (a + x + b)[|a|..|a| + |x|] == x;
    assert OccursAt(a + x + b, x, |a|);
  }

  /** An occurrence survives adding text on either side. */
  lemma ContainsWithin(a: string, s: string, b: string, x: string)
    requires Contains(s, x)
    ensures Contains(a + s + b, x)
  {
    var i :| 0 <= i <= |s| - |x| && OccursAt(s, x, i);
    assert (a + s + b)[|a| + i..|a| + i + |x|] == s[i..i + |x|];
    assert OccursAt(a + s + b, x, |a| + i);
  }

  /** A string begins with any prefix of it. */
  lemma StartsWithConcat(a: string, b: string)
    ensures StartsWith(a + b, a)
  {
    assert (a + b)[..|a|] == a;
  }

  lemma StartsWithTrans(s: string, t: string, p: string)
    requires StartsWith(s, t) && StartsWith(t, p)
    ensures StartsWith(s, p)
  {
    assert s[..|p|] == s[..|t|][..|p|];
  }

  /** Of two prefixes of the same length, a string starting with one starts with
      the other exactly when they are equal. */
  lemma SameLengthPrefix(s: string, a: string, b: string)
    requires StartsWith(s, a) && |a| == |b|
    ensures StartsWith(s, b) <==> a == b
  {
  }

  /** An occurrence in the left part is an occurrence in the whole. */
  lemma ContainsLeft(a: string, b: string, x: string)
    requires Contains(a, x)
    ensures Contains(a + b, x)
  {
    ContainsWithin("", a, b, x);
    assert "" + a + b == a + b;
  }

  /** An occurrence in the right part is an occurrence in the whole. */
  lemma ContainsRight(a: string, b: string, x: string)
    requires Contains(b, x)
    ensures Contains(a + b, x)
  {
    ContainsWithin(a, b, "", x);
    assert a + b + "" == a + b;
  }

  /** A string occurs at the end of any string ending with it. */
  lemma ContainsEnd(a: string, x: string)
    ensures Contains(a + x, x)
  {
    ContainsMiddle(a, x, "");
    assert a + x + "" == a + x;
  }

  /** Every piece of a join occurs in the joined string. */
  lemma {:induction false} JoinContains(parts: seq<string>, sep: string, k: nat)
    requires k < |parts|
    ensures Contains(Join(parts, sep), parts[k])
    decreases |parts|
  {
    if |parts| == 1 {
      ContainsMiddle("", parts[0], "");
      assert "" + parts[0] + "" == Join(parts, sep);
    } else {
      var tail := parts[1..];
      var rest := Join(tail, sep);
      JoinCons(parts[0], tail, sep);
      assert [parts[0]] + tail == parts;
      if k == 0 {
        ContainsMiddle("", parts[0], sep + rest);
        assert "" + parts[0] + (sep + rest) == parts[0] + sep + rest;
      } else {
        JoinContains(tail, sep, k - 1);
        ContainsWithin(parts[0] + sep, rest, "", tail[k - 1]);
        assert parts[0] + sep + rest + "" == parts[0] + sep + rest;
      }
    }
  }

  function DigitChar(d: nat): char
    requires d < 10
  {
    ['0', '1', '2', '3', '4', '5', '6', '7', '8', '9'][d]
  }

  /** Decimal rendering of a natural number, as JavaScript's `String(n)` gives it. */
  function NatToString(n: nat): (r: string)
    ensures |r| >= 1
    ensures forall i :: 0 <= i < |r| ==> IsDigit(r[i])
    ensures r[0] == '0' ==> n == 0
  {
    if n < 10 then [DigitChar(n)] else NatToString(n / 10) + [DigitChar(n % 10)]
  }

  /** Decimal rendering of an integer, with a leading `-` for negative values. */
  function IntToString(n: int): (r: string)
    ensures |r| >= 1
    ensures (r[0] == '-') <==> n < 0
  {
    if n < 0 then "-" + NatToString(-n) else NatToString(n)
  }

  /** The prefix one longer than `s[..i]` extends it by `s[i]`. */
  lemma PrefixStep<T>(s: seq<T>, i: nat)
    requires i < |s|
    ensures s[..i + 1][..i] == s[..i] && s[..i + 1][i] == s[i]
  {
  }

  lemma TakeAll<T>(s: seq<T>)
    ensures s[..|s|] == s
  {
  }

  lemma AppendAssociates<T>(a: seq<T>, b: seq<T>, c: seq<T>)
    ensures a + b + c == a + (b + c)
  {
  }
}
