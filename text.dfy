/** The part of Go's `strings` package that the core relies on.

    Text is a sequence of characters, one per rune. Whitespace is Unicode's
    (as `unicode.IsSpace` defines it); case mapping covers the ASCII letters. */
module Text {

  /** Go's `byte`. */
  type byte = b: int | 0 <= b < 256

  /** `string(bytes)`: each byte becomes the character with that code (exact for ASCII text). */
  function FromBytes(bs: seq<byte>): (s: string)
    ensures |s| == |bs|
  {
    seq(|bs|, i requires 0 <= i < |bs| => bs[i] as char)
  }

  /** `unicode.IsSpace`. */
  predicate IsSpace(c: char) {
    c == ' ' || c == '\t' || c == '\n' || c == '\r' || c == '\U{B}' || c == '\U{C}'
    || c == '\U{85}' || c == '\U{A0}' || c == '\U{1680}' || ('\U{2000}' <= c <= '\U{200A}')
    || c == '\U{2028}' || c == '\U{2029}' || c == '\U{202F}' || c == '\U{205F}' || c == '\U{3000}'
  }

  predicate IsAsciiLetter(c: char) {
    ('a' <= c <= 'z') || ('A' <= c <= 'Z')
  }

  // ---------------------------------------------------------------- trimming

  /** Drops leading whitespace. */
  function TrimLeft(s: string): (r: string)
    ensures |r| <= |s|
    ensures r == [] || !IsSpace(r[0])
    ensures forall k :: 0 <= k < |s| - |r| ==> IsSpace(s[k])
  {
    if s != [] && IsSpace(s[0]) then TrimLeft(s[1..]) else s
  }

  /** What `TrimLeft` keeps is the end of the text. */
  lemma {:induction false} TrimLeftIsSuffix(s: string)
    ensures TrimLeft(s) == s[|s| - |TrimLeft(s)|..]
  {
    if s != [] && IsSpace(s[0]) {
      TrimLeftIsSuffix(s[1..]);
      assert s[1..][|s| - 1 - |TrimLeft(s)|..] == s[|s| - |TrimLeft(s)|..];
    }
  }

  /** Drops trailing whitespace. */
  function TrimRight(s: string): (r: string)
    ensures |r| <= |s|
    ensures r == [] || !IsSpace(r[|r| - 1])
    ensures r != [] ==> r[0] == s[0]
    ensures forall k :: |r| <= k < |s| ==> IsSpace(s[k])
  {
    if s != [] && IsSpace(s[|s| - 1]) then TrimRight(s[..|s| - 1]) else s
  }

  /** What `TrimRight` keeps is the start of the text. */
  lemma {:induction false} TrimRightIsPrefix(s: string)
    ensures TrimRight(s) == s[..|TrimRight(s)|]
  {
    if s != [] && IsSpace(s[|s| - 1]) {
      TrimRightIsPrefix(s[..|s| - 1]);
      assert s[..|s| - 1][..|TrimRight(s)|] == s[..|TrimRight(s)|];
    }
  }

  /** `strings.TrimSpace`: the text between the first and the last non-space character. */
  function TrimSpace(s: string): (r: string)
    ensures |r| <= |s|
    ensures r == [] || (!IsSpace(r[0]) && !IsSpace(r[|r| - 1]))
  {
    TrimRight(TrimLeft(s))
  }

  /** Trimming text that has no surrounding whitespace changes nothing. */
  lemma TrimSpaceOfTrimmed(s: string)
    requires s == [] || (!IsSpace(s[0]) && !IsSpace(s[|s| - 1]))
    ensures TrimSpace(s) == s
  {
  }

  /** A leading space makes no difference to the trimmed text. */
  lemma TrimSpaceSkipsSpace(c: char, s: string)
    requires IsSpace(c)
    ensures TrimSpace([c] + s) == TrimSpace(s)
  {
    assert ([c] + s)[1..] == s;
  }

  /** Trimming is idempotent. */
  lemma TrimSpaceIdempotent(s: string)
    ensures TrimSpace(TrimSpace(s)) == TrimSpace(s)
  {
    TrimSpaceOfTrimmed(TrimSpace(s));
  }

  // ---------------------------------------------------------------- searching

  predicate HasPrefix(s: string, p: string) {
    |p| <= |s| && s[..|p|] == p
  }

  /** `p` occurs in `s` at position `i`. */
  predicate OccursAt(s: string, p: string, i: int) {
    0 <= i && i + |p| <= |s| && s[i..i + |p|] == p
  }

  /** `strings.Contains`: `p` occurs somewhere in `s`. */
  predicate Contains(s: string, p: string) {
    exists i :: 0 <= i <= |s| && OccursAt(s, p, i)
  }

  /** An occurrence in `[c] + t` is at its start or in `t`. */
  lemma ContainsCons(c: char, t: string, p: string)
    ensures Contains([c] + t, p) <==> HasPrefix([c] + t, p) || Contains(t, p)
  {
    var s := [c] + t;
    if Contains(s, p) && !HasPrefix(s, p) {
      var i :| 0 <= i <= |s| && OccursAt(s, p, i);
      assert i != 0;
      assert t[i - 1..i - 1 + |p|] == s[i..i + |p|];
      assert OccursAt(t, p, i - 1);
    }
    if Contains(t, p) {
      var i :| 0 <= i <= |t| && OccursAt(t, p, i);
      assert s[i + 1..i + 1 + |p|] == t[i..i + |p|];
      assert OccursAt(s, p, i + 1);
    }
    if HasPrefix(s, p) {
      assert OccursAt(s, p, 0);
    }
  }

  /** A part of `s` that contains `p` makes `s` contain it. */
  lemma ContainsFromSlice(s: string, p: string, i: nat, j: nat)
    requires i <= j <= |s|
    ensures Contains(s[i..j], p) ==> Contains(s, p)
  {
    if Contains(s[i..j], p) {
      var k :| 0 <= k <= |s[i..j]| && OccursAt(s[i..j], p, k);
      forall m | 0 <= m < |p|
        ensures s[i + k + m] == p[m]
      {
        assert s[i..j][k..k + |p|][m] == s[i..j][k + m];
      }
      assert OccursAt(s, p, i + k);
    }
  }

  /** A piece of text that does not contain `p` has no part that contains it. */
  lemma NotContainsSlice(s: string, p: string, i: nat, j: nat)
    requires i <= j <= |s| && !Contains(s, p)
    ensures !Contains(s[i..j], p)
  {
    ContainsFromSlice(s, p, i, j);
  }

  // ---------------------------------------------------------------- replacing

  /** `strings.ReplaceAll(s, p, "")` for a non-empty `p`: every occurrence found by a
      left-to-right scan is removed, and the scan resumes after it. */
  function RemoveAll(s: string, p: string): (r: string)
    requires p != []
    ensures |r| <= |s|
    ensures !Contains(s, p) ==> r == s
    decreases |s|
  {
    if |s| < |p| then s
    else if s[..|p|] == p then
      assert OccursAt(s, p, 0);
      RemoveAll(s[|p|..], p)
    else
      assert [s[0]] + s[1..] == s;
      ContainsCons(s[0], s[1..], p);
      [s[0]] + RemoveAll(s[1..], p)
  }

  // ---------------------------------------------------------------- joining

  /** `strings.Join`: the parts with `sep` between neighbours. */
  function Join(parts: seq<string>, sep: string): (r: string)
    ensures parts == [] ==> r == []
    ensures |parts| == 1 ==> r == parts[0]
  {
    if parts == [] then []
    else if |parts| == 1 then parts[0]
    else Join(parts[..|parts| - 1], sep) + sep + parts[|parts| - 1]
  }

  // ---------------------------------------------------------------- case

  function UpperChar(c: char): (u: char)
    ensures 'A' <= u <= 'Z' <==> IsAsciiLetter(c)
  {
    if 'a' <= c <= 'z' then (c as int - 32) as char else c
  }

  function LowerChar(c: char): (l: char)
    ensures 'a' <= l <= 'z' <==> IsAsciiLetter(c)
  {
    if 'A' <= c <= 'Z' then (c as int + 32) as char else c
  }

  /** `strings.ToUpper` on ASCII letters. */
  function Upper(s: string): (r: string)
    ensures |r| == |s|
  {
    seq(|s|, i requires 0 <= i < |s| => UpperChar(s[i]))
  }

  /** `strings.ToLower` on ASCII letters. */
  function Lower(s: string): (r: string)
    ensures |r| == |s|
  {
    seq(|s|, i requires 0 <= i < |s| => LowerChar(s[i]))
  }

  /** `strings.EqualFold` on ASCII letters: equal up to case. */
  predicate EqualFold(a: string, b: string) {
    Lower(a) == Lower(b)
  }

  // ---------------------------------------------------------------- ordering

  /** Go's `<` on strings: lexicographic order of the characters. */
  predicate LexLess(a: string, b: string)
    decreases |a|
  {
    if a == [] then b != []
    else if b == [] then false
    else a[0] < b[0] || (a[0] == b[0] && LexLess(a[1..], b[1..]))
  }

  /** Go's `<=` on strings. */
  predicate LexLe(a: string, b: string) {
    a == b || LexLess(a, b)
  }

  /** On one-character strings Go's order is the order of the characters. */
  lemma LexOneChar(a: char, b: char)
    ensures LexLe([a], [b]) <==> a <= b
  {
    assert [a][1..] == [] && [b][1..] == [];
  }
}
