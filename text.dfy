/** Option, the usual wrapper for a value that may be absent (JavaScript's null/undefined). */
module Wrappers {
  datatype Option<T> = None | Some(value: T)
}

/**
  Character classes and string operations of JavaScript that the parser and the template
  matcher rely on: the `\s` and `\w` classes, `trim`, `split`, `includes`, `join`,
  `toLowerCase`/`toUpperCase`, and a case-insensitive comparison with an ASCII pattern as the
  `/i` flag performs it.
*/
module Text {
  import opened Wrappers

  /** JavaScript's `\s`: white space and line terminators (also what `trim` removes). */
  predicate IsSpace(c: char) {
    c == ' ' || c == '\t' || c == '\n' || c == '\U{000B}' || c == '\U{000C}' || c == '\r'
    || c == '\U{00A0}' || c == '\U{1680}' || ('\U{2000}' <= c <= '\U{200A}')
    || c == '\U{2028}' || c == '\U{2029}' || c == '\U{202F}' || c == '\U{205F}'
    || c == '\U{3000}' || c == '\U{FEFF}'
  }

  /** The characters a regular-expression `.` does not match. */
  predicate IsLineTerminator(c: char) {
    c == '\n' || c == '\r' || c == '\U{2028}' || c == '\U{2029}'
  }

  /** JavaScript's `\w`: ASCII letters, digits and the underscore. */
  predicate IsWordChar(c: char) {
    ('a' <= c <= 'z') || ('A' <= c <= 'Z') || ('0' <= c <= '9') || c == '_'
  }

  /** `\w` at index i of s, false outside the string (the test behind `\b`). */
  predicate WordAt(s: string, i: int) {
    0 <= i < |s| && IsWordChar(s[i])
  }

  /** `\b` at position i: a word character on exactly one side. */
  predicate BoundaryAt(s: string, i: int) {
    WordAt(s, i - 1) != WordAt(s, i)
  }

  /** `toLowerCase` on ASCII and Latin-1 letters. */
  function LowerChar(c: char): char {
    if 'A' <= c <= 'Z' then (c as int + 32) as char
    else if '\U{00C0}' <= c <= '\U{00DE}' && c != '\U{00D7}' then (c as int + 32) as char
    else c
  }

  /** `toUpperCase` on ASCII and Latin-1 letters (ß and µ are left as they are). */
  function UpperChar(c: char): char {
    if 'a' <= c <= 'z' then (c as int - 32) as char
    else if '\U{00E0}' <= c <= '\U{00FE}' && c != '\U{00F7}' then (c as int - 32) as char
    else if c == '\U{00FF}' then '\U{0178}'
    else c
  }

  function Lower(s: string): (r: string)
    ensures |r| == |s|
    ensures forall i :: 0 <= i < |s| ==> r[i] == LowerChar(s[i])
  {
    if s == [] then [] else [LowerChar(s[0])] + Lower(s[1..])
  }

  function Upper(s: string): (r: string)
    ensures |r| == |s|
    ensures forall i :: 0 <= i < |s| ==> r[i] == UpperChar(s[i])
  {
    if s == [] then [] else [UpperChar(s[0])] + Upper(s[1..])
  }

  function LowerAll(xs: seq<string>): (r: seq<string>)
    ensures |r| == |xs|
    ensures forall i :: 0 <= i < |xs| ==> r[i] == Lower(xs[i])
  {
    if xs == [] then [] else [Lower(xs[0])] + LowerAll(xs[1..])
  }

  /** Case-insensitive equality of an input character with an ASCII pattern character, as a
      non-Unicode `/i` regular expression compares them: only ASCII letters fold. */
  predicate CiEq(c: char, p: char) {
    c == p || ((('a' <= p <= 'z') || ('A' <= p <= 'Z')) && LowerChar(c) == LowerChar(p))
  }

  /** The pattern w occurs case-insensitively at index i of s. */
  predicate CiAt(s: string, i: nat, w: string) {
    i + |w| <= |s| && CiFrom(s, i, w, 0)
  }

  /** Characters k and on of w agree with s from index i + k. */
  predicate CiFrom(s: string, i: nat, w: string, k: nat)
    requires i + |w| <= |s|
    decreases |w| - k
  {
    k >= |w| || (CiEq(s[i + k], w[k]) && CiFrom(s, i, w, k + 1))
  }

  /** The first index at or after i that is not white space. */
  function SkipSpaces(s: string, i: nat): (j: nat)
    requires i <= |s|
    ensures i <= j <= |s|
    ensures j < |s| ==> !IsSpace(s[j])
    ensures forall k :: i <= k < j ==> IsSpace(s[k])
    decreases |s| - i
  {
    if i == |s| || !IsSpace(s[i]) then i else SkipSpaces(s, i + 1)
  }

  /** The first index at or after i that is not a word character. */
  function SkipWord(s: string, i: nat): (j: nat)
    requires i <= |s|
    ensures i <= j <= |s|
    ensures j < |s| ==> !IsWordChar(s[j])
    ensures forall k :: i <= k < j ==> IsWordChar(s[k])
    decreases |s| - i
  {
    if i == |s| || !IsWordChar(s[i]) then i else SkipWord(s, i + 1)
  }

  /** The first index at or after i that is white space. */
  function SkipNonSpace(s: string, i: nat): (j: nat)
    requires i <= |s|
    ensures i <= j <= |s|
    ensures j < |s| ==> IsSpace(s[j])
    ensures forall k :: i <= k < j ==> !IsSpace(s[k])
    decreases |s| - i
  {
    if i == |s| || IsSpace(s[i]) then i else SkipNonSpace(s, i + 1)
  }

  /** The first index at or after i holding c, if any. */
  function IndexOf(s: string, c: char, i: nat): (r: Option<nat>)
    requires i <= |s|
    ensures r.Some? ==> i <= r.value < |s| && s[r.value] == c
    ensures forall k :: i <= k < |s| && (r.None? || k < r.value) ==> s[k] != c
    decreases |s| - i
  {
    if i == |s| then None
    else if s[i] == c then Some(i)
    else IndexOf(s, c, i + 1)
  }

  function TrimStart(s: string): (r: string)
    ensures |r| <= |s| && r == s[|s| - |r|..]
    ensures r != [] ==> !IsSpace(r[0])
    ensures forall k :: 0 <= k < |s| - |r| ==> IsSpace(s[k])
  {
    if s != [] && IsSpace(s[0]) then TrimStart(s[1..]) else s
  }

  function TrimEnd(s: string): (r: string)
    ensures |r| <= |s| && r == s[..|r|]
    ensures r != [] ==> !IsSpace(r[|r| - 1])
    ensures forall k :: |r| <= k < |s| ==> IsSpace(s[k])
  {
    if s != [] && IsSpace(s[|s| - 1]) then TrimEnd(s[..|s| - 1]) else s
  }

  /** Every character of s is white space. */
  predicate AllSpace(s: string) {
    forall k :: 0 <= k < |s| ==> IsSpace(s[k])
  }

  /** `String.prototype.trim`: the slice of s left after every leading and every trailing
      white-space character is dropped. */
  function Trim(s: string): (r: string)
    ensures |r| <= |s|
    ensures var a := |s| - |TrimStart(s)|;
      a + |r| <= |s| && r == s[a..a + |r|] && AllSpace(s[..a]) && AllSpace(s[a + |r|..])
    ensures r != [] ==> !IsSpace(r[0]) && !IsSpace(r[|r| - 1])
  {
    var t := TrimStart(s);
    var r := TrimEnd(t);
    TrimSlices(s, t, r);
    r
  }

  /** The slice and the white space around it, for Trim. */
  lemma TrimSlices(s: string, t: string, r: string)
    requires |t| <= |s| && t == s[|s| - |t|..]
    requires |r| <= |t| && r == t[..|r|]
    requires forall k :: |r| <= k < |t| ==> IsSpace(t[k])
    requires forall k :: 0 <= k < |s| - |t| ==> IsSpace(s[k])
    ensures var a := |s| - |t|; r == s[a..a + |r|] && AllSpace(s[..a]) && AllSpace(s[a + |r|..])
  {
    var a := |s| - |t|;
    var tail := s[a + |r|..];
    forall k | 0 <= k < |tail|
      ensures IsSpace(tail[k])
    {
      assert tail[k] == t[|r| + k];
    }
  }

  /** `s.replace(/c/g, '')`: every c removed, every other character kept as often as it
      occurs (their order is kept too, see RemoveAllAppend). */
  function RemoveAll(s: string, c: char): (r: string)
    ensures |r| <= |s|
    ensures forall k :: 0 <= k < |r| ==> r[k] != c
    ensures multiset(r) == multiset(s)[c := 0]
  {
    if s == [] then []
    else
      assert s == [s[0]] + s[1..];
      assert multiset(s) == multiset([s[0]]) + multiset(s[1..]);
      (if s[0] == c then [] else [s[0]]) + RemoveAll(s[1..], c)
  }

  /** Removal works piece by piece, so what is left of s + t is what is left of s followed
      by what is left of t: the kept characters stay in their order. */
  lemma {:induction false} RemoveAllAppend(s: string, t: string, c: char)
    ensures RemoveAll(s + t, c) == RemoveAll(s, c) + RemoveAll(t, c)
    decreases |s|
  {
    if s != [] {
      assert (s + t)[0] == s[0];
      assert (s + t)[1..] == s[1..] + t;
      assert RemoveAll(s + t, c) == (if s[0] == c then [] else [s[0]]) + RemoveAll(s[1..] + t, c);
      RemoveAllAppend(s[1..], t, c);
    } else {
      assert s + t == t;
    }
  }

  /** `s.split(c)` for a one-character separator: the pieces between the c's, which joined
      with c give s back and none of which holds a c. */
  function SplitOn(s: string, c: char): (r: seq<string>)
    ensures |r| >= 1
    ensures Join(r, [c]) == s
    ensures forall i :: 0 <= i < |r| ==> c !in r[i]
    decreases |s|
  {
    match IndexOf(s, c, 0)
    case None => [s]
    case Some(k) =>
      var rest := SplitOn(s[k + 1..], c);
      var r := [s[..k]] + rest;
      assert r[1..] == rest;
      assert s == s[..k] + [c] + s[k + 1..];
      r
  }

  /** `parts.join(sep)`. */
  function Join(parts: seq<string>, sep: string): string {
    if parts == [] then ""
    else if |parts| == 1 then parts[0]
    else parts[0] + sep + Join(parts[1..], sep)
  }

  /** w occurs in s at index i. */
  predicate SubstringAt(s: string, w: string, i: nat) {
    i + |w| <= |s| && s[i..i + |w|] == w
  }

  /** w occurs in s as a contiguous substring (`s.includes(w)`). */
  ghost predicate Contains(s: string, w: string) {
    exists i: nat :: SubstringAt(s, w, i)
  }

  /** Search for w in s starting at index i. */
  predicate ContainsFrom(s: string, w: string, i: nat)
    decreases |s| - i
  {
    i + |w| <= |s| && (SubstringAt(s, w, i) || ContainsFrom(s, w, i + 1))
  }

  lemma {:induction false} ContainsFromSound(s: string, w: string, i: nat)
    ensures ContainsFrom(s, w, i) <==> exists k: nat :: i <= k && SubstringAt(s, w, k)
    decreases |s| - i
  {
    if i + |w| <= |s| {
      ContainsFromSound(s, w, i + 1);
      if exists k: nat :: i <= k && SubstringAt(s, w, k) {
        var k: nat :| i <= k && SubstringAt(s, w, k);
        if k > i { assert i + 1 <= k; }
      }
    }
  }

  /** `includes`, computed by the search. */
  function Includes(s: string, w: string): (b: bool)
    ensures b <==> Contains(s, w)
  {
    ContainsFromSound(s, w, 0);
    ContainsFrom(s, w, 0)
  }

  /** The first whitespace-separated token of a trimmed string (`split(/\s+/)[0]`). */
  function FirstToken(t: string): string {
    t[..SkipNonSpace(t, 0)]
  }

  /** `t.split(/\s+/).length >= 2` for a trimmed, non-empty t: it contains white space. */
  predicate HasSecondToken(t: string) {
    SkipNonSpace(t, 0) < |t|
  }

  /** The second token (`split(/\s+/)[1]`); empty when there is none. */
  function SecondToken(t: string): string {
    var i := SkipSpaces(t, SkipNonSpace(t, 0));
    t[i..SkipNonSpace(t, i)]
  }
}
