/** The handful of Python `str` operations the system relies on:
    `s.lower()`, `s.strip()` and the substring test `sub in s`. */
module Text {

  /** Python's `str.isspace()`: the characters `str.strip()` removes. */
  predicate IsSpace(c: char) {
    || c == ' ' || c == '\t' || c == '\n' || c == '\r' || c == '\U{000B}' || c == '\U{000C}'
    || ('\U{001C}' <= c <= '\U{001F}') || c == '\U{0085}' || c == '\U{00A0}' || c == '\U{1680}'
    || ('\U{2000}' <= c <= '\U{200A}') || c == '\U{2028}' || c == '\U{2029}' || c == '\U{202F}'
    || c == '\U{205F}' || c == '\U{3000}'
  }

  predicate IsUpper(c: char) {
    'A' <= c <= 'Z'
  }

  function LowerChar(c: char): (r: char)
    ensures !IsUpper(r)
    ensures IsSpace(r) == IsSpace(c)
    ensures !IsUpper(c) ==> r == c
  {
    if IsUpper(c) then (c as int + 32) as char else c
  }

  /** `s.lower()`, restricted to the ASCII letters. */
  function Lower(s: string): (r: string)
    ensures |r| == |s|
    ensures forall i :: 0 <= i < |s| ==> r[i] == LowerChar(s[i])
  {
    seq(|s|, i requires 0 <= i < |s| => LowerChar(s[i]))
  }

  /** No ASCII capital letter occurs in `s`. */
  predicate IsLower(s: string) {
    forall i :: 0 <= i < |s| ==> !IsUpper(s[i])
  }

  lemma LowerOfLower(s: string)
    requires IsLower(s)
    ensures Lower(s) == s
  {
  }

  /** `s.lower()` is idempotent: lowering twice is lowering once. */
  lemma LowerIdempotent(s: string)
    ensures IsLower(Lower(s)) && Lower(Lower(s)) == Lower(s)
  {
    LowerOfLower(Lower(s));
  }

  /** `sub` occurs in `s` starting at index `i`. */
  predicate OccursAt(s: string, sub: string, i: int) {
    0 <= i <= |s| - |sub| && s[i..i + |sub|] == sub
  }

  /** `sub in s`: `sub` occurs in `s` as a contiguous block. */
  predicate Contains(s: string, sub: string) {
    exists i | 0 <= i <= |s| - |sub| :: OccursAt(s, sub, i)
  }

  lemma ContainsAt(s: string, sub: string, i: nat)
    requires i + |sub| <= |s| && forall k :: 0 <= k < |sub| ==> s[i + k] == sub[k]
    ensures Contains(s, sub)
  {
    OccursAtByChars(s, sub, i);
  }

  lemma OccursAtChar(s: string, sub: string, i: int, k: int)
    requires OccursAt(s, sub, i) && 0 <= k < |sub|
    ensures s[i + k] == sub[k]
  {
    assert s[i..i + |sub|][k] == s[i + k];
  }

  lemma OccursAtByChars(s: string, sub: string, i: int)
    requires 0 <= i <= |s| - |sub|
    requires forall k :: 0 <= k < |sub| ==> s[i + k] == sub[k]
    ensures OccursAt(s, sub, i)
  {
  }

  /** A block that holds a character `s` lacks cannot occur in `s`. */
  lemma NotContainsMissingChar(s: string, sub: string, c: char)
    requires c in sub && c !in s
    ensures !Contains(s, sub)
  {
    forall i | 0 <= i <= |s| - |sub| ensures !OccursAt(s, sub, i) {
      var k :| 0 <= k < |sub| && sub[k] == c;
      assert s[i..i + |sub|][k] == s[i + k];
    }
  }

  lemma ContainsInPrefix(a: string, b: string, sub: string)
    requires Contains(a, sub)
    ensures Contains(a + b, sub)
  {
    var i :| 0 <= i <= |a| - |sub| && OccursAt(a, sub, i);
    assert (a + b)[i..i + |sub|] == a[i..i + |sub|];
    assert OccursAt(a + b, sub, i);
  }

  /** Drops the leading whitespace. */
  function TrimStart(s: string): (r: string)
    ensures |r| <= |s| && r == s[|s| - |r|..]
    ensures r == [] || !IsSpace(r[0])
    ensures forall i :: 0 <= i < |s| - |r| ==> IsSpace(s[i])
  {
    if |s| > 0 && IsSpace(s[0]) then TrimStart(s[1..]) else s
  }

  /** Drops the trailing whitespace. */
  function TrimEnd(s: string): (r: string)
    ensures |r| <= |s| && r == s[..|r|]
    ensures r == [] || !IsSpace(r[|r| - 1])
    ensures forall i :: |r| <= i < |s| ==> IsSpace(s[i])
  {
    if |s| > 0 && IsSpace(s[|s| - 1]) then TrimEnd(s[..|s| - 1]) else s
  }

  /** `s.strip()`: `s` without its leading and trailing whitespace. */
  function Strip(s: string): (r: string)
  {
    TrimEnd(TrimStart(s))
  }

  /** Neither end of `s` is whitespace, so `s.strip()` leaves it alone. */
  predicate IsStripped(s: string) {
    s == [] || (!IsSpace(s[0]) && !IsSpace(s[|s| - 1]))
  }

  lemma StripOfStripped(s: string)
    requires IsStripped(s)
    ensures Strip(s) == s
  {
  }

  /** What `s.strip()` keeps is a block of `s` with whitespace all around it,
      and it no longer begins or ends with whitespace. */
  lemma StripIsMaximalBlock(s: string)
    ensures IsStripped(Strip(s))
    ensures exists a :: OccursAt(s, Strip(s), a)
                         && (forall i :: 0 <= i < a ==> IsSpace(s[i]))
                         && (forall i :: a + |Strip(s)| <= i < |s| ==> IsSpace(s[i]))
  {
    var t := TrimStart(s);
    var r := TrimEnd(t);
    var a := |s| - |t|;
    assert t == s[a..];
    assert r == t[..|r|];
    if r != [] {
      assert r[0] == t[0];
    }
    assert s[a..a + |r|] == r;
    assert OccursAt(s, r, a);
  }
}
