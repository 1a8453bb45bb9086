/**
 * `strings.TrimSpace`, which `NewInputFromFile` applies to the session file
 * (input.go, line 29): it removes every leading and trailing character that
 * `unicode.IsSpace` accepts and keeps the inside of the string as it is.
 */
module Trim {

  /** `unicode.IsSpace`: the Latin-1 spaces and the rest of Unicode's White_Space property. */
  predicate IsSpace(c: char) {
    || c == '\t' || c == '\n' || c == '\U{000B}' || c == '\U{000C}' || c == '\r' || c == ' '
    || c == '\U{0085}' || c == '\U{00A0}' || c == '\U{1680}'
    || ('\U{2000}' <= c <= '\U{200A}')
    || c == '\U{2028}' || c == '\U{2029}' || c == '\U{202F}' || c == '\U{205F}' || c == '\U{3000}'
  }

  predicate SpaceOnly(s: string) { forall k :: 0 <= k < |s| ==> IsSpace(s[k]) }

  /** Nothing left to trim: the string is empty or starts and ends with a non-space. */
  predicate Trimmed(s: string) { s == [] || (!IsSpace(s[0]) && !IsSpace(s[|s| - 1])) }

  /** The number of space characters `s` starts with. */
  function LeadingSpaces(s: string): (n: nat)
    ensures n <= |s| && SpaceOnly(s[..n])
    ensures n < |s| ==> !IsSpace(s[n])
    decreases |s|
  {
    if s != [] && IsSpace(s[0]) then
      var n := 1 + LeadingSpaces(s[1..]);
      assert s[..n] == [s[0]] + s[1..][..n - 1];
      n
    else 0
  }

  /** The number of space characters `s` ends with. */
  function TrailingSpaces(s: string): (n: nat)
    ensures n <= |s| && forall k :: |s| - n <= k < |s| ==> IsSpace(s[k])
    ensures n < |s| ==> !IsSpace(s[|s| - 1 - n])
    decreases |s|
  {
    if s != [] && IsSpace(s[|s| - 1]) then
      var init := s[..|s| - 1];
      var m := TrailingSpaces(init);
      assert forall k :: |s| - 1 - m <= k < |s| - 1 ==> s[k] == init[k];
      m + 1
    else 0
  }

  /** `strings.TrimSpace(s)`. */
  function TrimSpace(s: string): (r: string)
    ensures |r| <= |s| && Trimmed(r)
    ensures r == [] <==> SpaceOnly(s)
  {
    var i := LeadingSpaces(s);
    var t := s[i..];
    var r := t[..|t| - TrailingSpaces(t)];
    assert r == [] ==> s == s[..i] + t[|t| - TrailingSpaces(t)..];
    assert r != [] ==> r[0] == s[i];
    r
  }

  /** The trimmed string is a slice of the original whose cut-off ends are all spaces. */
  lemma TrimSpaceSlice(s: string) returns (i: nat, j: nat)
    ensures i <= j <= |s| && TrimSpace(s) == s[i..j]
    ensures SpaceOnly(s[..i]) && SpaceOnly(s[j..])
  {
    i := LeadingSpaces(s);
    var t := s[i..];
    j := i + |t| - TrailingSpaces(t);
    assert s[j..] == t[|t| - TrailingSpaces(t)..];
  }

  /** Any split of `s` into spaces, a trimmed middle and spaces has that middle as its `TrimSpace`. */
  lemma TrimSpaceUnique(s: string, i: nat, j: nat)
    requires i <= j <= |s| && SpaceOnly(s[..i]) && SpaceOnly(s[j..]) && Trimmed(s[i..j])
    ensures TrimSpace(s) == s[i..j]
  {
  }

  /** Trimming twice is trimming once. */
  lemma TrimSpaceIdempotent(s: string)
    ensures TrimSpace(TrimSpace(s)) == TrimSpace(s)
  {
  }

  /** A session file holding `"abc123\n"` yields the session ID `"abc123"`. */
  lemma TrimSpaceDropsNewline()
    ensures TrimSpace("abc123\n") == "abc123"
  {
  }
}
