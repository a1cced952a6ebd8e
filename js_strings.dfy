/** The few JavaScript string operations the core relies on. */
module JsStrings {

  /** The characters String.prototype.trim removes: ECMAScript WhiteSpace and LineTerminator. */
  predicate IsTrimmable(c: char) {
    c == '\t' || c == '\n' || c == '\U{000B}' || c == '\U{000C}' || c == '\r' || c == ' '
    || c == '\U{00A0}' || c == '\U{1680}' || ('\U{2000}' <= c <= '\U{200A}')
    || c == '\U{2028}' || c == '\U{2029}' || c == '\U{202F}' || c == '\U{205F}'
    || c == '\U{3000}' || c == '\U{FEFF}'
  }

  /** Every character of s is removed by trim. */
  ghost predicate AllTrimmable(s: string) {
    forall i :: 0 <= i < |s| ==> IsTrimmable(s[i])
  }

  /** s without its leading trimmable characters. */
  function TrimStart(s: string): (r: string)
    ensures |r| <= |s| && r == s[|s| - |r|..]
    ensures AllTrimmable(s[..|s| - |r|])
    ensures r == [] || !IsTrimmable(r[0])
  {
    if s != [] && IsTrimmable(s[0]) then TrimStart(s[1..]) else s
  }

  /** s without its trailing trimmable characters. */
  function TrimEnd(s: string): (r: string)
    ensures |r| <= |s| && r == s[..|r|]
    ensures AllTrimmable(s[|r|..])
    ensures r == [] || !IsTrimmable(r[|r| - 1])
  {
    if s != [] && IsTrimmable(s[|s| - 1]) then TrimEnd(s[..|s| - 1]) else s
  }

  /** String.prototype.trim. */
  function Trim(s: string): string {
    TrimEnd(TrimStart(s))
  }

  /** `!s.trim()` holds exactly when every character of s is whitespace or a line terminator. */
  lemma TrimEmptyIffAllTrimmable(s: string)
    ensures Trim(s) == [] <==> AllTrimmable(s)
  {
    var t := TrimStart(s);
    var n := |s| - |t|;
    if t == [] {
      assert s[..n] == s;
      assert Trim(s) == [];
    } else {
      assert s[n] == t[0];
      assert !AllTrimmable(s);
      var r := TrimEnd(t);
      assert t[0..] == t && !AllTrimmable(t);
      assert |r| > 0;
    }
  }

  /** t occurs in s at offset i. */
  predicate OccursAt(s: string, t: string, i: int) {
    0 <= i <= |s| - |t| && s[i..i + |t|] == t
  }

  /** String.prototype.includes: t occurs in s at some offset. */
  predicate Contains(s: string, t: string) {
    exists i | 0 <= i <= |s| - |t| :: OccursAt(s, t, i)
  }

  /** A string that lacks the first character of t cannot contain t. */
  lemma NotContainsWithoutFirstChar(s: string, t: string)
    requires t != [] && t[0] !in s
    ensures !Contains(s, t)
  {
    forall i | 0 <= i <= |s| - |t| ensures !OccursAt(s, t, i) {
      assert s[i..i + |t|][0] == s[i];
    }
  }

  function Min(a: int, b: int): int {
    if a <= b then a else b
  }

  /** String.prototype.substring(0, n) for n >= 0. */
  function PrefixUpTo(s: string, n: nat): (r: string)
    ensures |r| == Min(n, |s|) && r == s[..|r|]
  {
    s[..Min(n, |s|)]
  }
}
