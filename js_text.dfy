/** The part of JavaScript's string library the chat client relies on: `String.prototype.trim`. */
module JsText {

  /** A code unit that `trim` removes: ECMAScript WhiteSpace (TAB, VT, FF, SP, NBSP, ZWNBSP and
      every space separator of category Zs) or LineTerminator (LF, CR, LS, PS). */
  predicate IsTrimmable(c: char)
    ensures IsTrimmable(c) ==> (c as int) < 0x1_0000
    ensures c == ' ' || c == '\t' || c == '\n' || c == '\r' ==> IsTrimmable(c)
  {
    c == '\t' || c == '\U{000B}' || c == '\U{000C}' || c == ' ' || c == '\U{00A0}' || c == '\U{FEFF}'
    || c == '\U{1680}' || ('\U{2000}' <= c <= '\U{200A}') || c == '\U{202F}' || c == '\U{205F}'
    || c == '\U{3000}'
    || c == '\n' || c == '\r' || c == '\U{2028}' || c == '\U{2029}'
  }

  predicate AllTrimmable(s: string) {
    forall i :: 0 <= i < |s| ==> IsTrimmable(s[i])
  }

  /** The length of the longest prefix of `s` that `trim` removes. */
  function Leading(s: string): (k: nat)
    ensures k <= |s|
    ensures AllTrimmable(s[..k])
    ensures k < |s| ==> !IsTrimmable(s[k])
  {
    if s == [] || !IsTrimmable(s[0]) then 0
    else
      var k := 1 + Leading(s[1..]);
      assert s[..k] == [s[0]] + s[1..][..k - 1];
      k
  }

  /** The length of the longest suffix of `s` that `trim` removes. */
  function Trailing(s: string): (k: nat)
    ensures k <= |s|
    ensures AllTrimmable(s[|s| - k..])
    ensures k < |s| ==> !IsTrimmable(s[|s| - 1 - k])
  {
    if s == [] || !IsTrimmable(s[|s| - 1]) then 0
    else
      var init := s[..|s| - 1];
      var k := 1 + Trailing(init);
      assert s[|s| - k..] == init[|init| - (k - 1)..] + [s[|s| - 1]];
      k
  }

  /** `s.trim()`: `s` without its leading and trailing white space. */
  function Trim(s: string): (r: string)
    ensures |r| <= |s|
    ensures r == [] <==> AllTrimmable(s)
    ensures r != [] ==> !IsTrimmable(r[0]) && !IsTrimmable(r[|r| - 1])
  {
    var a := Leading(s);
    var rest := s[a..];
    var r := rest[..|rest| - Trailing(rest)];
    assert r == [] ==> s == s[..a] + rest[|rest| - Trailing(rest)..];
    r
  }

  /** `trim` keeps exactly one contiguous piece of `s`, and what it drops on either side is white space. */
  lemma TrimIsInfix(s: string)
    ensures exists a, b :: 0 <= a <= b <= |s| && Trim(s) == s[a..b]
                           && AllTrimmable(s[..a]) && AllTrimmable(s[b..])
  {
    var a := Leading(s);
    var rest := s[a..];
    var b := a + |rest| - Trailing(rest);
    assert s[b..] == rest[|rest| - Trailing(rest)..];
    assert Trim(s) == s[a..b];
  }

  /** Trimming an already trimmed string changes nothing. */
  lemma TrimIdempotent(s: string)
    ensures Trim(Trim(s)) == Trim(s)
  {
  }
}
