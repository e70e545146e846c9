/** The whitespace test and `String.prototype.trim` of ECMAScript, which the
    controller uses to reject blank submissions. */
module Whitespace {

  /** ECMAScript WhiteSpace and LineTerminator code points: the characters `trim` removes. */
  predicate IsWhitespace(c: char) {
    || c == '\t' || c == '\n' || c == '\U{000B}' || c == '\U{000C}' || c == '\r'
    || c == ' ' || c == '\U{00A0}' || c == '\U{1680}'
    || ('\U{2000}' <= c <= '\U{200A}')
    || c == '\U{2028}' || c == '\U{2029}' || c == '\U{202F}' || c == '\U{205F}'
    || c == '\U{3000}' || c == '\U{FEFF}'
  }

  /** Reference definition: every character of `s` is whitespace (vacuously so for ""). */
  predicate Blank(s: string) {
    forall i | 0 <= i < |s| :: IsWhitespace(s[i])
  }

  /** Drops leading whitespace: the result is a suffix of `s`, what was dropped is
      blank, and the result does not start with whitespace. */
  function TrimStart(s: string): (r: string)
    ensures |r| <= |s| && r == s[|s| - |r|..]
    ensures Blank(s[..|s| - |r|])
    ensures r == [] || !IsWhitespace(r[0])
  {
    if |s| > 0 && IsWhitespace(s[0]) then
      var r := TrimStart(s[1..]);
      assert s[1..][..|s| - 1 - |r|] == s[1..|s| - |r|];
      r
    else
      s
  }

  /** Drops trailing whitespace: the result is a prefix of `s`, what was dropped is
      blank, and the result does not end with whitespace. */
  function TrimEnd(s: string): (r: string)
    ensures |r| <= |s| && r == s[..|r|]
    ensures Blank(s[|r|..])
    ensures r == [] || !IsWhitespace(r[|r| - 1])
  {
    if |s| > 0 && IsWhitespace(s[|s| - 1]) then
      var init := s[..|s| - 1];
      var r := TrimEnd(init);
      assert init[..|r|] == s[..|r|];
      assert s[|r|..] == init[|r|..] + [s[|s| - 1]];
      assert forall i | |r| <= i < |s| - 1 :: s[i] == init[|r|..][i - |r|];
      r
    else
      s
  }

  /** `r` is the part of `s` that starts at `k`, with only whitespace before and after it. */
  predicate IsBlankFramed(s: string, r: string, k: int) {
    && 0 <= k <= |s| - |r|
    && r == s[k..k + |r|]
    && Blank(s[..k])
    && Blank(s[k + |r|..])
  }

  /** `s.trim()`: the slice of `s` between a blank prefix and a blank suffix that
      neither starts nor ends with whitespace. */
  function Trim(s: string): (r: string)
    ensures |r| <= |s|
    ensures exists k :: IsBlankFramed(s, r, k)
    ensures r != [] ==> !IsWhitespace(r[0]) && !IsWhitespace(r[|r| - 1])
  {
    var a := TrimStart(s);
    var r := TrimEnd(a);
    FramedByTrims(s, a, r);
    r
  }

  /** Dropping a blank prefix and then a blank suffix leaves a blank-framed slice. */
  lemma FramedByTrims(s: string, a: string, r: string)
    requires |a| <= |s| && a == s[|s| - |a|..] && Blank(s[..|s| - |a|])
    requires |r| <= |a| && r == a[..|r|] && Blank(a[|r|..])
    ensures IsBlankFramed(s, r, |s| - |a|)
  {
    var k := |s| - |a|;
    assert s[k + |r|..] == a[|r|..];
  }

  /** A string trims to "" exactly when it is blank: the guard `!text.trim()`
      agrees with the reference definition in both directions. */
  lemma TrimEmptyIffBlank(s: string)
    ensures Trim(s) == [] <==> Blank(s)
  { }
}
