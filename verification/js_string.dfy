/** The part of JavaScript's string library the chat widget relies on:
    `String.prototype.trim`, which strips white space and line terminators
    from both ends (section 22.1.3.32 of ECMA-262). */
module JsString {

  /** A code point in the WhiteSpace or LineTerminator classes of ECMA-262
      (section 12.2 and 12.3), which is what `trim` removes. */
  predicate IsWhitespace(c: char) {
    var n := c as int;
    || n == 0x09 || n == 0x0A || n == 0x0B || n == 0x0C || n == 0x0D
    || n == 0x20 || n == 0xA0 || n == 0x1680 || (0x2000 <= n <= 0x200A)
    || n == 0x2028 || n == 0x2029 || n == 0x202F || n == 0x205F
    || n == 0x3000 || n == 0xFEFF
  }

  /** Drops the leading white space: the result is a suffix of `s` that starts with
      a non-white character (or is empty), and everything dropped was white. */
  function TrimStart(s: string): (r: string)
    ensures |r| <= |s| && r == s[|s| - |r|..]
    ensures forall i :: 0 <= i < |s| - |r| ==> IsWhitespace(s[i])
    ensures r == [] || !IsWhitespace(r[0])
  {
    if s == [] || !IsWhitespace(s[0]) then s else TrimStart(s[1..])
  }

  /** Drops the trailing white space: the result is a prefix of `s` that ends with
      a non-white character (or is empty), and everything dropped was white. */
  function TrimEnd(s: string): (r: string)
    ensures |r| <= |s| && r == s[..|r|]
    ensures forall i :: |r| <= i < |s| ==> IsWhitespace(s[i])
    ensures r == [] || !IsWhitespace(r[|r| - 1])
  {
    if s == [] || !IsWhitespace(s[|s| - 1]) then s else TrimEnd(s[..|s| - 1])
  }

  /** `s.trim()`: the contiguous slice of `s` left once the white space at both
      ends is cut off; it has no white space at either end. */
  function Trim(s: string): (r: string)
    ensures |r| <= |s|
    ensures r == [] || (!IsWhitespace(r[0]) && !IsWhitespace(r[|r| - 1]))
    ensures exists i, j :: 0 <= i <= j <= |s| && r == s[i..j]
              && (forall k :: 0 <= k < i ==> IsWhitespace(s[k]))
              && (forall k :: j <= k < |s| ==> IsWhitespace(s[k]))
  {
    var t := TrimStart(s);
    TrimIsSlice(s, t, TrimEnd(t));
    TrimEnd(t)
  }

  /** A prefix `r` of a suffix `t` of `s`, followed in `t` only by white space, is
      the slice of `s` between the two cuts, and what follows it in `s` is white
      space. */
  lemma TrimIsSlice(s: string, t: string, r: string)
    requires |t| <= |s| && t == s[|s| - |t|..]
    requires |r| <= |t| && r == t[..|r|]
    requires forall k :: |r| <= k < |t| ==> IsWhitespace(t[k])
    ensures |s| - |t| + |r| <= |s|
    ensures r == s[|s| - |t|..|s| - |t| + |r|]
    ensures forall k :: |s| - |t| + |r| <= k < |s| ==> IsWhitespace(s[k])
  {
    var i := |s| - |t|;
    assert t == s[i..];
    forall k | 0 <= k < |r|
      ensures r[k] == s[i..i + |r|][k]
    {
      assert r[k] == t[k] == s[i + k];
    }
    forall k | i + |r| <= k < |s|
      ensures IsWhitespace(s[k])
    {
      assert s[k] == t[k - i];
    }
  }

  /** `!s.trim()`: the trimmed string is empty, which happens exactly when every
      character of `s` is white space. */
  predicate IsBlank(s: string): (b: bool)
    ensures b <==> forall i :: 0 <= i < |s| ==> IsWhitespace(s[i])
  {
    Trim(s) == ""
  }
}
