/** The two JavaScript string primitives the crop lookup relies on:
    `String.prototype.trim` and `String.prototype.toLowerCase`. */
module Strings {

  /** The characters `trim` removes: the WhiteSpace and LineTerminator code points of ECMAScript. */
  predicate IsWhitespace(c: char) {
    c == ' ' || c == '\t' || c == '\n' || c == '\r'
    || c == '\U{000B}' || c == '\U{000C}' || c == '\U{00A0}' || c == '\U{1680}'
    || ('\U{2000}' <= c <= '\U{200A}')
    || c == '\U{2028}' || c == '\U{2029}' || c == '\U{202F}' || c == '\U{205F}'
    || c == '\U{3000}' || c == '\U{FEFF}'
  }

  predicate AllWhitespace(s: string) {
    forall i :: 0 <= i < |s| ==> IsWhitespace(s[i])
  }

  /** Drops leading whitespace: the result is the suffix of `s` that starts at its first non-whitespace character. */
  function TrimStart(s: string): (r: string)
    ensures |r| <= |s| && r == s[|s| - |r|..]
    ensures AllWhitespace(s[..|s| - |r|])
    ensures r == [] || !IsWhitespace(r[0])
  {
    if |s| > 0 && IsWhitespace(s[0]) then
      var r := TrimStart(s[1..]);
      assert s[..|s| - |r|] == [s[0]] + s[1..][..|s[1..]| - |r|];
      r
    else
      s
  }

  /** Drops trailing whitespace: the result is the prefix of `s` that ends at its last non-whitespace character. */
  function TrimEnd(s: string): (r: string)
    ensures |r| <= |s| && r == s[..|r|]
    ensures AllWhitespace(s[|r|..])
    ensures r == [] || !IsWhitespace(r[|r| - 1])
  {
    if |s| > 0 && IsWhitespace(s[|s| - 1]) then
      var r := TrimEnd(s[..|s| - 1]);
      assert s[|r|..] == s[..|s| - 1][|r|..] + [s[|s| - 1]];
      r
    else
      s
  }

  /** `r` occurs in `s` at offset `i` with only whitespace before and after it. */
  predicate Padded(s: string, r: string, i: int) {
    && 0 <= i && i + |r| <= |s|
    && s[i..i + |r|] == r
    && AllWhitespace(s[..i]) && AllWhitespace(s[i + |r|..])
  }

  /** `s.trim()`: `s` with its leading and trailing whitespace removed; empty exactly when `s` is all whitespace. */
  function Trim(s: string): (r: string)
    ensures exists i :: Padded(s, r, i)
    ensures r == [] || (!IsWhitespace(r[0]) && !IsWhitespace(r[|r| - 1]))
    ensures r == [] <==> AllWhitespace(s)
  {
    TrimPieces(s, TrimStart(s), TrimEnd(TrimStart(s)));
    TrimEnd(TrimStart(s))
  }

  /** Dropping a whitespace prefix from `s` to get `a`, then a whitespace suffix from `a` to get `r`,
      leaves `r` padded by whitespace in `s`. */
  lemma TrimPieces(s: string, a: string, r: string)
    requires |a| <= |s| && a == s[|s| - |a|..] && AllWhitespace(s[..|s| - |a|])
    requires a == [] || !IsWhitespace(a[0])
    requires |r| <= |a| && r == a[..|r|] && AllWhitespace(a[|r|..])
    requires r == [] || !IsWhitespace(r[|r| - 1])
    ensures Padded(s, r, |s| - |a|)
    ensures r == [] || (!IsWhitespace(r[0]) && !IsWhitespace(r[|r| - 1]))
    ensures r == [] <==> AllWhitespace(s)
  {
    var i := |s| - |a|;
    SliceOfSuffix(s, i, |r|);
    assert r != [] ==> r[0] == a[0];
    BlankWhenPadded(s, r, i);
  }

  /** Padding removed, nothing is left exactly when `s` is all whitespace. */
  lemma BlankWhenPadded(s: string, r: string, i: int)
    requires Padded(s, r, i)
    requires r == [] || !IsWhitespace(r[0])
    ensures r == [] <==> AllWhitespace(s)
  {
    if r == [] {
      BlankConcat(s[..i], s[i..]);
      assert s == s[..i] + s[i..];
    } else {
      assert s[i] == r[0];
    }
  }

  /** Slicing a suffix of `s` is slicing `s` at the shifted offsets. */
  lemma SliceOfSuffix<T>(s: seq<T>, i: nat, n: nat)
    requires i + n <= |s|
    ensures s[i..i + n] == s[i..][..n]
    ensures s[i + n..] == s[i..][n..]
  {
  }

  lemma BlankConcat(x: string, y: string)
    requires AllWhitespace(x) && AllWhitespace(y)
    ensures AllWhitespace(x + y)
  {
  }

  /** `toLowerCase` on one character, for the ASCII letters. */
  function LowerChar(c: char): (r: char)
    ensures 'A' <= c <= 'Z' ==> 'a' <= r <= 'z' && r as int - 'a' as int == c as int - 'A' as int
    ensures !('A' <= c <= 'Z') ==> r == c
  {
    if 'A' <= c <= 'Z' then (c as int + 32) as char else c
  }

  function Lower(s: string): (r: string)
    ensures |r| == |s|
    ensures forall i :: 0 <= i < |s| ==> r[i] == LowerChar(s[i])
  {
    if s == [] then [] else [LowerChar(s[0])] + Lower(s[1..])
  }

  /** Whitespace around a string whose first and last characters are not whitespace is exactly what `trim` removes. */
  lemma TrimPadded(left: string, s: string, right: string)
    requires AllWhitespace(left) && AllWhitespace(right)
    requires |s| > 0 && !IsWhitespace(s[0]) && !IsWhitespace(s[|s| - 1])
    ensures Trim(left + s + right) == s
  {
    var t := left + s + right;
    var a := TrimStart(t);
    assert t[|left|] == s[0];
    assert |t| - |a| == |left|;
    assert a == s + right;
    var b := TrimEnd(a);
    assert a[|s| - 1] == s[|s| - 1];
    assert |b| == |s|;
  }

  /** A whitespace character is left alone by `toLowerCase` and is never a lower-case ASCII letter. */
  lemma WhitespaceIsNotALetter(c: char)
    requires IsWhitespace(c)
    ensures LowerChar(c) == c && !('a' <= c <= 'z')
  {
  }
}
