/** The string operations of JavaScript that the streaming path uses: `startsWith`, `includes` and `trim`. */
module JsStrings {

  /** WhiteSpace and LineTerminator code points of ECMAScript: what `String.prototype.trim` removes. */
  predicate IsJsWhitespace(c: char)
  {
    || c in {'\t', '\n', '\U{000B}', '\U{000C}', '\r', ' ', '\U{00A0}', '\U{1680}', '\U{FEFF}'}
    || ('\U{2000}' <= c <= '\U{200A}')
    || c in {'\U{2028}', '\U{2029}', '\U{202F}', '\U{205F}', '\U{3000}'}
  }

  /** `s.startsWith(prefix)`. */
  predicate StartsWith(s: string, prefix: string)
  {
    |prefix| <= |s| && s[..|prefix|] == prefix
  }

  /** `s.includes(t)`: `t` occurs in `s` at some position. */
  predicate Contains(s: string, t: string)
    decreases |s|
  {
    StartsWith(s, t) || (s != [] && Contains(s[1..], t))
  }

  /** The number of whitespace characters `s` starts with. */
  function LeadingWhitespace(s: string): (n: nat)
    ensures n <= |s|
    ensures forall i :: 0 <= i < n ==> IsJsWhitespace(s[i])
    ensures n < |s| ==> !IsJsWhitespace(s[n])
    decreases |s|
  {
    if s == [] || !IsJsWhitespace(s[0]) then 0 else 1 + LeadingWhitespace(s[1..])
  }

  /** The number of whitespace characters `s` ends with. */
  function TrailingWhitespace(s: string): (n: nat)
    ensures n <= |s|
    ensures forall i :: |s| - n <= i < |s| ==> IsJsWhitespace(s[i])
    ensures n < |s| ==> !IsJsWhitespace(s[|s| - n - 1])
    decreases |s|
  {
    if s == [] || !IsJsWhitespace(s[|s| - 1]) then 0 else 1 + TrailingWhitespace(s[..|s| - 1])
  }

  /** `r` sits in `s` at position `a`, with only whitespace before and after it. */
  predicate PaddedAt(s: string, r: string, a: int)
  {
    && 0 <= a <= |s| - |r|
    && s[a..a + |r|] == r
    && (forall i :: 0 <= i < a ==> IsJsWhitespace(s[i]))
    && (forall i :: a + |r| <= i < |s| ==> IsJsWhitespace(s[i]))
  }

  /**
   * `s.trim()`: the part of `s` left after removing whitespace at both ends. What is
   * removed is whitespace only, and what is left neither starts nor ends with whitespace.
   */
  function Trim(s: string): (r: string)
    ensures exists a :: PaddedAt(s, r, a)
    ensures r == [] || (!IsJsWhitespace(r[0]) && !IsJsWhitespace(r[|r| - 1]))
  {
    var a := LeadingWhitespace(s);
    if a == |s| then
      assert PaddedAt(s, [], |s|);
      []
    else
      var b := TrailingWhitespace(s);
      assert a < |s| - b;
      assert PaddedAt(s, s[a..|s| - b], a);
      s[a..|s| - b]
  }

  /** Trimming text padded with whitespace on both sides gives back the text. */
  lemma {:induction false} TrimPadded(left: string, text: string, right: string)
    requires forall i :: 0 <= i < |left| ==> IsJsWhitespace(left[i])
    requires forall i :: 0 <= i < |right| ==> IsJsWhitespace(right[i])
    requires text != [] && !IsJsWhitespace(text[0]) && !IsJsWhitespace(text[|text| - 1])
    ensures Trim(left + text + right) == text
  {
    var s := left + text + right;
    var a := LeadingWhitespace(s);
    var b := TrailingWhitespace(s);
    assert forall i :: 0 <= i < |left| ==> s[i] == left[i];
    assert s[|left|] == text[0];
    assert a == |left|;
    assert forall i :: 0 <= i < |right| ==> s[|left| + |text| + i] == right[i];
    assert s[|s| - |right| - 1] == text[|text| - 1];
    assert b == |right|;
    assert s[a..|s| - b] == text;
  }
}
