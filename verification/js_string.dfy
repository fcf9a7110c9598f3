/** The part of JavaScript's String.prototype.trim the parsers rely on. */
module JsString {

  /** WhiteSpace and LineTerminator code points of ECMAScript: what `trim` strips and what
      `Number(...)` ignores around a numeric literal. */
  predicate IsJsWhitespace(c: char) {
    c == '\t' || c == '\U{000B}' || c == '\U{000C}' || c == ' ' || c == '\U{00A0}' ||
    c == '\U{FEFF}' || c == '\U{1680}' || ('\U{2000}' <= c <= '\U{200A}') ||
    c == '\U{202F}' || c == '\U{205F}' || c == '\U{3000}' ||
    c == '\n' || c == '\r' || c == '\U{2028}' || c == '\U{2029}'
  }

  predicate NoWhitespace(s: string) {
    forall i :: 0 <= i < |s| ==> !IsJsWhitespace(s[i])
  }

  predicate AllWhitespace(s: string) {
    forall i :: 0 <= i < |s| ==> IsJsWhitespace(s[i])
  }

  /** `s` with only whitespace cut from its two ends: `t` is the slice `s[i..j]`, and everything
      before `i` and from `j` on is whitespace. */
  ghost predicate IsTrimmedSlice(s: string, t: string) {
    exists i, j :: 0 <= i <= j <= |s| && t == s[i..j] && AllWhitespace(s[..i]) && AllWhitespace(s[j..])
  }

  /** Drops leading whitespace; what is left starts with a non-whitespace character. */
  function TrimStart(s: string): (t: string)
    ensures |t| <= |s|
    ensures t == [] || !IsJsWhitespace(t[0])
  {
    if s != [] && IsJsWhitespace(s[0]) then TrimStart(s[1..]) else s
  }

  /** Drops trailing whitespace; what is left ends with a non-whitespace character. */
  function TrimEnd(s: string): (t: string)
    ensures |t| <= |s| && (t != [] ==> t[0] == s[0])
    ensures t == [] || !IsJsWhitespace(t[|t| - 1])
  {
    if s != [] && IsJsWhitespace(s[|s| - 1]) then TrimEnd(s[..|s| - 1]) else s
  }

  /** What `TrimStart` drops is a whitespace prefix: the result is a suffix of `s`. */
  lemma {:induction false} TrimStartIsSuffix(s: string)
    ensures var i := |s| - |TrimStart(s)|; TrimStart(s) == s[i..] && AllWhitespace(s[..i])
  {
    if s != [] && IsJsWhitespace(s[0]) {
      TrimStartIsSuffix(s[1..]);
      var i := |s| - |TrimStart(s)|;
      assert s[1..][i - 1..] == s[i..];
      assert s[..i] == [s[0]] + s[1..][..i - 1];
    }
  }

  /** What `TrimEnd` drops is a whitespace suffix: the result is a prefix of `s`. */
  lemma {:induction false} TrimEndIsPrefix(s: string)
    ensures var j := |TrimEnd(s)|; TrimEnd(s) == s[..j] && AllWhitespace(s[j..])
  {
    if s != [] && IsJsWhitespace(s[|s| - 1]) {
      var p := s[..|s| - 1];
      TrimEndIsPrefix(p);
      var j := |TrimEnd(s)|;
      assert p[..j] == s[..j];
      assert s[j..] == p[j..] + [s[|s| - 1]];
    }
  }

  /** `s.trim()`: the slice of `s` left once whitespace is removed from both ends. */
  function Trim(s: string): (t: string)
    ensures |t| <= |s|
    ensures t == [] || (!IsJsWhitespace(t[0]) && !IsJsWhitespace(t[|t| - 1]))
  {
    TrimEnd(TrimStart(s))
  }

  /** `trim` removes whitespace from the two ends of `s` and nothing else: the result is a slice
      of `s` with only whitespace around it (and, by `Trim`'s contract, none left at its ends). */
  lemma TrimIsSlice(s: string)
    ensures IsTrimmedSlice(s, Trim(s))
  {
    TrimStartIsSuffix(s);
    var i := |s| - |TrimStart(s)|;
    TrimEndIsPrefix(s[i..]);
    var j := |Trim(s)|;
    assert Trim(s) == s[i..i + j] by {
      assert s[i..][..j] == s[i..i + j];
    }
    assert AllWhitespace(s[i + j..]) by {
      assert s[i..][j..] == s[i + j..];
    }
  }

  /** Trimming a string with no whitespace in it changes nothing. */
  lemma {:induction false} TrimNoWhitespace(s: string)
    requires NoWhitespace(s)
    ensures Trim(s) == s
  {
  }

  /** Trimming is idempotent. */
  lemma TrimIdempotent(s: string)
    ensures Trim(Trim(s)) == Trim(s)
  {
  }
}
