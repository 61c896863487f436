/**
  The test on the industry name that enables the start button: the name with
  leading and trailing white space removed, as JavaScript's String trim does
  it, must not be empty (src/App.jsx:110-112, 169).
 */
module Names {

  /** The characters ECMAScript counts as WhiteSpace or LineTerminator. */
  predicate IsWhitespace(c: char)
  {
    || c == '\t' || c == '\U{000B}' || c == '\U{000C}' || c == ' ' || c == '\U{00A0}' || c == '\U{FEFF}'
    || c == '\n' || c == '\r' || c == '\U{2028}' || c == '\U{2029}'
    || c == '\U{1680}' || ('\U{2000}' <= c <= '\U{200A}') || c == '\U{202F}' || c == '\U{205F}' || c == '\U{3000}'
  }

  /** The name holds at least one character that is not white space. */
  predicate HasContent(name: string)
  {
    exists i :: 0 <= i < |name| && !IsWhitespace(name[i])
  }

  /** `s` without its leading white space: a suffix of `s` that is empty or starts with a visible character. */
  function TrimStart(s: string): (r: string)
    ensures |r| <= |s| && r == s[|s| - |r|..]
    ensures forall i :: 0 <= i < |s| - |r| ==> IsWhitespace(s[i])
    ensures r != [] ==> !IsWhitespace(r[0])
  {
    if s != [] && IsWhitespace(s[0]) then TrimStart(s[1..]) else s
  }

  /** `s` without its trailing white space: a prefix of `s` that is empty or ends with a visible character. */
  function TrimEnd(s: string): (r: string)
    ensures |r| <= |s| && r == s[..|r|]
    ensures forall i :: |r| <= i < |s| ==> IsWhitespace(s[i])
    ensures r != [] ==> !IsWhitespace(r[|r| - 1])
  {
    if s != [] && IsWhitespace(s[|s| - 1]) then TrimEnd(s[..|s| - 1]) else s
  }

  /**
    `s` without white space at either end: a contiguous part of `s` that is
    empty or starts and ends with a visible character, all of `s` outside it
    being white space.
   */
  function Trim(s: string): (r: string)
    ensures |TrimStart(s)| >= |r| && r == s[|s| - |TrimStart(s)|..|s| - |TrimStart(s)| + |r|]
    ensures forall i :: 0 <= i < |s| - |TrimStart(s)| ==> IsWhitespace(s[i])
    ensures forall i :: |s| - |TrimStart(s)| + |r| <= i < |s| ==> IsWhitespace(s[i])
    ensures r != [] ==> !IsWhitespace(r[0]) && !IsWhitespace(r[|r| - 1])
  {
    var t := TrimStart(s);
    var r := TrimEnd(t);
    TailWhitespace(s, t, |r|);
    r
  }

  /** White space at the end of a suffix `t` of `s` is white space at the end of `s`. */
  lemma TailWhitespace(s: string, t: string, n: nat)
    requires |t| <= |s| && t == s[|s| - |t|..] && n <= |t|
    requires forall i :: n <= i < |t| ==> IsWhitespace(t[i])
    ensures t[..n] == s[|s| - |t|..|s| - |t| + n]
    ensures forall i :: |s| - |t| + n <= i < |s| ==> IsWhitespace(s[i])
  {
    var k := |s| - |t|;
    forall i | k + n <= i < |s| ensures IsWhitespace(s[i]) {
      assert s[i] == t[i - k];
    }
  }

  /** The trimmed name is non-empty exactly when the name has a visible character. */
  lemma TrimNonEmptyIff(s: string)
    ensures Trim(s) != [] <==> HasContent(s)
  {
  }
}
