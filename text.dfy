/** JavaScript string helpers over `seq<char>`: `String.prototype.trim`,
    which removes white space and line terminators from both ends, and
    `length`, which counts UTF-16 code units. */
module Text {

  /** The characters ECMAScript's `trim` strips: the WhiteSpace and
      LineTerminator productions (tab, line tab, form feed, space, no-break
      space, byte-order mark, the Zs space separators, LF, CR, LS, PS). */
  predicate IsWhitespace(c: char) {
    || c == '\t' || c == '\n' || c == '\U{B}' || c == '\U{C}' || c == '\r' || c == ' '
    || c == '\U{A0}' || c == '\U{1680}' || ('\U{2000}' <= c <= '\U{200A}')
    || c == '\U{2028}' || c == '\U{2029}' || c == '\U{202F}' || c == '\U{205F}'
    || c == '\U{3000}' || c == '\U{FEFF}'
  }

  /** True when every character of `s` is white space (vacuously for ""). */
  predicate Blank(s: string) {
    forall i :: 0 <= i < |s| ==> IsWhitespace(s[i])
  }

  /** `s` with its leading white space removed: a suffix of `s` that does not
      start with white space, and everything cut off is white space. */
  function TrimStart(s: string): (r: string)
    ensures |r| <= |s| && r == s[|s| - |r|..]
    ensures r != "" ==> !IsWhitespace(r[0])
    ensures Blank(s[..|s| - |r|])
  {
    if s != "" && IsWhitespace(s[0]) then TrimStart(s[1..]) else s
  }

  /** `s` with its trailing white space removed: a prefix of `s` that does not
      end with white space, and everything cut off is white space. */
  function TrimEnd(s: string): (r: string)
    ensures |r| <= |s| && r == s[..|r|]
    ensures r != "" ==> !IsWhitespace(r[|r| - 1])
    ensures Blank(s[|r|..])
  {
    if s != "" && IsWhitespace(s[|s| - 1]) then TrimEnd(s[..|s| - 1]) else s
  }

  /** JavaScript's `s.trim()`. */
  function Trim(s: string): (r: string)
  {
    TrimEnd(TrimStart(s))
  }

  /** A prefix `u` of a suffix `t` of `s` is a slice of `s`, and what follows
      `u` in `t` is what follows it in `s`. */
  lemma PrefixOfSuffix(s: string, t: string, u: string)
    requires |t| <= |s| && t == s[|s| - |t|..]
    requires |u| <= |t| && u == t[..|u|]
    ensures u == s[|s| - |t|..|s| - |t| + |u|]
    ensures s[|s| - |t| + |u|..] == t[|u|..]
  {
  }

  /** The trimmed text is the piece `s[i..j]` of `s`, with no white space at
      either end, and only white space was removed around it. */
  lemma TrimIsCore(s: string) returns (i: nat, j: nat)
    ensures i <= j <= |s| && Trim(s) == s[i..j]
    ensures Blank(s[..i]) && Blank(s[j..])
    ensures i < j ==> !IsWhitespace(s[i]) && !IsWhitespace(s[j - 1])
  {
    var t := TrimStart(s);
    var u := TrimEnd(t);
    i := |s| - |t|;
    j := i + |u|;
    PrefixOfSuffix(s, t, u);
  }

  /** Trimming empties a string exactly when it is all white space: the
      condition under which the journal page refuses to submit. */
  lemma TrimEmptyIffBlank(s: string)
    ensures Trim(s) == "" <==> Blank(s)
  {
  }

  /** A string that neither starts nor ends with white space trims to itself. */
  lemma TrimOfSolid(s: string)
    requires s != "" ==> !IsWhitespace(s[0]) && !IsWhitespace(s[|s| - 1])
    ensures Trim(s) == s
  {
  }

  /** Leading white space in front of a text that does not start with white
      space is exactly what `TrimStart` removes. */
  lemma {:induction false} TrimStartPadded(left: string, t: string)
    requires Blank(left) && (t != "" ==> !IsWhitespace(t[0]))
    ensures TrimStart(left + t) == t
  {
    if left != "" {
      assert (left + t)[1..] == left[1..] + t;
      TrimStartPadded(left[1..], t);
    }
  }

  /** Trailing white space after a text that does not end with white space is
      exactly what `TrimEnd` removes. */
  lemma {:induction false} TrimEndPadded(t: string, right: string)
    requires Blank(right) && (t != "" ==> !IsWhitespace(t[|t| - 1]))
    ensures TrimEnd(t + right) == t
  {
    if right != "" {
      assert (t + right)[..|t + right| - 1] == t + right[..|right| - 1];
      TrimEndPadded(t, right[..|right| - 1]);
    }
  }

  /** White space around a non-blank core is removed, and only it. */
  lemma TrimPadded(left: string, core: string, right: string)
    requires Blank(left) && Blank(right) && core != ""
    requires !IsWhitespace(core[0]) && !IsWhitespace(core[|core| - 1])
    ensures Trim(left + core + right) == core
  {
    assert left + core + right == left + (core + right);
    TrimStartPadded(left, core + right);
    TrimEndPadded(core, right);
  }

  /** The number of UTF-16 code units of `c`: two for a character outside the
      Basic Multilingual Plane (a surrogate pair), one otherwise. */
  function Utf16Units(c: char): nat {
    if c > '\U{FFFF}' then 2 else 1
  }

  /** JavaScript's `s.length`: the number of UTF-16 code units. It lies
      between the number of characters and twice that. */
  function Utf16Length(s: string): (n: nat)
    ensures |s| <= n <= 2 * |s|
    ensures s == "" <==> n == 0
  {
    if s == [] then 0 else Utf16Units(s[0]) + Utf16Length(s[1..])
  }

  /** A text made only of characters in the Basic Multilingual Plane has as
      many code units as characters. */
  lemma {:induction false} Utf16LengthOfBmp(s: string)
    requires forall i :: 0 <= i < |s| ==> s[i] <= '\U{FFFF}'
    ensures Utf16Length(s) == |s|
  {
    if s != [] {
      Utf16LengthOfBmp(s[1..]);
    }
  }

  /** A text made only of characters outside the Basic Multilingual Plane
      (most emoji) has twice as many code units as characters. */
  lemma {:induction false} Utf16LengthOfAstral(s: string)
    requires forall i :: 0 <= i < |s| ==> s[i] > '\U{FFFF}'
    ensures Utf16Length(s) == 2 * |s|
  {
    if s != [] {
      Utf16LengthOfAstral(s[1..]);
    }
  }
}
