/** The three JavaScript string operations the study search relies on:
    String.prototype.toLowerCase, String.prototype.trim and
    String.prototype.includes. Strings are sequences of Unicode scalar values.
    Lower-casing is modelled for the ASCII letters only; the white-space set
    used by trim is the whole ECMAScript WhiteSpace and LineTerminator set. */
module JsString {

  /** An ASCII capital letter, 'A' to 'Z'. */
  predicate IsAsciiUpper(c: char) {
    'A' <= c <= 'Z'
  }

  /** toLowerCase on one character: an ASCII capital becomes its small
      letter, every other character is left alone. */
  function ToLowerChar(c: char): (r: char)
    ensures !IsAsciiUpper(r)
    ensures IsAsciiUpper(c) ==> 'a' <= r <= 'z' && r as int - c as int == 'a' as int - 'A' as int
    ensures !IsAsciiUpper(c) ==> r == c
  {
    if IsAsciiUpper(c) then (c as int - 'A' as int + 'a' as int) as char else c
  }

  /** String.prototype.toLowerCase, character by character: every capital
      becomes its small letter, every other character is kept in place. */
  function ToLower(s: string): (r: string)
    ensures |r| == |s| && IsLowerCase(r)
    ensures forall i :: 0 <= i < |s| && IsAsciiUpper(s[i]) ==> r[i] as int == s[i] as int + ('a' as int - 'A' as int)
    ensures forall i :: 0 <= i < |s| && !IsAsciiUpper(s[i]) ==> r[i] == s[i]
  {
    seq(|s|, i requires 0 <= i < |s| => ToLowerChar(s[i]))
  }

  /** A lower-cased string has no capital letters left. */
  predicate IsLowerCase(s: string) {
    forall i :: 0 <= i < |s| ==> !IsAsciiUpper(s[i])
  }

  /** Lower-casing twice is lower-casing once. */
  lemma ToLowerIdempotent(s: string)
    ensures ToLower(ToLower(s)) == ToLower(s)
  {
  }

  /** ECMAScript's WhiteSpace (TAB, VT, FF, ZWNBSP and every Zs space
      separator) and LineTerminator (LF, CR, LS, PS) characters: the ones
      trim removes. */
  predicate IsWhitespace(c: char) {
    || c == '\t' || c == '\n' || c == '\U{000B}' || c == '\U{000C}' || c == '\r'
    || c == ' ' || c == '\U{00A0}' || c == '\U{1680}'
    || ('\U{2000}' <= c <= '\U{200A}')
    || c == '\U{2028}' || c == '\U{2029}' || c == '\U{202F}' || c == '\U{205F}'
    || c == '\U{3000}' || c == '\U{FEFF}'
  }

  predicate AllWhitespace(s: string) {
    forall i :: 0 <= i < |s| ==> IsWhitespace(s[i])
  }

  /** Lower-casing never turns a white-space character into another kind of
      character, nor the reverse. */
  lemma ToLowerKeepsWhitespace(s: string)
    ensures AllWhitespace(ToLower(s)) <==> AllWhitespace(s)
  {
    forall i | 0 <= i < |s|
      ensures IsWhitespace(ToLower(s)[i]) <==> IsWhitespace(s[i])
    {
      assert ToLower(s)[i] == ToLowerChar(s[i]);
    }
  }

  /** The leading-white-space half of trim: the longest suffix of s that does
      not start with white space. */
  function TrimStart(s: string): (r: string)
    ensures |r| <= |s| && r == s[|s| - |r|..]
    ensures AllWhitespace(s[..|s| - |r|])
    ensures r != [] ==> !IsWhitespace(r[0])
  {
    if s != [] && IsWhitespace(s[0]) then
      var r := TrimStart(s[1..]);
      assert s[..|s| - |r|] == [s[0]] + s[1..][..|s| - 1 - |r|];
      r
    else s
  }

  /** The trailing-white-space half of trim: the longest prefix of s that
      does not end with white space. */
  function TrimEnd(s: string): (r: string)
    ensures |r| <= |s| && r == s[..|r|]
    ensures AllWhitespace(s[|r|..])
    ensures r != [] ==> !IsWhitespace(r[|r| - 1])
  {
    if s != [] && IsWhitespace(s[|s| - 1]) then TrimEnd(s[..|s| - 1]) else s
  }

  /** String.prototype.trim: white space removed from both ends, leaving a
      middle slice of s with only white space on either side. The result
      is empty exactly when the string is all white space (the empty string
      included); otherwise it starts and ends with a character that is not
      white space. */
  function Trim(s: string): (r: string)
    ensures |r| <= |s|
    ensures exists a :: 0 <= a <= |s| - |r| && r == s[a..a + |r|] && AllWhitespace(s[..a]) && AllWhitespace(s[a + |r|..])
    ensures r == [] <==> AllWhitespace(s)
    ensures r != [] ==> !IsWhitespace(r[0]) && !IsWhitespace(r[|r| - 1])
  {
    var t := TrimStart(s);
    assert t == [] ==> s[..|s|] == s;
    assert t != [] ==> !IsWhitespace(s[|s| - |t|]);
    var r := TrimEnd(t);
    assert r == s[|s| - |t|..|s| - |t| + |r|];
    assert s[|s| - |t| + |r|..] == t[|r|..];
    r
  }

  /** The characters of search from position k on equal those of s from
      position i + k on. */
  predicate AgreesFrom(s: string, search: string, i: nat, k: nat)
    requires i + |search| <= |s| && k <= |search|
    decreases |search| - k
  {
    k == |search| || (s[i + k] == search[k] && AgreesFrom(s, search, i, k + 1))
  }

  /** search occurs in s at some position i or later, positions tried from
      the left, as String.prototype.indexOf scans. */
  predicate IncludesFrom(s: string, search: string, i: nat)
    decreases |s| - i
  {
    i + |search| <= |s| && (AgreesFrom(s, search, i, 0) || IncludesFrom(s, search, i + 1))
  }

  /** String.prototype.includes with no start position: true exactly when
      search occurs in s as a contiguous substring, the empty search
      included. */
  function Includes(s: string, search: string): (b: bool)
    ensures b <==> IsSubstring(search, s)
  {
    IncludesFromIffOccurs(s, search, 0);
    IncludesFrom(s, search, 0)
  }

  /** search occurs in s starting at index i. */
  ghost predicate OccursAt(s: string, search: string, i: nat) {
    i + |search| <= |s| && s[i..i + |search|] == search
  }

  /** The reference reading of "s contains search as a substring". */
  ghost predicate IsSubstring(search: string, s: string) {
    exists i: nat :: OccursAt(s, search, i)
  }

  /** Comparing character by character is comparing the slices. */
  lemma {:induction false} AgreesFromIffSlice(s: string, search: string, i: nat, k: nat)
    requires i + |search| <= |s| && k <= |search|
    ensures AgreesFrom(s, search, i, k) <==> s[i + k..i + |search|] == search[k..]
    decreases |search| - k
  {
    if k < |search| {
      AgreesFromIffSlice(s, search, i, k + 1);
      assert s[i + k..i + |search|] == [s[i + k]] + s[i + k + 1..i + |search|];
      assert search[k..] == [search[k]] + search[k + 1..];
    }
  }

  /** The scan from position i finds search exactly when it occurs at i or later. */
  lemma {:induction false} IncludesFromIffOccurs(s: string, search: string, i: nat)
    ensures IncludesFrom(s, search, i) <==> exists j: nat :: i <= j && OccursAt(s, search, j)
    decreases |s| - i
  {
    if i + |search| <= |s| {
      AgreesFromIffSlice(s, search, i, 0);
      IncludesFromIffOccurs(s, search, i + 1);
      if AgreesFrom(s, search, i, 0) {
        assert OccursAt(s, search, i);
      }
      if exists j: nat :: i <= j && OccursAt(s, search, j) {
        var j: nat :| i <= j && OccursAt(s, search, j);
        if j == i {
          assert AgreesFrom(s, search, i, 0);
        } else {
          assert i + 1 <= j;
        }
      }
    }
  }

  /** A string that lacks one of the characters of search does not include search. */
  lemma MissingCharNotIncluded(s: string, search: string, k: nat)
    requires k < |search|
    requires forall j :: 0 <= j < |s| ==> s[j] != search[k]
    ensures !Includes(s, search)
  {
    forall i: nat | i + |search| <= |s|
      ensures !OccursAt(s, search, i)
    {
      assert s[i..i + |search|][k] == s[i + k];
    }
  }

  /** A string in which two adjacent characters of search never stand side
      by side does not include search. */
  lemma MissingPairNotIncluded(s: string, search: string, k: nat)
    requires k + 1 < |search|
    requires forall j :: 0 <= j < |s| - 1 ==> !(s[j] == search[k] && s[j + 1] == search[k + 1])
    ensures !Includes(s, search)
  {
    forall i: nat | i + |search| <= |s|
      ensures !OccursAt(s, search, i)
    {
      assert !(s[i + k] == search[k] && s[i + k + 1] == search[k + 1]);
      assert s[i..i + |search|][k] == s[i + k] && s[i..i + |search|][k + 1] == s[i + k + 1];
    }
  }
}
