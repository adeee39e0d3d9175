/** ASCII approximations of the string operations the buildpack relies on:
    Unicode whitespace (as used by `str::trim` and the regex class `\S`),
    `to_lowercase`, and `Path::join` on directory strings. */
module Text {

  /** ASCII white space: space, tab, line feed, vertical tab, form feed, carriage return. */
  predicate IsWhitespace(c: char) {
    c == ' ' || c == '\t' || c == '\n' || c == '\r' || c as int == 11 || c as int == 12
  }

  predicate IsUpper(c: char) {
    'A' <= c <= 'Z'
  }

  /** Lower-cases one ASCII letter and leaves every other character alone. */
  function LowerChar(c: char): (d: char)
    ensures IsUpper(c) ==> d as int == c as int + 32
    ensures !IsUpper(c) ==> d == c
    ensures !IsUpper(d)
    ensures IsWhitespace(d) <==> IsWhitespace(c)
  {
    if IsUpper(c) then (c as int + 32) as char else c
  }

  function ToLower(s: string): (r: string)
    ensures |r| == |s|
    ensures forall i :: 0 <= i < |s| ==> r[i] == LowerChar(s[i])
  {
    seq(|s|, i requires 0 <= i < |s| => LowerChar(s[i]))
  }

  /** Lower-casing a string that is already lower case changes nothing. */
  lemma ToLowerIdempotent(s: string)
    ensures ToLower(ToLower(s)) == ToLower(s)
  {
  }

  /** A string with no upper-case letter is its own lower-case form. */
  lemma ToLowerOfLower(s: string)
    requires forall i :: 0 <= i < |s| ==> !IsUpper(s[i])
    ensures ToLower(s) == s
  {
  }

  /** Drops leading white space. */
  function TrimStart(s: string): (r: string)
    ensures |r| <= |s| && r == s[|s| - |r|..]
    ensures r == [] || !IsWhitespace(r[0])
    ensures forall i :: 0 <= i < |s| - |r| ==> IsWhitespace(s[i])
  {
    if s != [] && IsWhitespace(s[0]) then TrimStart(s[1..]) else s
  }

  /** Drops trailing white space. */
  function TrimEnd(s: string): (r: string)
    ensures |r| <= |s| && r == s[..|r|]
    ensures r == [] || !IsWhitespace(r[|r| - 1])
    ensures forall i :: |r| <= i < |s| ==> IsWhitespace(s[i])
  {
    if s != [] && IsWhitespace(s[|s| - 1]) then TrimEnd(s[..|s| - 1]) else s
  }

  /** `str::trim`: the string without its leading and trailing white space. */
  function Trim(s: string): (r: string)
  {
    TrimEnd(TrimStart(s))
  }

  predicate IsTrimmed(s: string) {
    s == [] || (!IsWhitespace(s[0]) && !IsWhitespace(s[|s| - 1]))
  }

  /** The trimmed string is the part of the input after the leading white space that
      `TrimStart` drops, up to the trailing white space `TrimEnd` drops. */
  lemma TrimSlice(s: string)
    ensures |TrimStart(s)| <= |s|
    ensures |Trim(s)| <= |TrimStart(s)|
    ensures Trim(s) == s[|s| - |TrimStart(s)|..|s| - |TrimStart(s)| + |Trim(s)|]
    ensures forall i :: |s| - |TrimStart(s)| + |Trim(s)| <= i < |s| ==> IsWhitespace(s[i])
  {
    var t := TrimStart(s);
    var r := TrimEnd(t);
    var lo := |s| - |t|;
    assert t == s[lo..] && r == t[..|r|];
    assert r == s[lo..lo + |r|];
    forall i | lo + |r| <= i < |s| ensures IsWhitespace(s[i]) {
      assert s[i] == t[i - lo];
    }
  }

  /** The trimmed string is a contiguous part of the input that neither starts nor
      ends with white space, and everything cut off on either side was white space. */
  lemma TrimSpec(s: string)
    ensures IsTrimmed(Trim(s))
    ensures var lo, hi := |s| - |TrimStart(s)|, |s| - |TrimStart(s)| + |Trim(s)|;
            && hi <= |s| && Trim(s) == s[lo..hi]
            && (forall i :: 0 <= i < lo ==> IsWhitespace(s[i]))
            && (forall i :: hi <= i < |s| ==> IsWhitespace(s[i]))
  {
    TrimSlice(s);
    var t := TrimStart(s);
    var r := TrimEnd(t);
    if r != [] {
      assert r[0] == t[0];
    }
  }

  /** Trimming a trimmed string changes nothing. */
  lemma TrimOfTrimmed(s: string)
    requires IsTrimmed(s)
    ensures Trim(s) == s
  {
  }

  /** Lower-casing keeps a trimmed string trimmed, since it maps white space to white space. */
  lemma ToLowerKeepsTrimmed(s: string)
    requires IsTrimmed(s)
    ensures IsTrimmed(ToLower(s))
  {
  }

  /** The key normalisation `trim().to_lowercase()` is idempotent. */
  lemma {:induction false} NormalizeIdempotent(s: string)
    ensures ToLower(Trim(ToLower(Trim(s)))) == ToLower(Trim(s))
  {
    TrimSpec(s);
    ToLowerKeepsTrimmed(Trim(s));
    TrimOfTrimmed(ToLower(Trim(s)));
    ToLowerIdempotent(Trim(s));
  }

  /** `Path::join` of a relative file name onto a directory, with `/` as the only separator. */
  function JoinPath(dir: string, name: string): (p: string)
    ensures |dir| + |name| <= |p| && p[..|dir|] == dir && p[|p| - |name|..] == name
    ensures |p| <= |dir| + |name| + 1
    ensures dir != [] && dir[|dir| - 1] != '/' ==> p == dir + "/" + name
    ensures dir == [] || dir[|dir| - 1] == '/' ==> p == dir + name
  {
    if dir == [] || dir[|dir| - 1] == '/' then dir + name else dir + "/" + name
  }
}
