/** Character classes and string helpers used by the field constraints. */
module Text {

  /** Java's String.trim() removes every char whose code point is at most U+0020. */
  predicate IsTrimmable(c: char) {
    c <= ' '
  }

  /** A blank string holds nothing but trimmable characters (the empty string is blank). */
  predicate IsBlank(s: string) {
    forall i :: 0 <= i < |s| ==> IsTrimmable(s[i])
  }

  predicate IsAsciiDigit(c: char) {
    '0' <= c <= '9'
  }

  predicate IsAsciiLetter(c: char) {
    ('A' <= c <= 'Z') || ('a' <= c <= 'z')
  }

  /** The class `[0-9A-Za-z]`. */
  predicate IsAlphaNum(c: char) {
    IsAsciiDigit(c) || IsAsciiLetter(c)
  }

  /** The class `\w` of Java's default regex dialect: `[a-zA-Z_0-9]`. */
  predicate IsWordChar(c: char) {
    IsAlphaNum(c) || c == '_'
  }

  predicate StartsWith(s: string, prefix: string) {
    |prefix| <= |s| && s[..|prefix|] == prefix
  }

  predicate EndsWith(s: string, suffix: string) {
    |suffix| <= |s| && s[|s| - |suffix|..] == suffix
  }

  /** Drops the leading trimmable characters: what remains is a suffix of `s`
      that is empty or starts with a non-trimmable character. */
  function TrimStart(s: string): (t: string)
    ensures |t| <= |s| && t == s[|s| - |t|..]
    ensures IsBlank(s[..|s| - |t|])
    ensures t == [] || !IsTrimmable(t[0])
    decreases |s|
  {
    if s != [] && IsTrimmable(s[0]) then TrimStart(s[1..]) else s
  }

  /** Drops the trailing trimmable characters: what remains is a prefix of `s`
      that is empty or ends with a non-trimmable character. */
  function TrimEnd(s: string): (t: string)
    ensures |t| <= |s| && t == s[..|t|]
    ensures IsBlank(s[|t|..])
    ensures t == [] || !IsTrimmable(t[|t| - 1])
    decreases |s|
  {
    if s != [] && IsTrimmable(s[|s| - 1]) then TrimEnd(s[..|s| - 1]) else s
  }

  /** Java's String.trim(). */
  function Trim(s: string): string {
    TrimEnd(TrimStart(s))
  }

  /** Trimming leaves nothing exactly when the string is blank. */
  lemma TrimEmptyIffBlank(s: string)
    ensures Trim(s) == [] <==> IsBlank(s)
  {
  }
}
