/**
 * The Python 2 string behaviour the client relies on: `strip()` in the
 * blank-token test and `str()` applied to text read from the XML tree.
 * lxml returns a byte string for pure-ASCII text and a unicode string
 * otherwise, and the two kinds strip different whitespace sets.
 */
module PyText {
  import opened Wrappers

  /** Characters a byte string's `strip()` removes (C `isspace`). */
  predicate IsByteSpace(c: char) {
    c == ' ' || c == '\t' || c == '\n' || c == '\r' || c == '\U{B}' || c == '\U{C}'
  }

  /** Characters a unicode string's `strip()` removes (Python 2.7 character database). */
  predicate IsUnicodeSpace(c: char) {
    IsByteSpace(c) || ('\U{1C}' <= c <= '\U{1F}') || c == '\U{85}' || c == '\U{A0}'
    || c == '\U{1680}' || c == '\U{180E}' || ('\U{2000}' <= c <= '\U{200A}')
    || c == '\U{2028}' || c == '\U{2029}' || c == '\U{202F}' || c == '\U{205F}' || c == '\U{3000}'
  }

  predicate IsAscii(s: string) {
    forall i :: 0 <= i < |s| ==> s[i] < '\U{80}'
  }

  /** Whitespace for `strip()`; `wide` is true for a unicode string. */
  predicate IsStripSpace(c: char, wide: bool) {
    if wide then IsUnicodeSpace(c) else IsByteSpace(c)
  }

  /** `lstrip()`: the suffix left after dropping leading whitespace. */
  function StripLeft(s: string, wide: bool): (r: string)
    ensures |r| <= |s| && r == s[|s| - |r|..]
    ensures forall i :: 0 <= i < |s| - |r| ==> IsStripSpace(s[i], wide)
    ensures r != [] ==> !IsStripSpace(r[0], wide)
  {
    if s != [] && IsStripSpace(s[0], wide) then StripLeft(s[1..], wide) else s
  }

  /** `rstrip()`: the prefix left after dropping trailing whitespace. */
  function StripRight(s: string, wide: bool): (r: string)
    ensures |r| <= |s| && r == s[..|r|]
    ensures forall i :: |r| <= i < |s| ==> IsStripSpace(s[i], wide)
    ensures r != [] ==> !IsStripSpace(r[|r| - 1], wide)
  {
    if s != [] && IsStripSpace(s[|s| - 1], wide) then StripRight(s[..|s| - 1], wide) else s
  }

  /** `s.strip()` for text as lxml returns it. */
  function Strip(s: string): string {
    var wide := !IsAscii(s);
    StripRight(StripLeft(s, wide), wide)
  }

  /** `s.strip() == ''` holds exactly when every character is whitespace of the string's kind. */
  lemma BlankIffAllSpace(s: string)
    ensures Strip(s) == [] <==> forall i :: 0 <= i < |s| ==> IsStripSpace(s[i], !IsAscii(s))
  {
  }

  /** Python 2 `str(x)` on text from lxml: the ASCII codec rejects anything else. */
  function ToByteString(s: string): Option<string> {
    if IsAscii(s) then Some(s) else None
  }
}
