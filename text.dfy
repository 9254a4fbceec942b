/** String operations the core relies on: JavaScript and PHP `trim`, PHP `strtolower`. */
module Text {

  /** ECMAScript WhiteSpace and LineTerminator: what JavaScript's `trim` strips. */
  const JsBlanks: set<char> :=
    {' ', '\t', '\n', '\r', '\U{B}', '\U{C}', '\U{A0}', '\U{1680}',
     '\U{2000}', '\U{2001}', '\U{2002}', '\U{2003}', '\U{2004}', '\U{2005}',
     '\U{2006}', '\U{2007}', '\U{2008}', '\U{2009}', '\U{200A}',
     '\U{2028}', '\U{2029}', '\U{202F}', '\U{205F}', '\U{3000}', '\U{FEFF}'}

  /** PHP's default `trim` character list " \t\n\r\0\x0B". */
  const PhpBlanks: set<char> := {' ', '\t', '\n', '\r', '\0', '\U{B}'}

  /** What PHP skips before the digits of a numeric string: " \t\n\r\v\f". */
  const PhpNumericBlanks: set<char> := {' ', '\t', '\n', '\r', '\U{B}', '\U{C}'}

  /** Drops the longest prefix of characters in `blank`. */
  function DropLeading(blank: set<char>, s: string): (r: string)
    ensures |r| <= |s| && r == s[|s| - |r|..]
    ensures forall k :: 0 <= k < |s| - |r| ==> s[k] in blank
    ensures r == [] || r[0] !in blank
    decreases |s|
  {
    if |s| > 0 && s[0] in blank then
      var r := DropLeading(blank, s[1..]);
      assert forall k :: 1 <= k < |s| - |r| ==> s[k] == s[1..][k - 1];
      r
    else s
  }

  /** Drops the longest suffix of characters in `blank`. */
  function DropTrailing(blank: set<char>, s: string): (r: string)
    ensures |r| <= |s| && r == s[..|r|]
    ensures forall k :: |r| <= k < |s| ==> s[k] in blank
    ensures r == [] || r[|r| - 1] !in blank
    decreases |s|
  {
    if |s| > 0 && s[|s| - 1] in blank then DropTrailing(blank, s[..|s| - 1])
    else s
  }

  /** Strips both ends; neither end of the result is strippable. */
  function Trim(blank: set<char>, s: string): (r: string)
    ensures r == [] || (r[0] !in blank && r[|r| - 1] !in blank)
    ensures |r| <= |s|
  {
    DropTrailing(blank, DropLeading(blank, s))
  }

  /** Number of characters `Trim` strips from the front. */
  function Lead(blank: set<char>, s: string): nat
  {
    |s| - |DropLeading(blank, s)|
  }

  /**
   * `Trim` keeps exactly the piece between a run of strippable characters at the
   * front and one at the back.
   */
  lemma TrimIsInnerPiece(blank: set<char>, s: string)
    ensures Lead(blank, s) + |Trim(blank, s)| <= |s|
    ensures Trim(blank, s) == s[Lead(blank, s)..Lead(blank, s) + |Trim(blank, s)|]
    ensures forall k :: 0 <= k < Lead(blank, s) ==> s[k] in blank
    ensures forall k :: Lead(blank, s) + |Trim(blank, s)| <= k < |s| ==> s[k] in blank
  {
    var a := DropLeading(blank, s);
    var r := DropTrailing(blank, a);
    var i := |s| - |a|;
    assert a == s[i..];
    forall k | i + |r| <= k < |s|
      ensures s[k] in blank
    {
      assert s[k] == a[k - i];
    }
  }

  /** JavaScript `s.trim()`. */
  function JsTrim(s: string): string
  {
    Trim(JsBlanks, s)
  }

  /** PHP `trim($s)`. */
  function PhpTrim(s: string): string
  {
    Trim(PhpBlanks, s)
  }

  /** Trimming twice is trimming once. */
  lemma TrimIdempotent(blank: set<char>, s: string)
    ensures Trim(blank, Trim(blank, s)) == Trim(blank, s)
  {
    var t := Trim(blank, s);
    if t != [] {
      assert DropLeading(blank, t) == t;
      assert DropTrailing(blank, t) == t;
    }
  }

  function LowerChar(c: char): char
  {
    if 'A' <= c <= 'Z' then (c as int + 32) as char else c
  }

  /** PHP 8 `strtolower`: ASCII letters are lowered, every other character is kept. */
  function AsciiLower(s: string): (r: string)
    ensures |r| == |s|
    ensures forall i :: 0 <= i < |r| ==> !('A' <= r[i] <= 'Z')
    ensures forall i :: 0 <= i < |s| && !('A' <= s[i] <= 'Z') ==> r[i] == s[i]
    ensures forall i :: 0 <= i < |s| && 'A' <= s[i] <= 'Z' ==> r[i] == (s[i] as int + 32) as char
  {
    seq(|s|, i requires 0 <= i < |s| => LowerChar(s[i]))
  }

  lemma AsciiLowerIdempotent(s: string)
    ensures AsciiLower(AsciiLower(s)) == AsciiLower(s)
  {
  }
}
