/**
 * The colour-input acceptance test: the case-insensitive, unanchored regular expression
 * `#([0-9A-F]{2}){3}`. A value passes when a `#` followed by six hexadecimal digits occurs
 * anywhere in it.
 */
module HexColour {

  /** One character of the class `[0-9A-F]` under case-insensitive matching. */
  predicate IsHexDigit(c: char) {
    ('0' <= c <= '9') || ('A' <= c <= 'F') || ('a' <= c <= 'f')
  }

  /** The pattern matches `s` starting at index `i`. */
  predicate MatchAt(s: string, i: nat) {
    i + 7 <= |s| && s[i] == '#' && forall j :: i + 1 <= j < i + 7 ==> IsHexDigit(s[j])
  }

  /** A string that is exactly one colour of the form `#RRGGBB`. */
  predicate IsHexColour(s: string) {
    |s| == 7 && MatchAt(s, 0)
  }

  /** Scans for a match starting at `i` or later, as the regular expression engine does. */
  function SearchFrom(s: string, i: nat): (found: bool)
    ensures found <==> exists j: nat :: i <= j && MatchAt(s, j)
    decreases |s| - i
  {
    if i + 7 > |s| then false else MatchAt(s, i) || SearchFrom(s, i + 1)
  }

  /** `hexRegExp.test(s)`: the pattern occurs somewhere in `s`. */
  function Test(s: string): (found: bool)
    ensures found <==> exists j: nat :: MatchAt(s, j)
  {
    SearchFrom(s, 0)
  }

  /** The test is unanchored: any text may surround a colour and the value is still accepted. */
  lemma UnanchoredAccept(pre: string, hex: string, post: string)
    requires IsHexColour(hex)
    ensures Test(pre + hex + post)
  {
    var s := pre + hex + post;
    forall j | |pre| <= j < |pre| + 7
      ensures s[j] == hex[j - |pre|]
    {
    }
    assert MatchAt(s, |pre|);
  }

  /** Every accepted value contains a `#`. */
  lemma AcceptedHasHash(s: string)
    requires Test(s)
    ensures '#' in s
  {
    var j: nat :| MatchAt(s, j);
    assert s[j] == '#';
  }

  /** The three-digit short form alone is rejected. */
  lemma ShortFormRejected()
    ensures !Test("#FFF") && Test("#ffffff") && Test("color: #1E90FF;")
  {
    assert MatchAt("#ffffff", 0);
    assert MatchAt("color: #1E90FF;", 7);
  }
}
