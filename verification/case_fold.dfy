/**
 * Case-insensitive string equality in the manner of Go's strings.EqualFold,
 * which compares two strings rune by rune under Unicode simple case folding.
 *
 * FoldKey sends every rune to a representative of its folding class for the
 * classes that contain an ASCII letter: the two cases of each ASCII letter,
 * plus KELVIN SIGN (U+212A), which folds with 'k', and LATIN SMALL LETTER
 * LONG S (U+017F), which folds with 's'. No other rune folds with an ASCII
 * letter, so EqualFold below agrees with Go's whenever one of the two
 * strings is ASCII, which is how the handlers use it.
 */
module CaseFold {

  /** The representative of c's folding class: lower case for ASCII letters. */
  function FoldKey(c: char): char {
    if 'A' <= c <= 'Z' then (c as int + 32) as char
    else if c == '\U{212A}' then 'k'
    else if c == '\U{017F}' then 's'
    else c
  }

  /** A lower-case ASCII letter is its own representative. */
  lemma FoldKeyOfLower(c: char)
    requires 'a' <= c <= 'z'
    ensures FoldKey(c) == c
  {
  }

  /** Exactly the runes that fold to the lower-case ASCII letter `x`. */
  lemma FoldKeyPreimage(c: char, x: char)
    requires 'a' <= x <= 'z'
    ensures FoldKey(c) == x <==>
      || c == x
      || c as int == x as int - 32
      || (x == 'k' && c == '\U{212A}')
      || (x == 's' && c == '\U{017F}')
  {
  }

  /**
   * Rune-by-rune comparison under folding: both strings run out together
   * and every pair of runes at the same position folds to the same key.
   */
  function EqualFold(s: string, t: string): (r: bool)
    ensures r ==> |s| == |t|
    decreases |s|
  {
    if |s| == 0 || |t| == 0 then |s| == |t|
    else FoldKey(s[0]) == FoldKey(t[0]) && EqualFold(s[1..], t[1..])
  }

  /** EqualFold is position-wise comparison of fold keys. */
  lemma {:induction false} EqualFoldPointwise(s: string, t: string)
    ensures EqualFold(s, t) <==>
      |s| == |t| && forall i :: 0 <= i < |s| ==> FoldKey(s[i]) == FoldKey(t[i])
    decreases |s|
  {
    if |s| != 0 && |t| != 0 {
      EqualFoldPointwise(s[1..], t[1..]);
      if |s| == |t| && forall i :: 0 <= i < |s| ==> FoldKey(s[i]) == FoldKey(t[i]) {
        assert forall i :: 0 <= i < |s| - 1 ==> FoldKey(s[1..][i]) == FoldKey(t[1..][i]) by {
          forall i | 0 <= i < |s| - 1 ensures FoldKey(s[1..][i]) == FoldKey(t[1..][i]) {
            assert s[1..][i] == s[i + 1] && t[1..][i] == t[i + 1];
          }
        }
      }
    }
  }

  /** Every string equals itself under folding. */
  lemma {:induction false} EqualFoldReflexive(s: string)
    ensures EqualFold(s, s)
    decreases |s|
  {
    if |s| != 0 {
      EqualFoldReflexive(s[1..]);
    }
  }

  /** The order of the two arguments does not matter. */
  lemma {:induction false} EqualFoldSymmetric(s: string, t: string)
    ensures EqualFold(s, t) == EqualFold(t, s)
    decreases |s|
  {
    if |s| != 0 && |t| != 0 {
      EqualFoldSymmetric(s[1..], t[1..]);
    }
  }

  /** Two strings that each fold-equal a third fold-equal each other. */
  lemma EqualFoldTransitive(s: string, t: string, u: string)
    requires EqualFold(s, t) && EqualFold(t, u)
    ensures EqualFold(s, u)
  {
    EqualFoldPointwise(s, t);
    EqualFoldPointwise(t, u);
    EqualFoldPointwise(s, u);
  }
}
