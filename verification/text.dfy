/**
 * Facts about the message strings the handlers build with fmt.Sprintf:
 * a fixed prefix, the caller's text verbatim, and a fixed suffix.
 */
module Text {
  import opened Wrappers

  /** `s` begins with `prefix`. */
  predicate StartsWith(s: string, prefix: string) {
    |prefix| <= |s| && s[..|prefix|] == prefix
  }

  /** `part` occurs somewhere in `s` as a contiguous run of characters. */
  predicate Contains(s: string, part: string) {
    exists i :: 0 <= i <= |s| && StartsWith(s[i..], part)
  }

  /**
   * Reads back the text between `prefix` and `suffix`, or None when `s`
   * does not have that shape. This is the reader a consumer of a handler's
   * message would use to recover the city it names.
   */
  function Unwrap(s: string, prefix: string, suffix: string): (r: Option<string>)
    ensures r.Some? ==> s == prefix + r.value + suffix
    ensures r.None? ==> !StartsWith(s, prefix) || |s| < |prefix| + |suffix| || s[|s| - |suffix|..] != suffix
  {
    if |prefix| + |suffix| <= |s| && s[..|prefix|] == prefix && s[|s| - |suffix|..] == suffix then
      var mid := s[|prefix|..|s| - |suffix|];
      assert s == prefix + mid + suffix by {
        assert s == s[..|prefix|] + s[|prefix|..|s| - |suffix|] + s[|s| - |suffix|..];
      }
      Some(mid)
    else
      None
  }

  /** Wrapping a text and unwrapping it again gives the text back, whatever it holds. */
  lemma UnwrapWrapped(prefix: string, mid: string, suffix: string)
    ensures Unwrap(prefix + mid + suffix, prefix, suffix) == Some(mid)
  {
    var s := prefix + mid + suffix;
    assert s[..|prefix|] == prefix;
    assert s[|s| - |suffix|..] == suffix;
    assert s[|prefix|..|s| - |suffix|] == mid;
  }

  /** A text occurs at the end of anything it is appended to. */
  lemma ContainsSuffix(prefix: string, part: string)
    ensures Contains(prefix + part, part)
  {
    assert (prefix + part)[|prefix|..] == part;
  }

  /** Appending more text keeps every occurrence. */
  lemma ContainsExtend(s: string, more: string, part: string)
    requires Contains(s, part)
    ensures Contains(s + more, part)
  {
    var i :| 0 <= i <= |s| && StartsWith(s[i..], part);
    assert (s + more)[i..][..|part|] == s[i..][..|part|];
  }

  /** The wrapped text occurs verbatim in the result. */
  lemma WrappedContains(prefix: string, mid: string, suffix: string)
    ensures Contains(prefix + mid + suffix, mid)
  {
    var s := prefix + mid + suffix;
    assert s[|prefix|..][..|mid|] == mid;
    assert StartsWith(s[|prefix|..], mid);
  }
}
