/** The two string operations of Python's `str` that the scraper relies on. */
module Text {
  import opened Seqs

  /**
   * The characters Python's `str.isspace` accepts, which are the ones
   * `str.strip()` removes from both ends.
   */
  predicate IsSpace(c: char) {
    c == ' ' || '\t' <= c <= '\r' || '\U{1C}' <= c <= '\U{1F}' || c == '\U{85}' || c == '\U{A0}'
    || c == '\U{1680}' || '\U{2000}' <= c <= '\U{200A}' || c == '\U{2028}' || c == '\U{2029}'
    || c == '\U{202F}' || c == '\U{205F}' || c == '\U{3000}'
  }

  /** `s.strip()`: `s` without its leading and trailing whitespace. */
  function Strip(s: string): (r: string)
    ensures |r| <= |s|
    ensures r == [] || (!IsSpace(r[0]) && !IsSpace(r[|r| - 1]))
    ensures (forall i :: 0 <= i < |s| ==> !IsSpace(s[i])) ==> r == s
  {
    var lo := LeadingCount(s, IsSpace);
    if lo == |s| then []
    else
      var k := TrailingCount(s, IsSpace);
      assert |s| - k > lo;
      s[lo..|s| - k]
  }

  /** Stripping removes whitespace only: every other character survives, and nothing is added. */
  lemma StripKeeps(s: string)
    ensures forall c :: c in Strip(s) ==> c in s
    ensures forall i :: 0 <= i < |s| && !IsSpace(s[i]) ==> s[i] in Strip(s)
  {
    var lo := LeadingCount(s, IsSpace);
    if lo < |s| {
      var k := TrailingCount(s, IsSpace);
      assert Strip(s) == s[lo..|s| - k];
      forall i | 0 <= i < |s| && !IsSpace(s[i])
        ensures s[i] in Strip(s)
      {
        assert lo <= i < |s| - k;
        assert s[i] == Strip(s)[i - lo];
      }
    }
  }

  /**
   * Stripping cuts `s` down to one slice of it, dropping only whitespace
   * before and after: with `Strip`'s own contract (no whitespace left at
   * either end) this fixes the slice.
   */
  lemma StripTrims(s: string)
    ensures exists lo, hi ::
              0 <= lo <= hi <= |s| && Strip(s) == s[lo..hi]
              && (forall i :: 0 <= i < lo ==> IsSpace(s[i]))
              && (forall i :: hi <= i < |s| ==> IsSpace(s[i]))
  {
    var lo := LeadingCount(s, IsSpace);
    if lo == |s| {
      assert Strip(s) == s[lo..lo];
    } else {
      var hi := |s| - TrailingCount(s, IsSpace);
      assert Strip(s) == s[lo..hi];
    }
  }

  /** A string with no whitespace at either end is its own strip. */
  lemma StripUnpadded(s: string)
    requires s != [] ==> !IsSpace(s[0]) && !IsSpace(s[|s| - 1])
    ensures Strip(s) == s
  {
    if s != [] {
      assert LeadingCount(s, IsSpace) == 0;
      assert TrailingCount(s, IsSpace) == 0;
    }
  }

  /** `s.replace(ch, "")`: `s` with every occurrence of `ch` deleted. */
  function RemoveAll(s: string, ch: char): (r: string)
    ensures |r| <= |s|
    ensures ch !in r
    ensures ch !in s ==> r == s
  {
    if s == [] then [] else (if s[0] == ch then [] else [s[0]]) + RemoveAll(s[1..], ch)
  }

  /** Deleting `ch` from a concatenation deletes it from each part. */
  lemma {:induction false} RemoveAllAppend(s: string, t: string, ch: char)
    ensures RemoveAll(s + t, ch) == RemoveAll(s, ch) + RemoveAll(t, ch)
  {
    if s == [] {
      assert s + t == t;
    } else {
      assert (s + t)[0] == s[0] && (s + t)[1..] == s[1..] + t;
      RemoveAllAppend(s[1..], t, ch);
    }
  }

  /** Deleting `ch` keeps every other character and adds none. */
  lemma {:induction false} RemoveAllKeeps(s: string, ch: char)
    ensures forall c :: c in RemoveAll(s, ch) <==> c in s && c != ch
  {
    if s != [] {
      RemoveAllKeeps(s[1..], ch);
      assert s == [s[0]] + s[1..];
    }
  }
}
