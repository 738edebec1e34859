/**
 * White-space trimming as Go's `bytes.TrimSpace` does it for ASCII input: a forward scan
 * past the leading white space, then a backward scan past the trailing white space that
 * never crosses the start.
 */
module Text {

  /** The six ASCII white-space characters: tab, line feed, vertical tab, form feed, carriage return, space. */
  predicate IsSpace(c: char) {
    c == '\t' || c == '\n' || c == '\U{000B}' || c == '\U{000C}' || c == '\r' || c == ' '
  }

  /** Every character of `s` at an index in [lo, hi) is white space. */
  predicate SpaceBetween(s: string, lo: int, hi: int)
    requires 0 <= lo <= hi <= |s|
  {
    forall m :: lo <= m < hi ==> IsSpace(s[m])
  }

  predicate AllSpace(s: string) {
    SpaceBetween(s, 0, |s|)
  }

  /** Neither end of `s` is white space. */
  predicate Trimmed(s: string) {
    s == [] || (!IsSpace(s[0]) && !IsSpace(s[|s| - 1]))
  }

  /** The first index at or after `i` that holds no white space, or `|s|`. */
  function SkipSpace(s: string, i: nat): (k: nat)
    requires i <= |s|
    ensures i <= k <= |s| && SpaceBetween(s, i, k)
    ensures k == |s| || !IsSpace(s[k])
    decreases |s| - i
  {
    if i < |s| && IsSpace(s[i]) then SkipSpace(s, i + 1) else i
  }

  /** The index just past the last character before `j` that is not white space, but no lower than `lo`. */
  function BackSpace(s: string, lo: nat, j: nat): (k: nat)
    requires lo <= j <= |s|
    ensures lo <= k <= j && SpaceBetween(s, k, j)
    ensures k == lo || !IsSpace(s[k - 1])
    decreases j
  {
    if lo < j && IsSpace(s[j - 1]) then BackSpace(s, lo, j - 1) else j
  }

  /** `s` without its trailing white space. */
  function TrimRight(s: string): (r: string)
    ensures |r| <= |s| && r == s[..|r|]
    ensures r == [] || !IsSpace(r[|r| - 1])
  {
    s[..BackSpace(s, 0, |s|)]
  }

  /** `bytes.TrimSpace` restricted to ASCII. */
  function TrimSpace(s: string): (r: string)
    ensures Trimmed(r)
    ensures r == [] <==> AllSpace(s)
    ensures forall c :: c in r ==> c in s
    ensures exists lo, hi :: 0 <= lo <= hi <= |s| && r == s[lo..hi] && SpaceBetween(s, 0, lo) && SpaceBetween(s, hi, |s|)
  {
    var start := SkipSpace(s, 0);
    var stop := BackSpace(s, start, |s|);
    SpaceAround(s, start, stop);
    s[start..stop]
  }

  /** White space up to `start` and from `stop` on covers everything once the two meet. */
  lemma SpaceAround(s: string, start: nat, stop: nat)
    requires start <= stop <= |s| && SpaceBetween(s, 0, start) && SpaceBetween(s, stop, |s|)
    ensures stop == start ==> AllSpace(s)
  {
  }

  /** The backward scan is pinned down by its contract: the one cut point after which there is only white space. */
  lemma BackSpaceUnique(s: string, k: nat)
    requires k <= |s| && SpaceBetween(s, k, |s|)
    requires k == 0 || !IsSpace(s[k - 1])
    ensures BackSpace(s, 0, |s|) == k
  {
  }

  /** Trimming the right of a concatenation: the right part's trimmed form survives unless it is all white space. */
  lemma TrimRightConcat(x: string, y: string)
    ensures TrimRight(x + y) == if TrimRight(y) == [] then TrimRight(x) else x + TrimRight(y)
  {
    var xy := x + y;
    var cutX, cutY := BackSpace(x, 0, |x|), BackSpace(y, 0, |y|);
    if cutY == 0 {
      forall m | cutX <= m < |xy| ensures IsSpace(xy[m]) {
        if m < |x| { assert xy[m] == x[m]; } else { assert xy[m] == y[m - |x|]; }
      }
      assert cutX == 0 || xy[cutX - 1] == x[cutX - 1];
      BackSpaceUnique(xy, cutX);
      assert xy[..cutX] == x[..cutX];
    } else {
      forall m | |x| + cutY <= m < |xy| ensures IsSpace(xy[m]) {
        assert xy[m] == y[m - |x|];
      }
      assert xy[|x| + cutY - 1] == y[cutY - 1];
      BackSpaceUnique(xy, |x| + cutY);
      assert xy[..|x| + cutY] == x + y[..cutY];
    }
  }

  /** A string that already has no trailing white space is left alone. */
  lemma TrimRightOfTrimmed(s: string)
    requires s == [] || !IsSpace(s[|s| - 1])
    ensures TrimRight(s) == s
  {
    BackSpaceUnique(s, |s|);
  }

  /** A string that starts with no white space is trimmed on the right only. */
  lemma TrimSpaceOfWord(s: string)
    requires s != [] && !IsSpace(s[0])
    ensures TrimSpace(s) == TrimRight(s)
  {
    assert SkipSpace(s, 0) == 0;
    assert s[0..BackSpace(s, 0, |s|)] == s[..BackSpace(s, 0, |s|)];
  }

  /**
   * Trimming a trimmed non-empty word followed by a space and some text: the word stays, and
   * the text survives with its trailing white space removed unless nothing else is left of it.
   */
  lemma TrimSpaceAfterWord(word: string, text: string)
    requires word != [] && Trimmed(word)
    ensures TrimSpace(word + " " + text) ==
      if TrimRight(text) == [] then word else word + " " + TrimRight(text)
  {
    var joined := word + " " + text;
    assert joined[0] == word[0];
    TrimSpaceOfWord(joined);
    TrimRightConcat(word + " ", text);
    TrimRightConcat(word, " ");
    assert TrimRight(" ") == [] by { BackSpaceUnique(" ", 0); }
    TrimRightOfTrimmed(word);
  }

  /** Trimming "word + ' ' + text" adds no line feed that the word or the kept part of the text lacks. */
  lemma NoLineFeedAfterWord(word: string, text: string)
    requires word != [] && Trimmed(word)
    requires '\n' !in word && '\n' !in TrimRight(text)
    ensures '\n' !in TrimSpace(word + " " + text)
  {
    TrimSpaceAfterWord(word, text);
    var tail := TrimRight(text);
    if tail != [] {
      var spaced := word + " ";
      assert '\n' !in spaced;
      assert '\n' !in spaced + tail;
    }
  }
}
