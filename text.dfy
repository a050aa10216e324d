/**
 * Whitespace and trimming as Python's `str.strip()` performs them. The same
 * whitespace class is what `\s` matches in a `re` pattern over `str`, so the
 * fence stripper reuses it.
 */
module Text {

  /**
   * Python's `str.isspace()`: the characters of bidirectional class WS, B or S
   * or of general category Zs, which are U+0009-U+000D, U+001C-U+0020, U+0085,
   * U+00A0, U+1680, U+2000-U+200A, U+2028, U+2029, U+202F, U+205F and U+3000.
   */
  predicate IsSpace(c: char)
  {
    ('\t' <= c <= '\r') || ('\U{1C}' <= c <= ' ') || c == '\U{85}' || c == '\U{A0}' || c == '\U{1680}'
    || ('\U{2000}' <= c <= '\U{200A}') || c == '\U{2028}' || c == '\U{2029}' || c == '\U{202F}'
    || c == '\U{205F}' || c == '\U{3000}'
  }

  predicate AllSpaces(s: string)
  {
    forall i :: 0 <= i < |s| ==> IsSpace(s[i])
  }

  /** A string that `strip()` leaves as it is: empty, or with a non-space at both ends. */
  predicate Trimmed(s: string)
  {
    s == [] || (!IsSpace(s[0]) && !IsSpace(s[|s| - 1]))
  }

  /** `str.lstrip()`: the suffix left after dropping the leading whitespace run. */
  function TrimStart(s: string): (r: string)
    ensures |r| <= |s| && r == s[|s| - |r|..]
    ensures forall i :: 0 <= i < |s| - |r| ==> IsSpace(s[i])
    ensures r != [] ==> !IsSpace(r[0])
  {
    if s != [] && IsSpace(s[0]) then TrimStart(s[1..]) else s
  }

  /** `str.rstrip()`: the prefix left after dropping the trailing whitespace run. */
  function TrimEnd(s: string): (r: string)
    ensures |r| <= |s| && r == s[..|r|]
    ensures forall i :: |r| <= i < |s| ==> IsSpace(s[i])
    ensures r != [] ==> !IsSpace(r[|r| - 1])
  {
    if s != [] && IsSpace(s[|s| - 1]) then TrimEnd(s[..|s| - 1]) else s
  }

  /** `str.strip()` */
  function Strip(s: string): (r: string)
    ensures Trimmed(r)
  {
    TrimEnd(TrimStart(s))
  }

  /** `lstrip()` removes only a leading whitespace run. */
  lemma TrimStartSplit(s: string) returns (pre: string)
    ensures s == pre + TrimStart(s) && AllSpaces(pre)
  {
    var t := TrimStart(s);
    pre := s[..|s| - |t|];
    assert s == s[..|s| - |t|] + s[|s| - |t|..];
    assert AllSpaces(pre) by {
      forall i | 0 <= i < |pre| ensures IsSpace(pre[i]) { assert pre[i] == s[i]; }
    }
  }

  /** `rstrip()` removes only a trailing whitespace run. */
  lemma TrimEndSplit(s: string) returns (post: string)
    ensures s == TrimEnd(s) + post && AllSpaces(post)
  {
    var t := TrimEnd(s);
    post := s[|t|..];
    assert s == s[..|t|] + s[|t|..];
    assert AllSpaces(post) by {
      forall i | 0 <= i < |post| ensures IsSpace(post[i]) { assert post[i] == s[|t| + i]; }
    }
  }

  /** `strip()` removes only whitespace: the input is the result with a whitespace run on either side. */
  lemma StripSplit(s: string) returns (pre: string, post: string)
    ensures s == pre + Strip(s) + post
    ensures AllSpaces(pre) && AllSpaces(post)
  {
    pre := TrimStartSplit(s);
    post := TrimEndSplit(TrimStart(s));
    Regroup(s, pre, TrimStart(s), Strip(s), post);
  }

  lemma Regroup(s: string, pre: string, t: string, u: string, post: string)
    requires s == pre + t && t == u + post
    ensures s == pre + u + post
  {
  }

  /** The whitespace-only strings are exactly those that `strip()` empties. */
  lemma StripEmptyIff(s: string)
    ensures Strip(s) == [] <==> AllSpaces(s)
  {
    var pre, post := StripSplit(s);
    if Strip(s) != [] {
      assert s[|pre|] == Strip(s)[0];
    } else {
      assert s == pre + post;
      forall i | 0 <= i < |s| ensures IsSpace(s[i]) {
        if i < |pre| { assert s[i] == pre[i]; } else { assert s[i] == post[i - |pre|]; }
      }
    }
  }

  /** `strip()` changes nothing on a string that is already trimmed. */
  lemma StripTrimmed(s: string)
    requires Trimmed(s)
    ensures Strip(s) == s
  {
    assert TrimStart(s) == s;
  }

  lemma StripIdempotent(s: string)
    ensures Strip(Strip(s)) == Strip(s)
  {
    StripTrimmed(Strip(s));
  }

  lemma {:induction false} TrimStartPadded(w: string, x: string)
    requires AllSpaces(w)
    ensures TrimStart(w + x) == TrimStart(x)
    decreases |w|
  {
    if w != [] {
      assert (w + x)[1..] == w[1..] + x;
      TrimStartPadded(w[1..], x);
    } else {
      assert w + x == x;
    }
  }

  lemma {:induction false} TrimEndPadded(x: string, w: string)
    requires AllSpaces(w)
    ensures TrimEnd(x + w) == TrimEnd(x)
    decreases |w|
  {
    if w != [] {
      assert (x + w)[..|x + w| - 1] == x + w[..|w| - 1];
      TrimEndPadded(x, w[..|w| - 1]);
    } else {
      assert x + w == x;
    }
  }

  /** Leading trimming does not look past the first non-space character. */
  lemma {:induction false} TrimStartAppend(x: string, y: string)
    requires TrimStart(x) != []
    ensures TrimStart(x + y) == TrimStart(x) + y
    decreases |x|
  {
    assert (x + y)[0] == x[0];
    if IsSpace(x[0]) {
      assert (x + y)[1..] == x[1..] + y;
      TrimStartAppend(x[1..], y);
    } else {
      assert TrimStart(x) == x;
    }
  }

  /** Whitespace added on either side is removed again by `strip()`. */
  lemma StripPadded(w1: string, x: string, w2: string)
    requires AllSpaces(w1) && AllSpaces(w2)
    ensures Strip(w1 + x + w2) == Strip(x)
  {
    StripPaddedEnd(w1 + x, w2);
    TrimStartPadded(w1, x);
  }

  /** Trailing whitespace is removed again by `strip()`. */
  lemma StripPaddedEnd(x: string, w: string)
    requires AllSpaces(w)
    ensures Strip(x + w) == Strip(x)
  {
    if TrimStart(x) != [] {
      TrimStartAppend(x, w);
      TrimEndPadded(TrimStart(x), w);
    } else {
      StripEmptyIff(x);
      AllSpacesAppend(x, w);
      StripEmptyIff(x + w);
    }
  }

  lemma AllSpacesAppend(x: string, y: string)
    requires AllSpaces(x) && AllSpaces(y)
    ensures AllSpaces(x + y)
  {
    forall i | 0 <= i < |x + y| ensures IsSpace((x + y)[i]) {
      if i < |x| { assert (x + y)[i] == x[i]; } else { assert (x + y)[i] == y[i - |x|]; }
    }
  }

  /** `t` occurs in `s` starting at index `i`. */
  predicate OccursAt(s: string, t: string, i: int)
  {
    0 <= i <= |s| - |t| && s[i..i + |t|] == t
  }

  /** `t in s` for strings: `t` occurs in `s` as a contiguous run. */
  predicate Contains(s: string, t: string)
  {
    exists i :: 0 <= i <= |s| - |t| && OccursAt(s, t, i)
  }

  /** A string occurs in any text built around it. */
  lemma ContainsMiddle(a: string, t: string, b: string)
    ensures Contains(a + t + b, t)
  {
    var s := a + t + b;
    assert s[|a|..|a| + |t|] == t;
    assert OccursAt(s, t, |a|);
  }
}
