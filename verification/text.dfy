/** Python's `str.strip()` with no argument, as the enrichment client's `safe_strip` uses it. */
module Text {

  /** The characters `str.isspace()` accepts, which are exactly those a bare `strip()` removes. */
  predicate IsWhitespace(c: char) {
    var n := c as int;
    || (0x09 <= n <= 0x0D)
    || (0x1C <= n <= 0x20)
    || n == 0x85
    || n == 0xA0
    || n == 0x1680
    || (0x2000 <= n <= 0x200A)
    || n == 0x2028
    || n == 0x2029
    || n == 0x202F
    || n == 0x205F
    || n == 0x3000
  }

  /** Neither end of `s` is whitespace. */
  predicate IsTrimmed(s: string) {
    s == [] || (!IsWhitespace(s[0]) && !IsWhitespace(s[|s| - 1]))
  }

  /** Every character of `s` from index `lo` (inclusive) to `hi` (exclusive) is whitespace. */
  predicate WhitespaceBetween(s: string, lo: int, hi: int) {
    forall k :: lo <= k < hi && 0 <= k < |s| ==> IsWhitespace(s[k])
  }

  /** `s[lo..hi]` is what stripping leaves of `s`: everything outside the window is
      whitespace and the window neither starts nor ends with whitespace. */
  predicate IsStripSpan(s: string, lo: int, hi: int) {
    && 0 <= lo <= hi <= |s|
    && WhitespaceBetween(s, 0, lo)
    && WhitespaceBetween(s, hi, |s|)
    && (lo < hi ==> !IsWhitespace(s[lo]) && !IsWhitespace(s[hi - 1]))
  }

  /** `s.lstrip()`. */
  function TrimStart(s: string): string
    decreases |s|
  {
    if |s| > 0 && IsWhitespace(s[0]) then TrimStart(s[1..]) else s
  }

  /** `s.rstrip()`. */
  function TrimEnd(s: string): string
    decreases |s|
  {
    if |s| > 0 && IsWhitespace(s[|s| - 1]) then TrimEnd(s[..|s| - 1]) else s
  }

  /** `s.strip()`. */
  function Strip(s: string): string {
    TrimEnd(TrimStart(s))
  }

  /** `TrimStart` keeps a suffix of `s` that does not start with whitespace, and what it drops
      is all whitespace. */
  lemma {:induction false} TrimStartShape(s: string)
    ensures var r := TrimStart(s);
            && |r| <= |s| && r == s[|s| - |r|..]
            && WhitespaceBetween(s, 0, |s| - |r|)
            && (r == [] || !IsWhitespace(r[0]))
    decreases |s|
  {
    if |s| > 0 && IsWhitespace(s[0]) {
      var t := s[1..];
      TrimStartShape(t);
      var r := TrimStart(t);
      assert t[|t| - |r|..] == s[|s| - |r|..];
      forall k | 1 <= k < |s| - |r| ensures IsWhitespace(s[k]) {
        assert s[k] == t[k - 1];
      }
    }
  }

  /** `TrimEnd` keeps a prefix of `s` that does not end with whitespace, and what it drops is
      all whitespace. */
  lemma {:induction false} TrimEndShape(s: string)
    ensures var r := TrimEnd(s);
            && |r| <= |s| && r == s[..|r|]
            && WhitespaceBetween(s, |r|, |s|)
            && (r == [] || !IsWhitespace(r[|r| - 1]))
    decreases |s|
  {
    if |s| > 0 && IsWhitespace(s[|s| - 1]) {
      var t := s[..|s| - 1];
      TrimEndShape(t);
      var r := TrimEnd(t);
      assert t[..|r|] == s[..|r|];
      forall k | |r| <= k < |t| ensures IsWhitespace(s[k]) {
        assert s[k] == t[k];
      }
    }
  }

  /** What `strip()` returns is no longer than its argument and has whitespace at neither end. */
  lemma StripTrims(s: string)
    ensures |Strip(s)| <= |s|
    ensures IsTrimmed(Strip(s))
  {
    var t := TrimStart(s);
    TrimStartShape(s);
    TrimEndShape(t);
    var r := TrimEnd(t);
    if r != [] {
      assert r[0] == t[0];
    }
  }

  /** Whatever window satisfies the strip-span description holds exactly `Strip(s)`:
      the description determines the result. */
  lemma {:induction false} StripSpanUnique(s: string, lo: int, hi: int)
    requires IsStripSpan(s, lo, hi)
    ensures s[lo..hi] == Strip(s)
  {
    if lo == hi {
      assert WhitespaceBetween(s, 0, |s|) by {
        forall k | 0 <= k < |s| ensures IsWhitespace(s[k]) {
          if k < lo {
            assert WhitespaceBetween(s, 0, lo);
          } else {
            assert WhitespaceBetween(s, hi, |s|);
          }
        }
      }
      AllWhitespaceStripsToEmpty(s);
    } else {
      TrimStartSkips(s, lo);
      TrimEndOfSpan(s, lo, hi);
    }
  }

  lemma TrimEndOfSpan(s: string, lo: int, hi: int)
    requires IsStripSpan(s, lo, hi) && lo < hi
    ensures TrimEnd(s[lo..]) == s[lo..hi]
  {
    var t := s[lo..];
    forall k | hi - lo <= k < |t| ensures IsWhitespace(t[k]) {
      assert t[k] == s[k + lo];
      assert WhitespaceBetween(s, hi, |s|);
    }
    assert t[hi - lo - 1] == s[hi - 1];
    TrimEndSkips(t, hi - lo);
    assert t[..hi - lo] == s[lo..hi];
  }

  lemma AllWhitespaceStripsToEmpty(s: string)
    requires WhitespaceBetween(s, 0, |s|)
    ensures Strip(s) == []
  {
    TrimStartShape(s);
  }

  /** Skipping `lo` whitespace characters up to a non-whitespace one is what `TrimStart` does. */
  lemma {:induction false} TrimStartSkips(s: string, lo: int)
    requires 0 <= lo < |s|
    requires WhitespaceBetween(s, 0, lo)
    requires !IsWhitespace(s[lo])
    ensures TrimStart(s) == s[lo..]
    decreases lo
  {
    if lo > 0 {
      var t := s[1..];
      assert forall k :: 0 <= k < lo - 1 ==> t[k] == s[k + 1];
      TrimStartSkips(t, lo - 1);
      assert t[lo - 1..] == s[lo..];
    }
  }

  /** Dropping trailing whitespace back to a non-whitespace character at `hi - 1` is what
      `TrimEnd` does. */
  lemma {:induction false} TrimEndSkips(s: string, hi: int)
    requires 0 < hi <= |s|
    requires WhitespaceBetween(s, hi, |s|)
    requires !IsWhitespace(s[hi - 1])
    ensures TrimEnd(s) == s[..hi]
    decreases |s| - hi
  {
    if hi < |s| {
      var t := s[..|s| - 1];
      assert forall k :: hi <= k < |t| ==> t[k] == s[k];
      TrimEndSkips(t, hi);
      assert t[..hi] == s[..hi];
    }
  }

  /** Stripping twice is stripping once. */
  lemma StripIdempotent(s: string)
    ensures Strip(Strip(s)) == Strip(s)
  {
    var r := Strip(s);
    StripTrims(s);
    assert r[0..|r|] == r;
    StripSpanUnique(r, 0, |r|);
  }

  /** Surrounding a trimmed string with whitespace and stripping gives the string back. */
  lemma StripPadded(pre: string, t: string, post: string)
    requires WhitespaceBetween(pre, 0, |pre|) && WhitespaceBetween(post, 0, |post|)
    requires IsTrimmed(t)
    ensures Strip(pre + t + post) == t
  {
    var s := pre + t + post;
    var lo, hi := |pre|, |pre| + |t|;
    assert forall k :: 0 <= k < lo ==> s[k] == pre[k];
    assert forall k :: hi <= k < |s| ==> s[k] == post[k - hi];
    assert s[lo..hi] == t;
    StripSpanUnique(s, lo, hi);
  }

  /** Index-based strip in the way CPython computes it: advance `lo` past leading whitespace,
      then pull `hi` back past trailing whitespace. */
  method StripBounds(s: string) returns (lo: nat, hi: nat)
    ensures IsStripSpan(s, lo, hi)
    ensures s[lo..hi] == Strip(s)
  {
    lo := 0;
    while lo < |s| && IsWhitespace(s[lo])
      invariant lo <= |s|
      invariant WhitespaceBetween(s, 0, lo)
    {
      lo := lo + 1;
    }
    hi := |s|;
    while hi > lo && IsWhitespace(s[hi - 1])
      invariant lo <= hi <= |s|
      invariant WhitespaceBetween(s, hi, |s|)
    {
      hi := hi - 1;
    }
    // the first loop stopped at a non-whitespace character, which the second cannot pass
    assert lo < |s| ==> lo < hi;
    StripSpanUnique(s, lo, hi);
  }
}
