/**
 * The three Python string operations the router uses: `str.strip()` with no
 * argument, the open-ended slice `s[k:]` and `str.startswith`.
 */
module PyText {

  /** Python's `str.isspace` for a single character. */
  predicate IsSpace(c: char) {
    || c == ' '
    || ('\t' <= c <= '\r')
    || ('\U{1C}' <= c <= '\U{1F}')
    || c == '\U{85}' || c == '\U{A0}' || c == '\U{1680}'
    || ('\U{2000}' <= c <= '\U{200A}')
    || c == '\U{2028}' || c == '\U{2029}' || c == '\U{202F}' || c == '\U{205F}'
    || c == '\U{3000}'
  }

  /** Neither end of `r` is whitespace. */
  predicate NoOuterSpace(r: string) {
    r != [] ==> !IsSpace(r[0]) && !IsSpace(r[|r| - 1])
  }

  /** `r` sits in `s` at position `k` and everything around it is whitespace. */
  ghost predicate StrippedAt(s: string, r: string, k: nat) {
    && k + |r| <= |s|
    && s[k..k + |r|] == r
    && (forall i :: 0 <= i < k ==> IsSpace(s[i]))
    && (forall i :: k + |r| <= i < |s| ==> IsSpace(s[i]))
  }

  /** Drops leading whitespace. */
  function TrimLeft(s: string): (r: string)
    ensures |r| <= |s| && r == s[|s| - |r|..]
    ensures forall i :: 0 <= i < |s| - |r| ==> IsSpace(s[i])
    ensures r != [] ==> !IsSpace(r[0])
  {
    if s != [] && IsSpace(s[0]) then TrimLeft(s[1..]) else s
  }

  /** Drops trailing whitespace. */
  function TrimRight(s: string): (r: string)
    ensures |r| <= |s| && r == s[..|r|]
    ensures forall i :: |r| <= i < |s| ==> IsSpace(s[i])
    ensures r != [] ==> !IsSpace(r[|r| - 1])
  {
    if s != [] && IsSpace(s[|s| - 1]) then TrimRight(s[..|s| - 1]) else s
  }

  /** Python's `s.strip()`: the part of `s` left once whitespace is removed at both ends. */
  function Strip(s: string): (r: string)
    ensures NoOuterSpace(r)
  {
    TrimRight(TrimLeft(s))
  }

  /** What Strip leaves is cut out of `s` by removing whitespace alone, at both ends. */
  lemma StripCutsOutWhitespace(s: string)
    ensures exists k :: StrippedAt(s, Strip(s), k)
  {
    var t := TrimLeft(s);
    TrimmedIsStripped(s, t, TrimRight(t));
    assert StrippedAt(s, Strip(s), |s| - |t|);
  }

  /**
   * Removing leading whitespace from `s` and then trailing whitespace from
   * what is left cuts out a string that sits in `s` after the leading whitespace.
   */
  lemma TrimmedIsStripped(s: string, t: string, r: string)
    requires |t| <= |s| && t == s[|s| - |t|..] && (forall i :: 0 <= i < |s| - |t| ==> IsSpace(s[i]))
    requires |r| <= |t| && r == t[..|r|] && (forall i :: |r| <= i < |t| ==> IsSpace(t[i]))
    ensures StrippedAt(s, r, |s| - |t|)
  {
    var k := |s| - |t|;
    TrimmedMiddle(s, t, r, k);
    TrimmedTail(s, t, r, k);
  }

  lemma TrimmedMiddle(s: string, t: string, r: string, k: nat)
    requires k <= |s| && t == s[k..] && |r| <= |t| && r == t[..|r|]
    ensures k + |r| <= |s| && s[k..k + |r|] == r
  {
  }

  lemma TrimmedTail(s: string, t: string, r: string, k: nat)
    requires k <= |s| && t == s[k..] && |r| <= |t|
    requires forall i :: |r| <= i < |t| ==> IsSpace(t[i])
    ensures forall i :: k + |r| <= i < |s| ==> IsSpace(s[i])
  {
    forall i | k + |r| <= i < |s| ensures IsSpace(s[i]) {
      assert s[i] == t[i - k];
    }
  }

  /** TrimLeft stops at the first character that is not whitespace. */
  lemma {:induction false} TrimLeftStopsAt(s: string, k: nat)
    requires k <= |s|
    requires forall i :: 0 <= i < k ==> IsSpace(s[i])
    requires k < |s| ==> !IsSpace(s[k])
    ensures TrimLeft(s) == s[k..]
  {
    if k > 0 {
      assert s[1..][k - 1..] == s[k..];
      TrimLeftStopsAt(s[1..], k - 1);
    }
  }

  /** TrimRight stops after the last character that is not whitespace. */
  lemma {:induction false} TrimRightStopsAt(s: string, n: nat)
    requires n <= |s|
    requires forall i :: n <= i < |s| ==> IsSpace(s[i])
    requires n > 0 ==> !IsSpace(s[n - 1])
    ensures TrimRight(s) == s[..n]
    decreases |s| - n
  {
    if n < |s| {
      assert s[..|s| - 1][..n] == s[..n];
      TrimRightStopsAt(s[..|s| - 1], n);
    }
  }

  /**
   * Strip is characterised by its contract: the only string without outer
   * whitespace that can be cut out of `s` by removing whitespace alone.
   */
  lemma StripUnique(s: string, r: string, k: nat)
    requires NoOuterSpace(r) && StrippedAt(s, r, k)
    ensures Strip(s) == r
  {
    if r == [] {
      TrimLeftStopsAt(s, |s|);
    } else {
      assert s[k] == r[0];
      TrimLeftStopsAt(s, k);
      var t := s[k..];
      assert t[..|r|] == r;
      assert t[|r| - 1] == r[|r| - 1];
      forall i | |r| <= i < |t| ensures IsSpace(t[i]) {
        assert t[i] == s[k + i];
      }
      TrimRightStopsAt(t, |r|);
    }
  }

  /** Stripping leaves a string without outer whitespace as it is. */
  lemma StripKeeps(s: string)
    requires NoOuterSpace(s)
    ensures Strip(s) == s
  {
    assert s[0..|s|] == s;
    StripUnique(s, s, 0);
  }

  /** Strip is idempotent. */
  lemma StripIdempotent(s: string)
    ensures Strip(Strip(s)) == Strip(s)
  {
    StripKeeps(Strip(s));
  }

  /** Whitespace put around a stripped string is removed again, and only that. */
  lemma StripPadded(front: string, r: string, back: string)
    requires NoOuterSpace(r)
    requires forall i :: 0 <= i < |front| ==> IsSpace(front[i])
    requires forall i :: 0 <= i < |back| ==> IsSpace(back[i])
    ensures Strip(front + r + back) == r
  {
    var s := front + r + back;
    assert s[|front|..|front| + |r|] == r;
    forall i | 0 <= i < |front| ensures IsSpace(s[i]) {
      assert s[i] == front[i];
    }
    forall i | |front| + |r| <= i < |s| ensures IsSpace(s[i]) {
      assert s[i] == back[i - |front| - |r|];
    }
    StripUnique(s, r, |front|);
  }

  /** Python's `s[k:]` for `k >= 0`: the suffix after position `k`, empty once `k` passes the end. */
  function Slice(s: string, k: nat): (r: string)
    ensures |r| == if k <= |s| then |s| - k else 0
    ensures forall i :: 0 <= i < |r| ==> r[i] == s[k + i]
  {
    if k <= |s| then s[k..] else []
  }

  /** Python's `s.startswith(p)`. */
  predicate StartsWith(s: string, p: string) {
    |p| <= |s| && s[..|p|] == p
  }
}
