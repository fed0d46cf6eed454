/** Unit-string normalisation: the `unit.lower().strip()` that both unit
    converters apply before matching a spelling.

    Only ASCII is modelled: `Lower` maps 'A'..'Z' to 'a'..'z' and leaves
    every other character alone, and `IsSpace` is the set of ASCII
    characters that Python's `str.strip()` removes (space, tab, line feed,
    vertical tab, form feed, carriage return and the four separators
    0x1C..0x1F). */
module Text {

  predicate IsSpace(c: char) {
    c == ' ' || 9 <= c as int <= 13 || 28 <= c as int <= 31
  }

  predicate IsUpper(c: char) {
    'A' <= c <= 'Z'
  }

  /** Every character of `s` is whitespace (the empty string included). */
  predicate AllSpace(s: string) {
    forall i :: 0 <= i < |s| ==> IsSpace(s[i])
  }

  /** Neither end of `s` is whitespace: what `str.strip()` leaves. */
  predicate IsTrimmed(s: string) {
    s == [] || (!IsSpace(s[0]) && !IsSpace(s[|s| - 1]))
  }

  /** Already in the form the converters compare against. */
  predicate IsNormal(s: string) {
    IsTrimmed(s) && forall i :: 0 <= i < |s| ==> !IsUpper(s[i])
  }

  /** `lower()` on one character: a capital becomes the same letter of the
      alphabet in lower case; every other character is kept. */
  function LowerChar(c: char): (d: char)
    ensures IsUpper(c) ==> 'a' <= d <= 'z' && d as int - 'a' as int == c as int - 'A' as int
    ensures !IsUpper(d)
    ensures IsSpace(d) <==> IsSpace(c)
    ensures !IsUpper(c) ==> d == c
  {
    if IsUpper(c) then (c as int + 32) as char else c
  }

  /** `str.lower()` restricted to ASCII. */
  function Lower(s: string): (r: string)
    ensures |r| == |s|
    ensures forall i :: 0 <= i < |s| ==> r[i] == LowerChar(s[i])
  {
    if s == [] then [] else [LowerChar(s[0])] + Lower(s[1..])
  }

  /** The first position at or after `i` that is not whitespace (or |s|). */
  function SkipSpaces(s: string, i: nat): (n: nat)
    requires i <= |s|
    ensures i <= n <= |s|
    ensures forall k :: i <= k < n ==> IsSpace(s[k])
    ensures n < |s| ==> !IsSpace(s[n])
    decreases |s| - i
  {
    if i < |s| && IsSpace(s[i]) then SkipSpaces(s, i + 1) else i
  }

  /** The end of `s[..j]` once the whitespace before `j` is dropped. */
  function SkipSpacesBack(s: string, j: nat): (m: nat)
    requires j <= |s|
    ensures m <= j
    ensures forall k :: m <= k < j ==> IsSpace(s[k])
    ensures 0 < m ==> !IsSpace(s[m - 1])
  {
    if 0 < j && IsSpace(s[j - 1]) then SkipSpacesBack(s, j - 1) else j
  }

  /** `str.strip()`: drop the whitespace at both ends. A string that is
      all whitespace strips to the empty string. */
  function Strip(s: string): (r: string)
    ensures IsTrimmed(r)
    ensures |r| <= |s|
  {
    var n := SkipSpaces(s, 0);
    if n == |s| then [] else s[n..SkipSpacesBack(s, |s|)]
  }

  /** `unit.lower().strip()`. */
  function Normalise(unit: string): (r: string)
    ensures IsNormal(r)
  {
    Strip(Lower(unit))
  }

  lemma {:induction false} SkipPadding(a: string, t: string, i: nat)
    requires AllSpace(a) && i <= |a|
    requires t == [] || !IsSpace(t[0])
    ensures SkipSpaces(a + t, i) == |a|
    decreases |a| - i
  {
    if i < |a| {
      assert (a + t)[i] == a[i];
      SkipPadding(a, t, i + 1);
    } else if t != [] {
      assert (a + t)[i] == t[0];
    }
  }

  lemma {:induction false} SkipPaddingBack(t: string, b: string, j: nat)
    requires AllSpace(b) && |t| <= j <= |t| + |b|
    requires t == [] || !IsSpace(t[|t| - 1])
    ensures SkipSpacesBack(t + b, j) == |t|
  {
    if j > |t| {
      assert (t + b)[j - 1] == b[j - 1 - |t|];
      SkipPaddingBack(t, b, j - 1);
    } else if t != [] {
      assert (t + b)[j - 1] == t[|t| - 1];
    }
  }

  lemma AllSpaceAppend(a: string, b: string)
    requires AllSpace(a) && AllSpace(b)
    ensures AllSpace(a + b)
  {
    forall i | 0 <= i < |a + b| ensures IsSpace((a + b)[i]) {
      if i >= |a| { assert (a + b)[i] == b[i - |a|]; }
    }
  }

  /** Strip characterised: whatever whitespace surrounds a trimmed core,
      stripping gives back exactly that core. */
  lemma StripPadded(a: string, c: string, b: string)
    requires AllSpace(a) && AllSpace(b) && IsTrimmed(c)
    ensures Strip(a + c + b) == c
  {
    var s := a + c + b;
    if c == [] {
      AllSpaceAppend(a, b);
      assert s == (a + b) + [];
      SkipPadding(a + b, [], 0);
    } else {
      assert s == a + (c + b);
      SkipPadding(a, c + b, 0);
      assert s == (a + c) + b;
      SkipPaddingBack(a + c, b, |s|);
      assert s[|a|..|a| + |c|] == c;
    }
  }

  /* The small facts below are stated once and called, rather than
     asserted inline, to keep the solver's work per proof small. */

  lemma SplitThree(s: string, n: nat, m: nat)
    requires n <= m <= |s|
    ensures s == s[..n] + s[n..m] + s[m..]
  {
  }

  lemma AllSpacePrefix(s: string, n: nat)
    requires n <= |s|
    requires forall k :: 0 <= k < n ==> IsSpace(s[k])
    ensures AllSpace(s[..n])
  {
  }

  lemma AllSpaceSuffix(s: string, m: nat)
    requires m <= |s|
    requires forall k :: m <= k < |s| ==> IsSpace(s[k])
    ensures AllSpace(s[m..])
  {
  }

  /** A string that is not all whitespace strips to the slice between its
      first and last non-whitespace characters. */
  lemma StripSlice(s: string)
    requires SkipSpaces(s, 0) < |s|
    ensures SkipSpaces(s, 0) < SkipSpacesBack(s, |s|)
    ensures Strip(s) == s[SkipSpaces(s, 0)..SkipSpacesBack(s, |s|)]
  {
  }

  /** Every string is its stripped core with whitespace on either side. */
  lemma StripDecompose(s: string)
    ensures var n, c := SkipSpaces(s, 0), Strip(s);
      n + |c| <= |s| &&
      s == s[..n] + c + s[n + |c|..] &&
      AllSpace(s[..n]) && AllSpace(s[n + |c|..])
  {
    var n := SkipSpaces(s, 0);
    AllSpacePrefix(s, n);
    if n < |s| {
      StripSlice(s);
      var m := SkipSpacesBack(s, |s|);
      SplitThree(s, n, m);
      AllSpaceSuffix(s, m);
    } else {
      SplitThree(s, n, n);
    }
  }

  lemma Regroup(a: string, p: string, c: string, q: string, b: string)
    ensures a + (p + c + q) + b == (a + p) + c + (q + b)
  {
  }

  /** `strip()` ignores any extra whitespace added at either end. */
  lemma StripIgnoresPadding(a: string, s: string, b: string)
    requires AllSpace(a) && AllSpace(b)
    ensures Strip(a + s + b) == Strip(s)
  {
    StripDecompose(s);
    var c := Strip(s);
    var n := SkipSpaces(s, 0);
    var p, q := s[..n], s[n + |c|..];
    Regroup(a, p, c, q, b);
    AllSpaceAppend(a, p);
    AllSpaceAppend(q, b);
    StripPadded(a + p, c, q + b);
  }

  /** Stripping twice is stripping once. */
  lemma StripIdempotent(s: string)
    ensures Strip(Strip(s)) == Strip(s)
  {
    assert Strip(s) == [] + Strip(s) + [];
    StripPadded([], Strip(s), []);
  }

  /** A unit that is already lower-case and trimmed is compared as it is. */
  lemma NormaliseOfNormal(u: string)
    requires IsNormal(u)
    ensures Normalise(u) == u
  {
    assert Lower(u) == u;
    assert u == [] + u + [];
    StripPadded([], u, []);
  }

  /** Normalisation is blind to ASCII case: two spellings that agree letter
      by letter up to case normalise alike. */
  lemma NormaliseIgnoresCase(u: string, v: string)
    requires |u| == |v|
    requires forall i :: 0 <= i < |u| ==> LowerChar(u[i]) == LowerChar(v[i])
    ensures Normalise(u) == Normalise(v)
  {
    assert Lower(u) == Lower(v);
  }

  lemma LowerAppend(s: string, t: string)
    ensures Lower(s + t) == Lower(s) + Lower(t)
  {
    var l, r := Lower(s + t), Lower(s) + Lower(t);
    assert |l| == |r|;
    forall i | 0 <= i < |l| ensures l[i] == r[i] {
      if i < |s| { assert (s + t)[i] == s[i]; } else { assert (s + t)[i] == t[i - |s|]; }
    }
  }

  /** Normalisation is blind to surrounding whitespace. */
  lemma NormaliseIgnoresPadding(a: string, u: string, b: string)
    requires AllSpace(a) && AllSpace(b)
    ensures Normalise(a + u + b) == Normalise(u)
  {
    LowerAppend(a + u, b);
    LowerAppend(a, u);
    StripIgnoresPadding(Lower(a), Lower(u), Lower(b));
  }
}
