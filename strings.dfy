/** The string operations of Go's `strings` package that the tool relies on:
    HasPrefix, TrimPrefix, TrimSuffix and TrimSpace, on strings of Unicode
    scalar values. */
module Strings {

  /** strings.HasPrefix: `s` agrees with `p` on every position of `p`. */
  function HasPrefix(s: string, p: string): (r: bool)
    ensures r <==> |p| <= |s| && forall i :: 0 <= i < |p| ==> s[i] == p[i]
  {
    |p| <= |s| && s[..|p|] == p
  }

  /** strings.HasSuffix */
  predicate HasSuffix(s: string, p: string) {
    |p| <= |s| && s[|s| - |p|..] == p
  }

  /** strings.TrimPrefix: drops one copy of `p` from the front of `s`, if it is there. */
  function TrimPrefix(s: string, p: string): (r: string)
    ensures HasPrefix(s, p) ==> p + r == s
    ensures !HasPrefix(s, p) ==> r == s
  {
    if HasPrefix(s, p) then
      assert s == s[..|p|] + s[|p|..];
      s[|p|..]
    else s
  }

  /** strings.TrimSuffix: drops one copy of `p` from the end of `s`, if it is there. */
  function TrimSuffix(s: string, p: string): (r: string)
    ensures HasSuffix(s, p) ==> r + p == s
    ensures !HasSuffix(s, p) ==> r == s
  {
    if HasSuffix(s, p) then
      assert s == s[..|s| - |p|] + s[|s| - |p|..];
      s[..|s| - |p|]
    else s
  }

  /** unicode.IsSpace, the white-space test behind strings.TrimSpace:
      in the Latin-1 range the six ASCII spaces plus NEL and NBSP, above it
      the characters with the Unicode White_Space property. */
  predicate IsSpace(c: char) {
    if c <= '\U{FF}' then
      c == ' ' || c == '\t' || c == '\n' || c == '\U{0B}' || c == '\U{0C}' || c == '\r'
      || c == '\U{85}' || c == '\U{A0}'
    else
      c == '\U{1680}' || ('\U{2000}' <= c <= '\U{200A}') || c == '\U{2028}' || c == '\U{2029}'
      || c == '\U{202F}' || c == '\U{205F}' || c == '\U{3000}'
  }

  /** The code points with the Unicode White_Space property, as ranges. */
  const WhiteSpace: seq<(char, char)> :=
    [('\U{09}', '\U{0D}'), (' ', ' '), ('\U{85}', '\U{85}'), ('\U{A0}', '\U{A0}'), ('\U{1680}', '\U{1680}'),
     ('\U{2000}', '\U{200A}'), ('\U{2028}', '\U{2029}'), ('\U{202F}', '\U{202F}'), ('\U{205F}', '\U{205F}'),
     ('\U{3000}', '\U{3000}')]

  /** IsSpace is exactly the Unicode White_Space property: its Latin-1
      branch and the table agree below U+0100. */
  lemma IsSpaceIsWhiteSpace(c: char)
    ensures IsSpace(c) <==> exists k :: 0 <= k < |WhiteSpace| && WhiteSpace[k].0 <= c <= WhiteSpace[k].1
  {
    if IsSpace(c) {
      var k := if c <= ' ' then (if c == ' ' then 1 else 0)
               else if c == '\U{85}' then 2 else if c == '\U{A0}' then 3 else if c == '\U{1680}' then 4
               else if c <= '\U{200A}' then 5 else if c <= '\U{2029}' then 6 else if c == '\U{202F}' then 7
               else if c == '\U{205F}' then 8 else 9;
      assert WhiteSpace[k].0 <= c <= WhiteSpace[k].1;
    }
  }

  predicate AllSpace(s: string) {
    forall k :: 0 <= k < |s| ==> IsSpace(s[k])
  }

  /** A string with no white space at either end. */
  predicate Unpadded(s: string) {
    s == [] || (!IsSpace(s[0]) && !IsSpace(s[|s| - 1]))
  }

  /** `r` is `s` with some white space cut from the front and some from the back. */
  predicate CutFrom(s: string, r: string) {
    exists i :: 0 <= i <= |s| - |r| && CutAt(s, r, i)
  }

  /** `r` sits at offset `i` of `s`, with only white space before and after it. */
  predicate CutAt(s: string, r: string, i: int) {
    0 <= i <= |s| - |r| && r == s[i..i + |r|] && AllSpace(s[..i]) && AllSpace(s[i + |r|..])
  }

  /** Drops the white space at the front of `s`. */
  function TrimLeftSpace(s: string): (r: string)
    ensures |r| <= |s| && r == s[|s| - |r|..]
    ensures AllSpace(s[..|s| - |r|])
    ensures r != [] ==> !IsSpace(r[0])
  {
    if s != [] && IsSpace(s[0]) then TrimLeftSpace(s[1..]) else s
  }

  /** Drops the white space at the end of `s`. */
  function TrimRightSpace(s: string): (r: string)
    ensures |r| <= |s| && r == s[..|r|]
    ensures AllSpace(s[|r|..])
    ensures r != [] ==> !IsSpace(r[|r| - 1])
  {
    if s != [] && IsSpace(s[|s| - 1]) then TrimRightSpace(s[..|s| - 1]) else s
  }

  /** strings.TrimSpace: the result is `s` with its leading and trailing white
      space removed, i.e. `s` is all-space padding, then the result, then
      all-space padding, and the result has no white space at either end. */
  function TrimSpace(s: string): (r: string)
    ensures Unpadded(r)
    ensures CutFrom(s, r)
  {
    TrimBothShape(s);
    TrimRightSpace(TrimLeftSpace(s))
  }

  /** The two trimming passes leave a substring of `s` with only white space
      around it, and no white space at either end. */
  lemma TrimBothShape(s: string)
    ensures Unpadded(TrimRightSpace(TrimLeftSpace(s)))
    ensures CutFrom(s, TrimRightSpace(TrimLeftSpace(s)))
  {
    TrimBothUnpadded(s);
    TrimBothCut(s);
  }

  lemma TrimBothUnpadded(s: string)
    ensures Unpadded(TrimRightSpace(TrimLeftSpace(s)))
  {
    var left := TrimLeftSpace(s);
    var r := TrimRightSpace(left);
    if r != [] {
      assert r[0] == left[0];
    }
  }

  lemma TrimBothCut(s: string)
    ensures CutFrom(s, TrimRightSpace(TrimLeftSpace(s)))
  {
    var left := TrimLeftSpace(s);
    var r := TrimRightSpace(left);
    var i := |s| - |left|;
    assert left == s[i..];
    assert r == left[..|r|];
    assert r == s[i..i + |r|];
    assert s[i + |r|..] == left[|r|..];
    assert CutAt(s, r, i);
  }

  /** White space around a string does not change what TrimSpace returns. */
  lemma {:induction false} TrimSpaceIgnoresPadding(a: string, s: string, b: string)
    requires AllSpace(a) && AllSpace(b)
    ensures TrimSpace(a + s + b) == TrimSpace(s)
  {
    TrimBothIgnoresPadding(a, s, b);
  }

  /** The same on the two trimming passes TrimSpace is made of. */
  lemma {:induction false} TrimBothIgnoresPadding(a: string, s: string, b: string)
    requires AllSpace(a) && AllSpace(b)
    ensures TrimRightSpace(TrimLeftSpace(a + s + b)) == TrimRightSpace(TrimLeftSpace(s))
  {
    TrimLeftOuterPadding(a, s, b);
    if TrimLeftSpace(s) == [] {
      TrimLeftSpaceThenPadding(s, b);
    } else {
      TrimLeftAppend(s, b);
      TrimRightPadding(TrimLeftSpace(s), b);
    }
  }

  lemma TrimLeftOuterPadding(a: string, s: string, b: string)
    requires AllSpace(a)
    ensures TrimLeftSpace(a + s + b) == TrimLeftSpace(s + b)
  {
    assert a + s + b == a + (s + b);
    TrimLeftPadding(a, s + b);
  }

  lemma TrimLeftSpaceThenPadding(s: string, b: string)
    requires TrimLeftSpace(s) == [] && AllSpace(b)
    ensures TrimLeftSpace(s + b) == []
  {
    assert s[..|s|] == s;
    forall k | 0 <= k < |s + b|
      ensures IsSpace((s + b)[k])
    {
      if k < |s| {
        assert (s + b)[k] == s[..|s|][k];
      } else {
        assert (s + b)[k] == b[k - |s|];
      }
    }
    TrimLeftAllSpace(s + b);
  }

  lemma TrimLeftAllSpace(s: string)
    requires AllSpace(s)
    ensures TrimLeftSpace(s) == []
  {
  }

  lemma {:induction false} TrimLeftPadding(a: string, s: string)
    requires AllSpace(a)
    ensures TrimLeftSpace(a + s) == TrimLeftSpace(s)
  {
    if a != [] {
      assert (a + s)[0] == a[0] && IsSpace(a[0]);
      assert (a + s)[1..] == a[1..] + s;
      assert AllSpace(a[1..]);
      TrimLeftPadding(a[1..], s);
    } else {
      assert a + s == s;
    }
  }

  lemma {:induction false} TrimRightPadding(s: string, b: string)
    requires AllSpace(b)
    ensures TrimRightSpace(s + b) == TrimRightSpace(s)
  {
    if b != [] {
      assert (s + b)[|s + b| - 1] == b[|b| - 1] && IsSpace(b[|b| - 1]);
      assert (s + b)[..|s + b| - 1] == s + b[..|b| - 1];
      assert AllSpace(b[..|b| - 1]);
      TrimRightPadding(s, b[..|b| - 1]);
    } else {
      assert s + b == s;
    }
  }

  /** Once `s` has a non-space character, trimming the front of `s + b` never reaches `b`. */
  lemma {:induction false} TrimLeftAppend(s: string, b: string)
    requires TrimLeftSpace(s) != []
    ensures TrimLeftSpace(s + b) == TrimLeftSpace(s) + b
  {
    assert s != [] && (s + b)[0] == s[0];
    if IsSpace(s[0]) {
      assert (s + b)[1..] == s[1..] + b;
      TrimLeftAppend(s[1..], b);
    }
  }

  /** TrimSpace leaves a string alone exactly when it has no white space at either end. */
  lemma TrimSpaceFixpoint(s: string)
    ensures TrimSpace(s) == s <==> Unpadded(s)
  {
    if Unpadded(s) {
      assert TrimLeftSpace(s) == s;
      assert TrimRightSpace(s) == s;
    }
  }

  /** Trimming twice is the same as trimming once. */
  lemma TrimSpaceIdempotent(s: string)
    ensures TrimSpace(TrimSpace(s)) == TrimSpace(s)
  {
    TrimSpaceFixpoint(TrimSpace(s));
  }
}
