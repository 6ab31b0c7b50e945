/** The string operations the script relies on: `str.strip()`, `str.startswith()`,
    and, for reading a connection URI back, splitting at a separator. */
module Text {

  /** The characters Python's `str.isspace()` accepts, as a fixed set:
      TAB..CR, the four information separators, SPACE, NEL, NBSP,
      OGHAM SPACE MARK, EN QUAD..HAIR SPACE, the line and paragraph
      separators, NNBSP, MMSP and IDEOGRAPHIC SPACE. */
  predicate IsSpace(c: char) {
    || c == ' '
    || '\t' <= c <= '\r'
    || '\U{1C}' <= c <= '\U{1F}'
    || c == '\U{85}'
    || c == '\U{A0}'
    || c == '\U{1680}'
    || '\U{2000}' <= c <= '\U{200A}'
    || c == '\U{2028}'
    || c == '\U{2029}'
    || c == '\U{202F}'
    || c == '\U{205F}'
    || c == '\U{3000}'
  }

  predicate AllSpace(s: string) {
    forall i :: 0 <= i < |s| ==> IsSpace(s[i])
  }

  /** `s.startswith(p)`: a raw, case-sensitive prefix test. */
  predicate StartsWith(s: string, p: string) {
    |p| <= |s| && s[..|p|] == p
  }

  /** One differing position inside `p` is enough to rule out the prefix. */
  lemma NotStartsWithAt(s: string, p: string, i: int)
    requires 0 <= i < |p| && i < |s| && s[i] != p[i]
    ensures !StartsWith(s, p)
  {
    if |p| <= |s| {
      assert s[..|p|][i] == s[i];
    }
  }

  /** `s.lstrip()`: the longest suffix of `s` that does not start with whitespace,
      everything cut off being whitespace. */
  function TrimLeft(s: string): (r: string)
    ensures |r| <= |s| && r == s[|s| - |r|..]
    ensures forall i :: 0 <= i < |s| - |r| ==> IsSpace(s[i])
    ensures r == [] || !IsSpace(r[0])
    decreases |s|
  {
    if |s| > 0 && IsSpace(s[0]) then
      var r := TrimLeft(s[1..]);
      assert forall i :: 1 <= i < |s| - |r| ==> s[i] == s[1..][i - 1];
      r
    else
      s
  }

  /** `s.rstrip()`: the longest prefix of `s` that does not end with whitespace,
      everything cut off being whitespace. */
  function TrimRight(s: string): (r: string)
    ensures |r| <= |s| && r == s[..|r|]
    ensures forall i :: |r| <= i < |s| ==> IsSpace(s[i])
    ensures r == [] || !IsSpace(r[|r| - 1])
    decreases |s|
  {
    if |s| > 0 && IsSpace(s[|s| - 1]) then
      var r := TrimRight(s[..|s| - 1]);
      assert forall i :: |r| <= i < |s| - 1 ==> s[i] == s[..|s| - 1][i];
      r
    else
      s
  }

  /** `s.strip()`: whitespace removed from both ends. The result is empty exactly
      when `s` is all whitespace, and otherwise starts and ends with a
      non-whitespace character. */
  function Strip(s: string): (r: string)
    ensures |r| <= |s|
    ensures r == [] <==> AllSpace(s)
    ensures r != [] ==> !IsSpace(r[0]) && !IsSpace(r[|r| - 1])
  {
    var t := TrimLeft(s);
    var r := TrimRight(t);
    StripParts(s, t, r);
    r
  }

  /** The facts behind `Strip`, over `t`, what `TrimLeft` left of `s`, and `r`,
      what `TrimRight` left of `t`. */
  lemma StripParts(s: string, t: string, r: string)
    requires |t| <= |s| && t == s[|s| - |t|..]
    requires forall i :: 0 <= i < |s| - |t| ==> IsSpace(s[i])
    requires t == [] || !IsSpace(t[0])
    requires |r| <= |t| && r == t[..|r|]
    requires forall i :: |r| <= i < |t| ==> IsSpace(t[i])
    requires r == [] || !IsSpace(r[|r| - 1])
    ensures r == [] <==> AllSpace(s)
    ensures r != [] ==> !IsSpace(r[0])
  {
    var k := |s| - |t|;
    if r != [] {
      assert s[k + |r| - 1] == r[|r| - 1];
      assert r[0] == t[0];
    }
  }

  /** The same pieces, read as a position in `s`: `r` sits at offset `|s| - |t|`
      with whitespace on both sides. */
  lemma InfixParts(s: string, t: string, r: string)
    requires |t| <= |s| && t == s[|s| - |t|..]
    requires |r| <= |t| && r == t[..|r|]
    requires forall i :: |r| <= i < |t| ==> IsSpace(t[i])
    ensures var i := |s| - |t|;
            && i + |r| <= |s|
            && r == s[i..i + |r|]
            && (forall k :: i + |r| <= k < |s| ==> IsSpace(s[k]))
  {
    var i := |s| - |t|;
    forall k | i + |r| <= k < |s|
      ensures IsSpace(s[k])
    {
      assert s[k] == t[k - i];
    }
  }

  /** What `Strip` keeps is a contiguous piece of `s`, starting at `i`, with only
      whitespace on either side of it. */
  lemma StripIsInfix(s: string) returns (i: nat)
    ensures i + |Strip(s)| <= |s|
    ensures Strip(s) == s[i..i + |Strip(s)|]
    ensures forall k :: 0 <= k < i ==> IsSpace(s[k])
    ensures forall k :: i + |Strip(s)| <= k < |s| ==> IsSpace(s[k])
  {
    var t := TrimLeft(s);
    var r := TrimRight(t);
    assert Strip(s) == r;
    InfixParts(s, t, r);
    i := |s| - |t|;
  }

  /** Stripping twice is stripping once. */
  lemma StripIdempotent(s: string)
    ensures Strip(Strip(s)) == Strip(s)
  {
    var r := Strip(s);
    if r != [] {
      assert TrimLeft(r) == r;
      assert TrimRight(r) == r;
    }
  }

  /** Leading whitespace in front of a piece that starts with a non-space
      character is exactly what `TrimLeft` removes. */
  lemma {:induction false} TrimLeftSkips(ws: string, x: string)
    requires AllSpace(ws)
    requires x == [] || !IsSpace(x[0])
    ensures TrimLeft(ws + x) == x
    decreases |ws|
  {
    if ws != [] {
      assert (ws + x)[1..] == ws[1..] + x;
      TrimLeftSkips(ws[1..], x);
    }
  }

  /** A non-space character is never cut off by `TrimRight`. */
  lemma {:induction false} TrimRightKeeps(t: string, j: int)
    requires 0 <= j < |t| && !IsSpace(t[j])
    ensures j < |TrimRight(t)|
    decreases |t|
  {
    if IsSpace(t[|t| - 1]) {
      assert t[..|t| - 1][j] == t[j];
      TrimRightKeeps(t[..|t| - 1], j);
    }
  }

  /** For a prefix made of non-space characters, trailing whitespace is
      irrelevant: `s.strip().startswith(p)` iff `s.lstrip().startswith(p)`. */
  lemma StripStartsWith(s: string, p: string)
    requires p != []
    requires forall i :: 0 <= i < |p| ==> !IsSpace(p[i])
    ensures StartsWith(Strip(s), p) <==> StartsWith(TrimLeft(s), p)
  {
    var t := TrimLeft(s);
    var r := TrimRight(t);
    assert Strip(s) == r;
    if StartsWith(t, p) {
      TrimRightKeeps(t, |p| - 1);
      assert r[..|p|] == t[..|p|];
    }
    if StartsWith(r, p) {
      assert t[..|p|] == r[..|p|];
    }
  }

  /** `Find(s, c)`: the index of the first `c` in `s`, if any. */
  function Find(s: string, c: char): (k: int)
    ensures -1 <= k < |s|
    ensures k >= 0 ==> s[k] == c && c !in s[..k]
    ensures k < 0 <==> c !in s
  {
    if |s| == 0 then -1
    else if s[0] == c then 0
    else
      var k := Find(s[1..], c);
      assert s == [s[0]] + s[1..];
      if k < 0 then -1
      else
        assert s[..k + 1] == [s[0]] + s[1..][..k];
        k + 1
  }

  /** Splits `s` at the first `c`: the text before it and the text after it. */
  function SplitFirst(s: string, c: char): (r: (string, string))
    requires c in s
    ensures s == r.0 + [c] + r.1
    ensures c !in r.0
  {
    var k := Find(s, c);
    assert s == s[..k] + [c] + s[k + 1..];
    (s[..k], s[k + 1..])
  }

  /** The first `c` of `a + [c] + b` is the one after `a` when `a` has none. */
  lemma {:induction false} FindAfter(a: string, c: char, b: string)
    requires c !in a
    ensures Find(a + [c] + b, c) == |a|
    decreases |a|
  {
    if a != [] {
      assert (a + [c] + b)[1..] == a[1..] + [c] + b;
      FindAfter(a[1..], c, b);
    }
  }

  /** Splitting `a + [c] + b` at the first `c` recovers `a` and `b` when `a` does
      not itself contain `c`. */
  lemma SplitFirstJoin(a: string, c: char, b: string)
    requires c !in a
    ensures c in a + [c] + b
    ensures SplitFirst(a + [c] + b, c) == (a, b)
  {
    var s := a + [c] + b;
    assert s[|a|] == c;
    FindAfter(a, c, b);
    assert s[..|a|] == a;
    assert s[|a| + 1..] == b;
  }
}
