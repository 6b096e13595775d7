/** Python's `str.lstrip`, `str.rstrip` and `str.strip` over a class of
    characters, with exact characterisations of what they remove. */
module Text {

  /** Python's `str.isspace` for one character: the characters the
      argument-less `strip()` and `lstrip()` remove. */
  predicate IsSpace(c: char) {
    || ('\t' <= c <= '\r')
    || ('\U{1C}' <= c <= '\U{20}')
    || c == '\U{85}' || c == '\U{A0}' || c == '\U{1680}'
    || ('\U{2000}' <= c <= '\U{200A}')
    || c == '\U{2028}' || c == '\U{2029}' || c == '\U{202F}' || c == '\U{205F}' || c == '\U{3000}'
  }

  /** The character `strip("`")` removes. */
  predicate IsBacktick(c: char) {
    c == '`'
  }

  /** Python's `s.lstrip(chars)`: the longest suffix of `s` that does not
      start with a character of the class. */
  function TrimStart(s: string, drop: char -> bool): (r: string)
    ensures |r| <= |s| && r == s[|s| - |r|..]
    ensures forall i :: 0 <= i < |s| - |r| ==> drop(s[i])
    ensures r == [] || !drop(r[0])
    decreases |s|
  {
    if |s| > 0 && drop(s[0]) then TrimStart(s[1..], drop) else s
  }

  /** Python's `s.rstrip(chars)`: the longest prefix of `s` that does not
      end with a character of the class. */
  function TrimEnd(s: string, drop: char -> bool): (r: string)
    ensures |r| <= |s| && r == s[..|r|]
    ensures forall i :: |r| <= i < |s| ==> drop(s[i])
    ensures r == [] || !drop(r[|r| - 1])
    decreases |s|
  {
    if |s| > 0 && drop(s[|s| - 1]) then TrimEnd(s[..|s| - 1], drop) else s
  }

  /** Python's `s.strip(chars)`: what is left is one contiguous run of `s`
      whose ends lie outside the class. */
  function Strip(s: string, drop: char -> bool): (r: string)
    ensures IsSlice(r, s)
    ensures r == [] || (!drop(r[0]) && !drop(r[|r| - 1]))
  {
    var e := TrimEnd(s, drop);
    var r := TrimStart(e, drop);
    assert s[|e| - |r|..|e|] == r;
    assert r == [] || r[|r| - 1] == e[|e| - 1];
    r
  }

  /** `r` occurs in `s` as one contiguous run. */
  predicate IsSlice(r: string, s: string) {
    exists i, j :: 0 <= i <= j <= |s| && s[i..j] == r
  }

  /** A run of a run of `s` is a run of `s`. */
  lemma SliceOfSlice(r: string, t: string, s: string)
    requires IsSlice(r, t) && IsSlice(t, s)
    ensures IsSlice(r, s)
  {
    var i, j :| 0 <= i <= j <= |t| && t[i..j] == r;
    var k, l :| 0 <= k <= l <= |s| && s[k..l] == t;
    forall x | 0 <= x < j - i
      ensures s[k + i..k + j][x] == r[x]
    {
      assert r[x] == t[i + x] == s[k + i + x];
    }
    assert s[k + i..k + j] == r;
  }

  /** Every character of `s` belongs to the class. */
  predicate All(s: string, drop: char -> bool) {
    forall i :: 0 <= i < |s| ==> drop(s[i])
  }

  /** Left-trimming removes exactly a leading run of the class and nothing
      more: it is the unique split into such a run and a remainder. */
  lemma TrimStartExact(p: string, q: string, drop: char -> bool)
    requires All(p, drop)
    requires q == [] || !drop(q[0])
    ensures TrimStart(p + q, drop) == q
  {
    var s := p + q;
    assert s[|p|..] == q;
  }

  /** Right-trimming removes exactly a trailing run of the class. */
  lemma TrimEndExact(p: string, q: string, drop: char -> bool)
    requires All(q, drop)
    requires p == [] || !drop(p[|p| - 1])
    ensures TrimEnd(p + q, drop) == p
  {
    var s := p + q;
    assert s[..|p|] == p;
  }

  /** Stripping a string surrounded by runs of the class, whose own ends lie
      outside the class, returns exactly that string. */
  lemma StripExact(a: string, m: string, b: string, drop: char -> bool)
    requires All(a, drop) && All(b, drop)
    requires m == [] || (!drop(m[0]) && !drop(m[|m| - 1]))
    ensures Strip(a + m + b, drop) == m
  {
    if m == [] {
      assert a + m + b == a + b;
      TrimEndExact([], a + b, drop);
      assert [] + (a + b) == a + b;
    } else {
      TrimEndExact(a + m, b, drop);
      TrimStartExact(a, m, drop);
    }
  }
}
