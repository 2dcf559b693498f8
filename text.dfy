/** Character and string helpers shared by the model: Python's `str.isspace`,
    `strip`, `startswith`, the `in` operator on strings, slicing and `join`. */
module Text {

  /** The characters Python's `str.isspace` (and the regex class `\s` on str
      patterns) accept. */
  predicate IsSpace(c: char) {
    var n := c as int;
    (9 <= n <= 13) || (28 <= n <= 32) || n == 0x85 || n == 0xA0 || n == 0x1680
    || (0x2000 <= n <= 0x200A) || n == 0x2028 || n == 0x2029 || n == 0x202F
    || n == 0x205F || n == 0x3000
  }

  /** The regex class `\d`, restricted to ASCII digits. */
  predicate IsDigit(c: char) {
    '0' <= c <= '9'
  }

  predicate AllSpaces(s: string) {
    forall i :: 0 <= i < |s| ==> IsSpace(s[i])
  }

  predicate StartsWith(s: string, prefix: string) {
    |prefix| <= |s| && s[..|prefix|] == prefix
  }

  /** `sub` occurs in `s` starting at index `i`. */
  predicate OccursAt(s: string, sub: string, i: nat) {
    i + |sub| <= |s| && s[i..i + |sub|] == sub
  }

  /** Python's `sub in s`. */
  predicate Contains(s: string, sub: string) {
    exists i :: 0 <= i <= |s| && OccursAt(s, sub, i)
  }

  /** The first index at or after `k` that does not hold a space: what a greedy
      `\s*` starting at `k` consumes. */
  function SkipSpaces(s: string, k: nat): (r: nat)
    requires k <= |s|
    ensures k <= r <= |s|
    ensures forall i :: k <= i < r ==> IsSpace(s[i])
    ensures r == |s| || !IsSpace(s[r])
    decreases |s| - k
  {
    if k == |s| || !IsSpace(s[k]) then k else SkipSpaces(s, k + 1)
  }

  /** The index at which the trailing run of spaces of `s` begins. */
  function TrailingStart(s: string): (m: nat)
    ensures m <= |s|
    ensures forall i :: m <= i < |s| ==> IsSpace(s[i])
    ensures m == 0 || !IsSpace(s[m - 1])
  {
    if |s| == 0 || !IsSpace(s[|s| - 1]) then |s| else TrailingStart(s[..|s| - 1])
  }

  /** Python's `s.strip()`: the text between the leading and the trailing spaces. */
  function Strip(s: string): (r: string)
    ensures |r| <= |s|
    ensures r == [] <==> AllSpaces(s)
    ensures r != [] ==> !IsSpace(r[0]) && !IsSpace(r[|r| - 1])
    ensures r != [] ==> exists a :: 0 <= a <= |s| - |r| && s[a..a + |r|] == r
                          && AllSpaces(s[..a]) && AllSpaces(s[a + |r|..])
  {
    var a := SkipSpaces(s, 0);
    var b := TrailingStart(s);
    if a < b then
      assert AllSpaces(s[..a]) && AllSpaces(s[b..]);
      s[a..b]
    else
      []
  }

  /** Python's slice `s[:n]`. */
  function Take(s: string, n: nat): (r: string)
    ensures |r| == if n < |s| then n else |s|
    ensures r <= s
  {
    if n < |s| then s[..n] else s
  }

  /** Python's `sep.join(parts)`. */
  function Join(parts: seq<string>, sep: string): (r: string)
    ensures |parts| == 0 ==> r == []
    ensures |parts| == 1 ==> r == parts[0]
  {
    if |parts| == 0 then []
    else if |parts| == 1 then parts[0]
    else parts[0] + sep + Join(parts[1..], sep)
  }

  lemma AllSpacesConcat(x: string, y: string)
    ensures AllSpaces(x + y) <==> AllSpaces(x) && AllSpaces(y)
  {
    if AllSpaces(x) && AllSpaces(y) {
      forall i | 0 <= i < |x + y| ensures IsSpace((x + y)[i]) {
        if i >= |x| { assert (x + y)[i] == y[i - |x|]; }
      }
    }
    if AllSpaces(x + y) {
      forall i | 0 <= i < |y| ensures IsSpace(y[i]) {
        assert (x + y)[|x| + i] == y[i];
      }
      forall i | 0 <= i < |x| ensures IsSpace(x[i]) {
        assert (x + y)[i] == x[i];
      }
    }
  }

  /** `strip` is fixed by the decomposition: whatever spaces surround a text
      that neither starts nor ends with a space are removed, and only those. */
  lemma StripUnique(p: string, m: string, q: string)
    requires AllSpaces(p) && AllSpaces(q)
    requires m != [] ==> !IsSpace(m[0]) && !IsSpace(m[|m| - 1])
    ensures Strip(p + m + q) == m
  {
    var t := p + m + q;
    if m == [] {
      AllSpacesConcat(p, m);
      AllSpacesConcat(p + m, q);
    } else {
      var a := SkipSpaces(t, 0);
      var b := TrailingStart(t);
      assert forall i :: 0 <= i < |p| ==> t[i] == p[i];
      assert forall i :: |p| + |m| <= i < |t| ==> t[i] == q[i - |p| - |m|];
      assert t[|p|] == m[0];
      assert t[|p| + |m| - 1] == m[|m| - 1];
      assert a == |p|;
      assert b == |p| + |m|;
      assert t[a..b] == m;
    }
  }

  /** A text that neither starts nor ends with a space is its own `strip`. */
  lemma StripNoPadding(m: string)
    requires m != [] ==> !IsSpace(m[0]) && !IsSpace(m[|m| - 1])
    ensures Strip(m) == m
  {
    assert [] + m + [] == m;
    StripUnique([], m, []);
  }

  /** Surrounding a text with more spaces does not change what `strip` keeps. */
  lemma StripPadding(p: string, s: string, q: string)
    requires AllSpaces(p) && AllSpaces(q)
    ensures Strip(p + s + q) == Strip(s)
  {
    var m := Strip(s);
    if m == [] {
      AllSpacesConcat(p, s);
      AllSpacesConcat(p + s, q);
    } else {
      var a :| 0 <= a <= |s| - |m| && s[a..a + |m|] == m && AllSpaces(s[..a]) && AllSpaces(s[a + |m|..]);
      PaddedParts(p, s, q, a, m);
      StripUnique(p + s[..a], m, s[a + |m|..] + q);
    }
  }

  lemma PaddedParts(p: string, s: string, q: string, a: nat, m: string)
    requires AllSpaces(p) && AllSpaces(q)
    requires a + |m| <= |s| && s[a..a + |m|] == m && AllSpaces(s[..a]) && AllSpaces(s[a + |m|..])
    ensures AllSpaces(p + s[..a]) && AllSpaces(s[a + |m|..] + q)
    ensures p + s + q == (p + s[..a]) + m + (s[a + |m|..] + q)
  {
    AllSpacesConcat(p, s[..a]);
    AllSpacesConcat(s[a + |m|..], q);
    assert s == s[..a] + m + s[a + |m|..];
  }

  /** `strip` is idempotent. */
  lemma StripIdempotent(s: string)
    ensures Strip(Strip(s)) == Strip(s)
  {
    StripNoPadding(Strip(s));
  }
}
