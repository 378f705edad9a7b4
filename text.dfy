/**
 * The string operations of the Python standard library that the scripts rely on:
 * `str.strip()` (no argument), membership of a substring, `str.endswith` and
 * `os.path.join` on POSIX.
 */
module Text {

  /**
   * `str.isspace()` of one character: the characters with Unicode bidirectional
   * class WS, B or S, or general category Zs.
   */
  predicate IsSpace(c: char) {
    || '\U{9}' <= c <= '\U{D}'
    || '\U{1C}' <= c <= '\U{20}'
    || c == '\U{85}' || c == '\U{A0}' || c == '\U{1680}'
    || '\U{2000}' <= c <= '\U{200A}'
    || c == '\U{2028}' || c == '\U{2029}' || c == '\U{202F}'
    || c == '\U{205F}' || c == '\U{3000}'
  }

  predicate AllSpace(s: string) {
    forall k :: 0 <= k < |s| ==> IsSpace(s[k])
  }

  /** Neither the first nor the last character of `s` is whitespace. */
  predicate IsStripped(s: string) {
    s == [] || (!IsSpace(s[0]) && !IsSpace(s[|s| - 1]))
  }

  /** The number of whitespace characters at the start of `s`. */
  function LeadingSpaces(s: string): (n: nat)
    ensures n <= |s|
    ensures forall k :: 0 <= k < n ==> IsSpace(s[k])
    ensures n < |s| ==> !IsSpace(s[n])
  {
    if |s| > 0 && IsSpace(s[0]) then 1 + LeadingSpaces(s[1..]) else 0
  }

  /** The number of whitespace characters at the end of `s`. */
  function TrailingSpaces(s: string): (n: nat)
    ensures n <= |s|
    ensures forall k :: |s| - n <= k < |s| ==> IsSpace(s[k])
    ensures n < |s| ==> !IsSpace(s[|s| - 1 - n])
  {
    if |s| > 0 && IsSpace(s[|s| - 1]) then 1 + TrailingSpaces(s[..|s| - 1]) else 0
  }

  /**
   * Python's `s.strip()`: `s` without its leading and trailing whitespace. The result
   * does not itself start or end with whitespace; it is a slice of `s` flanked by
   * whitespace only (StripIsStripping), and StripUnique shows that this determines it.
   */
  function Strip(s: string): (r: string)
    ensures IsStripped(r)
  {
    var t := s[LeadingSpaces(s)..];
    var r := t[..|t| - TrailingSpaces(t)];
    assert r != [] ==> r[0] == s[LeadingSpaces(s)];
    r
  }

  /** `r` is `s` with the whitespace around it removed: a stripped slice of `s` flanked by whitespace only. */
  ghost predicate IsStrippingOf(r: string, s: string) {
    IsStripped(r)
    && exists i :: 0 <= i <= |s| - |r| && s[i..i + |r|] == r && AllSpace(s[..i]) && AllSpace(s[i + |r|..])
  }

  /** `strip` removes exactly the surrounding whitespace. */
  lemma StripIsStripping(s: string)
    ensures IsStrippingOf(Strip(s), s)
  {
    var i := LeadingSpaces(s);
    var t := s[i..];
    var j := TrailingSpaces(t);
    var r := t[..|t| - j];
    assert Strip(s) == r;
    assert s[i..i + |r|] == r;
    assert AllSpace(s[..i]);
    assert s[i + |r|..] == t[|t| - j..];
    assert AllSpace(t[|t| - j..]);
  }

  /** A string of whitespace followed by a non-whitespace start has exactly that many leading spaces. */
  lemma {:induction false} LeadingSpacesOf(p: string, t: string)
    requires AllSpace(p)
    requires t == [] || !IsSpace(t[0])
    ensures LeadingSpaces(p + t) == |p|
  {
    if p == [] {
      assert p + t == t;
    } else {
      assert (p + t)[0] == p[0];
      assert (p + t)[1..] == p[1..] + t;
      LeadingSpacesOf(p[1..], t);
    }
  }

  /** A string followed by whitespace only, whose own end is not whitespace, has that many trailing spaces. */
  lemma {:induction false} TrailingSpacesOf(t: string, q: string)
    requires AllSpace(q)
    requires t == [] || !IsSpace(t[|t| - 1])
    ensures TrailingSpaces(t + q) == |q|
  {
    if q == [] {
      assert t + q == t;
    } else {
      var s := t + q;
      assert s[|s| - 1] == q[|q| - 1];
      assert s[..|s| - 1] == t + q[..|q| - 1];
      TrailingSpacesOf(t, q[..|q| - 1]);
    }
  }

  /** Whitespace around a stripped core is removed and the core is kept intact. */
  lemma StripPadded(p: string, m: string, q: string)
    requires AllSpace(p) && AllSpace(q) && IsStripped(m)
    ensures Strip(p + m + q) == m
  {
    var s := p + m + q;
    if m == [] {
      assert s == p + q;
      assert AllSpace(s);
    } else {
      assert s == p + (m + q);
      LeadingSpacesOf(p, m + q);
      assert s[|p|..] == m + q;
      TrailingSpacesOf(m, q);
    }
  }

  /** `strip` is characterised by IsStrippingOf: no other string is a stripping of `s`. */
  lemma StripUnique(s: string, m: string)
    requires IsStrippingOf(m, s)
    ensures Strip(s) == m
  {
    var i :| 0 <= i <= |s| - |m| && s[i..i + |m|] == m && AllSpace(s[..i]) && AllSpace(s[i + |m|..]);
    SplitAround(s, i, i + |m|);
    StripPadded(s[..i], m, s[i + |m|..]);
  }

  /** A string is the concatenation of its three slices at `i` and `k`. */
  lemma SplitAround(s: string, i: nat, k: nat)
    requires i <= k <= |s|
    ensures s == s[..i] + s[i..k] + s[k..]
  {
  }

  /** Stripping twice is stripping once. */
  lemma StripIdempotent(s: string)
    ensures Strip(Strip(s)) == Strip(s)
  {
    var r := Strip(s);
    assert [] + r + [] == r;
    StripPadded([], r, []);
  }

  /** `x in s` for strings: `x` occurs in `s` as a contiguous substring. */
  predicate IsInfix(x: string, s: string) {
    exists i :: 0 <= i <= |s| - |x| && x <= s[i..]
  }

  /** `s.endswith(suffix)`. */
  predicate EndsWith(s: string, suffix: string) {
    |suffix| <= |s| && s[|s| - |suffix|..] == suffix
  }

  /** `s.startswith(prefix)`. */
  predicate StartsWith(s: string, prefix: string) {
    prefix <= s
  }

  /**
   * POSIX `os.path.join(a, b)`: an absolute `b` replaces `a`; otherwise a separator
   * is inserted unless `a` is empty or already ends with one.
   */
  function Join(a: string, b: string): (r: string)
    ensures EndsWith(r, b)
    ensures !StartsWith(b, "/") ==> StartsWith(r, a)
  {
    if StartsWith(b, "/") then b
    else if a == [] || EndsWith(a, "/") then a + b
    else a + "/" + b
  }
}
