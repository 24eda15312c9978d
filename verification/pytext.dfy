/** The two pieces of Python string semantics the scanner relies on:
    `str.strip()` with no argument, and the `in` operator on two strings. */
module PyText {

  /** The characters Python 2's `str.strip()` removes: space, tab, line feed,
      carriage return, vertical tab and form feed. */
  predicate IsSpace(c: char) {
    c == ' ' || c == '\t' || c == '\n' || c == '\r' || c == 11 as char || c == 12 as char
  }

  predicate AllSpace(s: string) {
    forall i :: 0 <= i < |s| ==> IsSpace(s[i])
  }

  /** `s` with its leading whitespace removed: a suffix of `s` that does not start with whitespace. */
  function TrimLeft(s: string): (r: string)
    ensures |r| <= |s| && r == s[|s| - |r|..]
    ensures AllSpace(s[..|s| - |r|])
    ensures r != [] ==> !IsSpace(r[0])
  {
    if |s| > 0 && IsSpace(s[0]) then TrimLeft(s[1..]) else s
  }

  /** `s` with its trailing whitespace removed: a prefix of `s` that does not end with whitespace. */
  function TrimRight(s: string): (r: string)
    ensures |r| <= |s| && r == s[..|r|]
    ensures AllSpace(s[|r|..])
    ensures r != [] ==> !IsSpace(r[|r| - 1])
  {
    if |s| > 0 && IsSpace(s[|s| - 1]) then TrimRight(s[..|s| - 1]) else s
  }

  /** Python's `s.strip()`. */
  function Strip(s: string): (r: string)
    ensures |r| <= |s|
    ensures r != [] ==> !IsSpace(r[0]) && !IsSpace(r[|r| - 1])
    ensures r == [] <==> AllSpace(s)
  {
    var t := TrimLeft(s);
    assert AllSpace(s) ==> t == [];
    TrimRight(t)
  }

  lemma {:induction false} TrimLeftPadded(p: string, t: string)
    requires AllSpace(p)
    requires t == [] || !IsSpace(t[0])
    ensures TrimLeft(p + t) == t
  {
    if p != [] {
      assert (p + t)[1..] == p[1..] + t;
      TrimLeftPadded(p[1..], t);
    }
  }

  lemma {:induction false} TrimRightPadded(t: string, q: string)
    requires AllSpace(q)
    requires t == [] || !IsSpace(t[|t| - 1])
    ensures TrimRight(t + q) == t
  {
    if q != [] {
      assert (t + q)[..|t + q| - 1] == t + q[..|q| - 1];
      TrimRightPadded(t, q[..|q| - 1]);
    }
  }

  /** `strip` removes exactly the surrounding whitespace: whatever whitespace
      pads a string that neither starts nor ends with whitespace, `strip` gives that string back. */
  lemma {:induction false} StripOfPadded(p: string, core: string, q: string)
    requires AllSpace(p) && AllSpace(q)
    requires core != [] ==> !IsSpace(core[0]) && !IsSpace(core[|core| - 1])
    ensures Strip(p + core + q) == core
  {
    if core == [] {
      assert p + core + q == p + q + [];
      TrimLeftPadded(p + q, []);
    } else {
      assert p + core + q == p + (core + q);
      TrimLeftPadded(p, core + q);
      TrimRightPadded(core, q);
    }
  }

  /** Stripping twice is stripping once. */
  lemma {:induction false} StripIdempotent(s: string)
    ensures Strip(Strip(s)) == Strip(s)
  {
    var r := Strip(s);
    assert AllSpace([]);
    assert [] + r + [] == r;
    StripOfPadded([], r, []);
  }

  /** `needle` starts `hay`. */
  predicate StartsWith(hay: string, needle: string) {
    |needle| <= |hay| && hay[..|needle|] == needle
  }

  /** Python's `needle in hay` on two strings: `needle` occurs somewhere in `hay`. */
  predicate IsSubstring(needle: string, hay: string)
    decreases |hay|
  {
    StartsWith(hay, needle) || (hay != [] && IsSubstring(needle, hay[1..]))
  }

  /** Whatever surrounds it, a string occurs in the concatenation. */
  lemma {:induction false} SubstringOfConcat(pre: string, needle: string, post: string)
    ensures IsSubstring(needle, pre + needle + post)
  {
    if pre == [] {
      assert (pre + needle + post)[..|needle|] == needle;
    } else {
      assert (pre + needle + post)[1..] == pre[1..] + needle + post;
      SubstringOfConcat(pre[1..], needle, post);
    }
  }

  /** A string holding a character that `hay` lacks does not occur in `hay`. */
  lemma {:induction false} NotSubstringWithoutChar(needle: string, hay: string, c: char)
    requires c in needle && c !in hay
    ensures !IsSubstring(needle, hay)
    decreases |hay|
  {
    if hay != [] {
      NotSubstringWithoutChar(needle, hay[1..], c);
    }
  }
}
