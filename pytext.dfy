/** Python's `str.strip()` with no argument: removes leading and trailing
    whitespace, where whitespace is what `str.isspace` accepts. */
module PyText {

  /** The ASCII characters `str.isspace` accepts: tab, line feed, vertical
      tab, form feed, carriage return, the four information separators and
      space. */
  const AsciiSpace: string := "\t\n\U{B}\U{C}\r\U{1C}\U{1D}\U{1E}\U{1F} "

  /** The code points Python's `str.isspace` accepts: the ASCII ones above,
      and beyond ASCII the Unicode separators and the other characters with
      a whitespace bidirectional class, all of them at or below U+3000. */
  predicate IsSpace(c: char): (b: bool)
    ensures c as int < 0x80 ==> (b <==> c in AsciiSpace)
    ensures b ==> c as int <= 0x3000
  {
    var n := c as int;
    || (0x09 <= n <= 0x0D)
    || (0x1C <= n <= 0x20)
    || n == 0x85 || n == 0xA0 || n == 0x1680
    || (0x2000 <= n <= 0x200A)
    || n == 0x2028 || n == 0x2029 || n == 0x202F || n == 0x205F || n == 0x3000
  }

  predicate AllSpace(s: string) {
    forall i :: 0 <= i < |s| ==> IsSpace(s[i])
  }

  /** Non-empty, and neither its first nor its last character is whitespace. */
  predicate Trimmed(s: string) {
    s != [] && !IsSpace(s[0]) && !IsSpace(s[|s| - 1])
  }

  /** `s.lstrip()`: the longest suffix of `s` that does not start with whitespace. */
  function StripLeading(s: string): (r: string)
    ensures |r| <= |s| && r == s[|s| - |r|..]
    ensures AllSpace(s[..|s| - |r|])
    ensures r != [] ==> !IsSpace(r[0])
  {
    if s != [] && IsSpace(s[0]) then StripLeading(s[1..]) else s
  }

  /** `s.rstrip()`: the longest prefix of `s` that does not end with whitespace. */
  function StripTrailing(s: string): (r: string)
    ensures |r| <= |s| && r == s[..|r|]
    ensures AllSpace(s[|r|..])
    ensures r != [] ==> !IsSpace(r[|r| - 1])
  {
    if s != [] && IsSpace(s[|s| - 1]) then StripTrailing(s[..|s| - 1]) else s
  }

  /** `s.strip()`. */
  function Strip(s: string): (r: string)
    ensures |r| <= |s|
    ensures r != [] ==> !IsSpace(r[0]) && !IsSpace(r[|r| - 1])
  {
    StripTrailing(StripLeading(s))
  }

  /** `(w + u).lstrip() == u` when `w` is whitespace and `u` does not start with whitespace. */
  lemma {:induction false} StripLeadingAfterSpace(w: string, u: string)
    requires AllSpace(w)
    requires u != [] ==> !IsSpace(u[0])
    ensures StripLeading(w + u) == u
  {
    if w != [] {
      assert (w + u)[1..] == w[1..] + u;
      StripLeadingAfterSpace(w[1..], u);
    }
  }

  /** `(u + w).rstrip() == u` when `w` is whitespace and `u` does not end with whitespace. */
  lemma {:induction false} StripTrailingBeforeSpace(u: string, w: string)
    requires AllSpace(w)
    requires u != [] ==> !IsSpace(u[|u| - 1])
    ensures StripTrailing(u + w) == u
  {
    if w != [] {
      assert (u + w)[..|u + w| - 1] == u + w[..|w| - 1];
      StripTrailingBeforeSpace(u, w[..|w| - 1]);
    }
  }

  /** Stripping `w1 + t + w2`, where `w1` and `w2` are whitespace and `t`
      has no whitespace at either end, yields exactly `t`. */
  lemma StripExact(w1: string, t: string, w2: string)
    requires AllSpace(w1) && AllSpace(w2) && Trimmed(t)
    ensures Strip(w1 + t + w2) == t
  {
    assert w1 + t + w2 == w1 + (t + w2);
    StripLeadingAfterSpace(w1, t + w2);
    StripTrailingBeforeSpace(t, w2);
  }

  /** Stripping a string that is only whitespace yields the empty string. */
  lemma StripAllSpace(s: string)
    requires AllSpace(s)
    ensures Strip(s) == []
  {
    assert s + [] == s;
    StripLeadingAfterSpace(s, []);
  }
}
