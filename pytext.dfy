/** The three Python string methods the query guard relies on: str.strip(),
    str.upper() and str.startswith(), restricted to ASCII behaviour. */
module PyText {

  /** str.isspace() on an ASCII character: tab, line feed, vertical tab, form
      feed, carriage return (0x09-0x0D), the four separators 0x1C-0x1F, space. */
  predicate IsSpace(c: char) {
    9 <= c as int <= 13 || 28 <= c as int <= 32
  }

  predicate AllSpace(s: string) {
    forall i :: 0 <= i < |s| ==> IsSpace(s[i])
  }

  /** str.upper() on one character: ASCII lower-case letters map to upper case,
      everything else is left alone. No lower-case letter is left, and whitespace
      stays exactly whitespace. */
  function UpperChar(c: char): (u: char)
    ensures !('a' <= u <= 'z')
    ensures IsSpace(u) <==> IsSpace(c)
  {
    if 'a' <= c <= 'z' then (c as int - 32) as char else c
  }

  /** str.upper(): upper-casing the result again changes nothing, and no
      lower-case letter is left. */
  function Upper(s: string): (u: string)
    ensures SameUpper(s, u)
    ensures forall i :: 0 <= i < |u| ==> !('a' <= u[i] <= 'z')
  {
    seq(|s|, i requires 0 <= i < |s| => UpperChar(s[i]))
  }

  /** Two strings that str.upper() cannot tell apart, position by position. */
  predicate SameUpper(s: string, t: string) {
    |s| == |t| && forall i :: 0 <= i < |s| ==> UpperChar(s[i]) == UpperChar(t[i])
  }

  /** str.lstrip(): the longest suffix of s that does not start with whitespace. */
  function LStrip(s: string): (r: string)
    ensures |r| <= |s| && r == s[|s| - |r|..]
    ensures AllSpace(s[..|s| - |r|])
    ensures r == [] || !IsSpace(r[0])
    decreases |s|
  {
    if s != [] && IsSpace(s[0]) then LStrip(s[1..]) else s
  }

  /** str.rstrip(): the longest prefix of s that does not end with whitespace. */
  function RStrip(s: string): (r: string)
    ensures |r| <= |s| && r == s[..|r|]
    ensures AllSpace(s[|r|..])
    ensures r == [] || !IsSpace(r[|r| - 1])
    decreases |s|
  {
    if s != [] && IsSpace(s[|s| - 1]) then RStrip(s[..|s| - 1]) else s
  }

  /** str.strip(): whitespace removed from both ends. */
  function Strip(s: string): (r: string)
    ensures r == [] || (!IsSpace(r[0]) && !IsSpace(r[|r| - 1]))
    ensures r <= LStrip(s) && AllSpace(LStrip(s)[|r|..])
  {
    RStrip(LStrip(s))
  }

  /** A character that str.upper() maps to whitespace was whitespace already. */
  lemma UpperKeepsSpace(c: char, d: char)
    requires UpperChar(c) == UpperChar(d)
    ensures IsSpace(c) <==> IsSpace(d)
  {
  }

  /** Leading whitespace makes no difference to str.lstrip(). */
  lemma {:induction false} LStripSkipsSpace(w: string, s: string)
    requires AllSpace(w)
    ensures LStrip(w + s) == LStrip(s)
    decreases |w|
  {
    if w == [] {
      assert w + s == s;
    } else {
      assert (w + s)[0] == w[0] && (w + s)[1..] == w[1..] + s;
      LStripSkipsSpace(w[1..], s);
    }
  }

  /** str.lstrip() of s + w: what lstrip leaves of s, then w; or lstrip of w
      alone when s was all whitespace. */
  lemma {:induction false} LStripAppend(s: string, w: string)
    ensures LStrip(s) != [] ==> LStrip(s + w) == LStrip(s) + w
    ensures LStrip(s) == [] ==> LStrip(s + w) == LStrip(w)
    decreases |s|
  {
    if s == [] {
      assert s + w == w;
    } else if IsSpace(s[0]) {
      assert (s + w)[1..] == s[1..] + w;
      LStripAppend(s[1..], w);
    } else {
      assert (s + w)[0] == s[0];
    }
  }

  /** An all-whitespace string strips to nothing. */
  lemma LStripAllSpace(w: string)
    requires AllSpace(w)
    ensures LStrip(w) == []
  {
  }

  /** Strings that agree up to case lose the same number of leading
      whitespace characters, and still agree up to case afterwards. */
  lemma {:induction false} LStripSameUpper(s: string, t: string)
    requires SameUpper(s, t)
    ensures SameUpper(LStrip(s), LStrip(t))
    decreases |s|
  {
    if s != [] {
      UpperKeepsSpace(s[0], t[0]);
      if IsSpace(s[0]) {
        assert SameUpper(s[1..], t[1..]) by {
          forall i | 0 <= i < |s| - 1 ensures UpperChar(s[1..][i]) == UpperChar(t[1..][i]) {
            assert s[1..][i] == s[i + 1] && t[1..][i] == t[i + 1];
          }
        }
        LStripSameUpper(s[1..], t[1..]);
      }
    }
  }
}
