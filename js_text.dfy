/** The JavaScript string operations the popup relies on. */
module JsText {

  /**
   * The WhiteSpace and LineTerminator code points of ECMA-262, which `String.prototype.trim`
   * removes: tab, line feed, vertical tab, form feed, carriage return, space, no-break space,
   * ogham space mark, the spaces U+2000 to U+200A, line and paragraph separator, narrow
   * no-break space, medium mathematical space, ideographic space and the byte order mark.
   */
  const WhiteSpace: seq<char> := [
    '\t', '\n', '\U{B}', '\U{C}', '\r', ' ', '\U{A0}', '\U{1680}',
    '\U{2000}', '\U{2001}', '\U{2002}', '\U{2003}', '\U{2004}', '\U{2005}',
    '\U{2006}', '\U{2007}', '\U{2008}', '\U{2009}', '\U{200A}',
    '\U{2028}', '\U{2029}', '\U{202F}', '\U{205F}', '\U{3000}', '\U{FEFF}'
  ]

  /** Whether `c` is one of the characters `cs`. */
  predicate Among(c: char, cs: seq<char>)
  {
    cs != [] && (cs[0] == c || Among(c, cs[1..]))
  }

  /** Whether `trim` removes `c`. */
  predicate IsJsWhitespace(c: char)
  {
    Among(c, WhiteSpace)
  }

  /** `Among` is membership. */
  lemma {:induction false} AmongIsMembership(c: char, cs: seq<char>)
    ensures Among(c, cs) <==> c in cs
  {
    if cs != [] && cs[0] != c {
      AmongIsMembership(c, cs[1..]);
      assert c in cs <==> c in cs[1..] by {
        assert cs == [cs[0]] + cs[1..];
      }
    }
  }

  /** `trim` removes exactly the characters listed in `WhiteSpace`. */
  lemma WhiteSpaceMembership(c: char)
    ensures IsJsWhitespace(c) <==> c in WhiteSpace
  {
    AmongIsMembership(c, WhiteSpace);
  }

  /** `s` with its leading white space removed: a suffix of `s`. */
  function TrimStart(s: string): (r: string)
    ensures |r| <= |s| && r == s[|s| - |r|..]
    ensures forall i :: 0 <= i < |s| - |r| ==> IsJsWhitespace(s[i])
    ensures r != [] ==> !IsJsWhitespace(r[0])
  {
    if s != [] && IsJsWhitespace(s[0]) then TrimStart(s[1..]) else s
  }

  /** `s` with its trailing white space removed: a prefix of `s`. */
  function TrimEnd(s: string): (r: string)
    ensures |r| <= |s| && r == s[..|r|]
    ensures forall i :: |r| <= i < |s| ==> IsJsWhitespace(s[i])
    ensures r != [] ==> !IsJsWhitespace(r[|r| - 1])
  {
    if s != [] && IsJsWhitespace(s[|s| - 1]) then TrimEnd(s[..|s| - 1]) else s
  }

  /** `s.trim()`: the middle of `s`, between its leading and its trailing run of white space. */
  function Trim(s: string): (r: string)
    ensures |r| <= |s|
    ensures r == [] <==> forall i :: 0 <= i < |s| ==> IsJsWhitespace(s[i])
    ensures r != [] ==> !IsJsWhitespace(r[0]) && !IsJsWhitespace(r[|r| - 1])
  {
    TrimEnd(TrimStart(s))
  }

  /** The trimmed text is the slice of `s` that starts after its leading run of white space. */
  lemma TrimIsSlice(s: string)
    ensures var r, a := Trim(s), |s| - |TrimStart(s)|; a + |r| <= |s| && r == s[a..a + |r|]
  {
    var t := TrimStart(s);
    assert TrimEnd(t) == t[..|TrimEnd(t)|];
  }

  /** Everything in `s` after the trimmed text is white space. */
  lemma TrimTrailing(s: string)
    ensures var r, a := Trim(s), |s| - |TrimStart(s)|;
      forall i :: a + |r| <= i < |s| ==> IsJsWhitespace(s[i])
  {
    var t := TrimStart(s);
    var r, a := TrimEnd(t), |s| - |t|;
    forall i | a + |r| <= i < |s|
      ensures IsJsWhitespace(s[i])
    {
      assert s[i] == t[i - a];
    }
  }

  /** Trimming twice is trimming once. */
  lemma TrimIdempotent(s: string)
    ensures Trim(Trim(s)) == Trim(s)
  {
    var r := Trim(s);
    if r != [] {
      assert TrimStart(r) == r;
      assert TrimEnd(r) == r;
    }
  }
}
