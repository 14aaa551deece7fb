// Python's notion of white space, and `str.strip`.

module Text {
  // What `str.strip`, `str.isspace` and the class \s take for white space.
  predicate IsSpace(c: char) {
    ('\t' <= c <= '\r') || ('\U{1C}' <= c <= ' ') || c == '\U{85}' || c == '\U{A0}' || c == '\U{1680}'
    || ('\U{2000}' <= c <= '\U{200A}') || c == '\U{2028}' || c == '\U{2029}' || c == '\U{202F}'
    || c == '\U{205F}' || c == '\U{3000}'
  }

  // The same, one by one.
  const SPACES := "\t\n\U{0B}\U{0C}\r\U{1C}\U{1D}\U{1E}\U{1F} \U{85}\U{A0}\U{1680}"
                + "\U{2000}\U{2001}\U{2002}\U{2003}\U{2004}\U{2005}\U{2006}\U{2007}\U{2008}\U{2009}\U{200A}"
                + "\U{2028}\U{2029}\U{202F}\U{205F}\U{3000}"

  lemma SpacesListed(c: char)
    ensures IsSpace(c) <==> c in SPACES
  {
    assert |SPACES| == 29;
  }

  function StripLeft(t: string): string {
    if t != "" && IsSpace(t[0]) then StripLeft(t[1..]) else t
  }

  function StripRight(t: string): string {
    if t != "" && IsSpace(t[|t|-1]) then StripRight(t[..|t|-1]) else t
  }

  function Strip(t: string): string { StripRight(StripLeft(t)) }

  ghost predicate AllSpace(t: string) { forall i :: 0 <= i < |t| ==> IsSpace(t[i]) }

  lemma {:induction false} LeftPart(t: string) returns (left: string)
    ensures t == left + StripLeft(t) && AllSpace(left)
  {
    left := "";
    if t != "" && IsSpace(t[0]) {
      var rest := LeftPart(t[1..]);
      left := [t[0]] + rest;
    }
  }

  lemma {:induction false} RightPart(t: string) returns (right: string)
    ensures t == StripRight(t) + right && AllSpace(right)
  {
    right := "";
    if t != "" && IsSpace(t[|t|-1]) {
      var rest := RightPart(t[..|t|-1]);
      right := rest + [t[|t|-1]];
    }
  }

  lemma {:induction false} StripLeftEdge(t: string)
    ensures StripLeft(t) != "" ==> !IsSpace(StripLeft(t)[0]) && StripLeft(t)[|StripLeft(t)|-1] == t[|t|-1]
  {
    if t != "" && IsSpace(t[0]) { StripLeftEdge(t[1..]); }
  }

  lemma {:induction false} StripRightEdge(t: string)
    ensures StripRight(t) != "" ==> !IsSpace(StripRight(t)[|StripRight(t)|-1]) && StripRight(t)[0] == t[0]
  {
    if t != "" && IsSpace(t[|t|-1]) { StripRightEdge(t[..|t|-1]); }
  }

  lemma StripEdges(t: string)
    ensures Strip(t) != "" ==> !IsSpace(Strip(t)[0]) && !IsSpace(Strip(t)[|Strip(t)|-1])
  {
    StripLeftEdge(t);
    StripRightEdge(StripLeft(t));
  }

  lemma StripIdle(t: string)
    requires t != "" && !IsSpace(t[0]) && !IsSpace(t[|t|-1])
    ensures Strip(t) == t
  {}

  // What stripping removes is white space at the two ends, and all of it.
  lemma StripSplits(t: string) returns (left: string, right: string)
    ensures t == left + Strip(t) + right && AllSpace(left) && AllSpace(right)
    ensures Strip(t) != "" ==> !IsSpace(Strip(t)[0]) && !IsSpace(Strip(t)[|Strip(t)|-1])
  {
    left := LeftPart(t);
    right := RightPart(StripLeft(t));
    StripEdges(t);
  }

  // And that decides the result: a text is what is left of it between white space if it has none
  // at its own ends.
  lemma {:induction false} StripBetween(left: string, middle: string, right: string)
    requires AllSpace(left) && AllSpace(right)
    requires middle != "" ==> !IsSpace(middle[0]) && !IsSpace(middle[|middle|-1])
    ensures Strip(left + middle + right) == middle
  {
    if left != "" {
      assert (left + middle + right)[1..] == left[1..] + middle + right;
      StripBetween(left[1..], middle, right);
    } else if middle != "" {
      assert left + middle + right == middle + right;
      StripRightOf(middle, right);
    } else {
      assert left + middle + right == right;
      StripLeftOfSpace(right);
    }
  }

  lemma {:induction false} StripLeftOfSpace(t: string)
    requires AllSpace(t)
    ensures StripLeft(t) == ""
  {
    if t != "" {
      StripLeftOfSpace(t[1..]);
    }
  }

  lemma {:induction false} StripRightOf(middle: string, right: string)
    requires AllSpace(right) && middle != "" && !IsSpace(middle[|middle|-1])
    ensures StripRight(middle + right) == middle
  {
    if right == "" {
      assert middle + right == middle;
    } else {
      var t := middle + right;
      assert t[..|t|-1] == middle + right[..|right|-1];
      StripRightOf(middle, right[..|right|-1]);
    }
  }
}
