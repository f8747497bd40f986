// Text helpers the services use: stripping white space.
module Text {
  // The characters str.isspace() accepts, by code point.
  predicate IsSpace(c: char) {
    var p := c as int;
    || 0x09 <= p <= 0x0D || 0x1C <= p <= 0x20 || p == 0x85 || p == 0xA0 || p == 0x1680
    || 0x2000 <= p <= 0x200A || p == 0x2028 || p == 0x2029 || p == 0x202F || p == 0x205F || p == 0x3000
  }

  function StripLeft(s: string): string {
    if s != "" && IsSpace(s[0]) then StripLeft(s[1..]) else s
  }

  function StripRight(s: string): string {
    if s != "" && IsSpace(s[|s| - 1]) then StripRight(s[..|s| - 1]) else s
  }

  function Strip(s: string): string {
    StripRight(StripLeft(s))
  }

  // ASCII letters in lower case.
  function Fold(c: char): char {
    if 'A' <= c <= 'Z' then (c as int + 32) as char else c
  }

  function Lower(s: string): string {
    seq(|s|, i requires 0 <= i < |s| => Fold(s[i]))
  }

  predicate Blank(s: string) {
    Strip(s) == ""
  }

  predicate Trimmed(s: string) {
    s == "" || (!IsSpace(s[0]) && !IsSpace(s[|s| - 1]))
  }

  lemma {:induction false} StripLeftHead(s: string)
    ensures StripLeft(s) == "" || !IsSpace(StripLeft(s)[0])
    ensures |StripLeft(s)| <= |s|
  {
    if s != "" && IsSpace(s[0]) {
      StripLeftHead(s[1..]);
    }
  }

  lemma {:induction false} StripRightEnds(s: string)
    ensures StripRight(s) <= s
    ensures StripRight(s) == "" || !IsSpace(StripRight(s)[|StripRight(s)| - 1])
  {
    if s != "" && IsSpace(s[|s| - 1]) {
      StripRightEnds(s[..|s| - 1]);
    }
  }

  // Stripped text has no white space at either end, and stripping it again changes nothing.
  lemma StripTrims(s: string)
    ensures Trimmed(Strip(s)) && Strip(Strip(s)) == Strip(s)
  {
    StripLeftHead(s);
    StripRightEnds(StripLeft(s));
  }

  lemma TrimmedStaysPut(s: string)
    requires Trimmed(s)
    ensures Strip(s) == s
  {
  }

  predicate AllSpace(s: string) {
    forall i :: 0 <= i < |s| ==> IsSpace(s[i])
  }

  lemma {:induction false} LeftPart(s: string) returns (left: string)
    ensures s == left + StripLeft(s) && AllSpace(left)
  {
    if s != "" && IsSpace(s[0]) {
      left := LeftPart(s[1..]);
      left := [s[0]] + left;
    } else {
      left := "";
    }
  }

  lemma {:induction false} RightPart(s: string) returns (right: string)
    ensures s == StripRight(s) + right && AllSpace(right)
  {
    if s != "" && IsSpace(s[|s| - 1]) {
      right := RightPart(s[..|s| - 1]);
      right := right + [s[|s| - 1]];
    } else {
      right := "";
    }
  }

  // Text is what stripping leaves, with white space before and after.
  lemma StripCuts(s: string) returns (left: string, right: string)
    ensures s == left + Strip(s) + right && AllSpace(left) && AllSpace(right) && Trimmed(Strip(s))
    ensures Blank(s) <==> AllSpace(s)
  {
    left := LeftPart(s);
    right := RightPart(StripLeft(s));
    StripTrims(s);
    assert Strip(s) != "" ==> s[|left|] == Strip(s)[0] && !IsSpace(s[|left|]);
  }

  // Stripping removes white space only.
  lemma {:induction false} StripLeftKeeps(s: string, c: char)
    requires c in s && !IsSpace(c)
    ensures c in StripLeft(s)
  {
    if IsSpace(s[0]) {
      StripLeftKeeps(s[1..], c);
    }
  }

  lemma {:induction false} StripRightKeeps(s: string, c: char)
    requires c in s && !IsSpace(c)
    ensures c in StripRight(s)
  {
    if IsSpace(s[|s| - 1]) {
      StripRightKeeps(s[..|s| - 1], c);
    }
  }

  lemma StripKeeps(s: string, c: char)
    requires c in s && !IsSpace(c)
    ensures c in Strip(s)
  {
    StripLeftKeeps(s, c);
    StripRightKeeps(StripLeft(s), c);
  }
}
