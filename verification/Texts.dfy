/** `String.prototype.trim` for the white space the wire can carry. */
module Texts {

  predicate IsSpace(c: char) {
    c == ' ' || c == '\t' || c == '\n' || c == '\r'
  }

  function TrimStart(s: string): string {
    if s != [] && IsSpace(s[0]) then TrimStart(s[1..]) else s
  }

  function TrimEnd(s: string): string {
    if s != [] && IsSpace(s[|s| - 1]) then TrimEnd(s[..|s| - 1]) else s
  }

  function Trim(s: string): string {
    TrimEnd(TrimStart(s))
  }

  lemma {:induction false} TrimStartHead(s: string)
    ensures TrimStart(s) != [] ==> !IsSpace(TrimStart(s)[0])
  {
    if s != [] && IsSpace(s[0]) { TrimStartHead(s[1..]); }
  }

  lemma {:induction false} TrimEndEnds(s: string)
    ensures TrimEnd(s) <= s
    ensures TrimEnd(s) != [] ==> !IsSpace(TrimEnd(s)[|TrimEnd(s)| - 1])
  {
    if s != [] && IsSpace(s[|s| - 1]) { TrimEndEnds(s[..|s| - 1]); }
  }

  predicate AllSpace(s: string) {
    forall i :: 0 <= i < |s| ==> IsSpace(s[i])
  }

  lemma {:induction false} SpaceGoesFirst(a: string, s: string)
    requires AllSpace(a) && s != [] && !IsSpace(s[0])
    ensures TrimStart(a + s) == s
  {
    if a == [] {
      assert a + s == s;
    } else {
      SpaceGoesFirst(a[1..], s);
      assert (a + s)[1..] == a[1..] + s;
    }
  }

  lemma {:induction false} SpaceGoesLast(s: string, b: string)
    requires AllSpace(b) && s != [] && !IsSpace(s[|s| - 1])
    ensures TrimEnd(s + b) == s
  {
    if b == [] {
      assert s + b == s;
    } else {
      SpaceGoesLast(s, b[..|b| - 1]);
      assert (s + b)[..|s + b| - 1] == s + b[..|b| - 1];
    }
  }

  lemma {:induction false} SpaceIsNothing(s: string)
    requires AllSpace(s)
    ensures Trim(s) == ""
  {
    if s == [] {
    } else {
      SpaceIsNothing(s[1..]);
    }
  }

  /** Trimming takes away the white space around a text, and nothing else; nothing is left of white space. */
  lemma TrimTakesSpace(a: string, s: string, b: string)
    requires AllSpace(a) && AllSpace(b)
    ensures s != [] && !IsSpace(s[0]) && !IsSpace(s[|s| - 1]) ==> Trim(a + s + b) == s
    ensures Trim(a + b) == ""
  {
    if s != [] && !IsSpace(s[0]) && !IsSpace(s[|s| - 1]) {
      SpaceGoesFirst(a, s + b);
      assert a + s + b == a + (s + b);
      SpaceGoesLast(s, b);
    }
    SpaceIsNothing(a + b);
  }

  /** Trimming twice is trimming once. */
  lemma TrimIdempotent(s: string)
    ensures Trim(Trim(s)) == Trim(s)
  {
    TrimStartHead(s);
    TrimEndEnds(TrimStart(s));
  }
}
