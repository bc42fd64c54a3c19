/** String comparisons the route guard performs on request paths: the
    prefix test of JavaScript's `String.prototype.startsWith` (with no
    position argument) and strict equality of strings. Characters are Unicode
    scalar values rather than JavaScript's UTF-16 code units, which makes no
    difference here: the literals compared against are ASCII and a URL
    pathname is percent-encoded ASCII. No normalisation or case folding takes
    place. */
module Strings {

  /** `s` starts with `p`: the first |p| characters of `s` are exactly `p`. */
  predicate StartsWith(s: string, p: string) {
    |p| <= |s| && s[..|p|] == p
  }

  /** A length check, then a left-to-right comparison of characters: the
      same result as `String.prototype.startsWith`. */
  method MatchesPrefix(s: string, p: string) returns (b: bool)
    ensures b <==> StartsWith(s, p)
  {
    b := |p| <= |s|;
    var i := 0;
    while b && i < |p|
      invariant 0 <= i <= |p|
      invariant b ==> |p| <= |s| && s[..i] == p[..i]
      invariant !b ==> !StartsWith(s, p)
    {
      if s[i] != p[i] {
        assert s[..|p|][i] != p[i];
        b := false;
      }
      i := i + 1;
    }
    assert b ==> s[..|p|] == p;
  }
}
