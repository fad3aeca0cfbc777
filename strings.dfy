/** Prefix and substring relations on strings, used to state what error messages contain. */
module Strings {

  predicate IsPrefix(p: string, s: string) {
    |p| <= |s| && s[..|p|] == p
  }

  /** `needle` occurs somewhere inside `hay`. */
  predicate IsInfix(needle: string, hay: string) {
    exists i :: 0 <= i <= |hay| && IsPrefix(needle, hay[i..])
  }

  lemma PrefixOfConcat(p: string, s: string)
    ensures IsPrefix(p, p + s)
  {
    assert (p + s)[..|p|] == p;
  }

  /** A string that is its own occurrence at a known offset: the usual way to prove IsInfix. */
  lemma InfixAt(pre: string, needle: string, post: string)
    ensures IsInfix(needle, pre + needle + post)
  {
    var hay := pre + needle + post;
    assert hay[|pre|..][..|needle|] == needle;
    assert IsPrefix(needle, hay[|pre|..]);
  }
}
