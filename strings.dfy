/** The few operations of Go's `strings` package that the stores use, on ASCII text. */
module Strings {

  /** The upper-case form of one ASCII letter; every other character is kept. */
  function UpperChar(c: char): (u: char)
    ensures 'a' <= c <= 'z' ==> u as int == c as int - 32
    ensures !('a' <= c <= 'z') ==> u == c
  {
    if 'a' <= c <= 'z' then (c as int - 32) as char else c
  }

  /** The lower-case form of one ASCII letter; every other character is kept. */
  function LowerChar(c: char): (l: char)
    ensures 'A' <= c <= 'Z' ==> l as int == c as int + 32
    ensures !('A' <= c <= 'Z') ==> l == c
  {
    if 'A' <= c <= 'Z' then (c as int + 32) as char else c
  }

  /** `strings.ToUpper`, restricted to ASCII. */
  function ToUpper(s: string): (r: string)
    ensures |r| == |s|
    ensures forall i :: 0 <= i < |s| ==> r[i] == UpperChar(s[i])
  {
    if s == [] then [] else [UpperChar(s[0])] + ToUpper(s[1..])
  }

  /** `strings.ToLower`, restricted to ASCII. */
  function ToLower(s: string): (r: string)
    ensures |r| == |s|
    ensures forall i :: 0 <= i < |s| ==> r[i] == LowerChar(s[i])
  {
    if s == [] then [] else [LowerChar(s[0])] + ToLower(s[1..])
  }

  /** No lower-case ASCII letter occurs in `s`. */
  predicate NoLowerLetters(s: string) {
    forall i :: 0 <= i < |s| ==> !('a' <= s[i] <= 'z')
  }

  /** No upper-case ASCII letter occurs in `s`. */
  predicate NoUpperLetters(s: string) {
    forall i :: 0 <= i < |s| ==> !('A' <= s[i] <= 'Z')
  }

  /** Upper-casing leaves no lower-case letter behind, and doing it twice is doing it once. */
  lemma {:induction false} ToUpperIdempotent(s: string)
    ensures NoLowerLetters(ToUpper(s))
    ensures ToUpper(ToUpper(s)) == ToUpper(s)
  {
    if s != [] {
      ToUpperIdempotent(s[1..]);
      assert ToUpper(ToUpper(s)) == [UpperChar(UpperChar(s[0]))] + ToUpper(ToUpper(s[1..]));
    }
  }

  /** Lower-casing a text that has no upper-case letter changes nothing. */
  lemma {:induction false} ToLowerFixes(s: string)
    requires NoUpperLetters(s)
    ensures ToLower(s) == s
  {
    if s != [] {
      assert NoUpperLetters(s[1..]) by {
        forall i | 0 <= i < |s[1..]| ensures !('A' <= s[1..][i] <= 'Z') {
          assert s[1..][i] == s[i + 1];
        }
      }
      ToLowerFixes(s[1..]);
      assert s == [s[0]] + s[1..];
    }
  }

  /** `strings.HasPrefix`. */
  predicate HasPrefix(s: string, prefix: string) {
    |prefix| <= |s| && s[..|prefix|] == prefix
  }

  /** `sub` occurs in `s` starting at position `i`. */
  predicate OccursAt(s: string, sub: string, i: int) {
    0 <= i <= |s| - |sub| && s[i..i + |sub|] == sub
  }

  /** `strings.Contains`: `sub` occurs somewhere in `s`. */
  predicate Contains(s: string, sub: string) {
    exists i | 0 <= i <= |s| - |sub| :: OccursAt(s, sub, i)
  }

  /** A text contains each of its own pieces. */
  lemma ContainsPiece(pre: string, sub: string, post: string)
    ensures Contains(pre + sub + post, sub)
  {
    var s := pre + sub + post;
    assert s[|pre|..|pre| + |sub|] == sub;
    assert OccursAt(s, sub, |pre|);
  }

  /** A text with a given prefix contains it, and so does any text that ends with it. */
  lemma PrefixContained(q: string, t: string, p: string)
    requires HasPrefix(t, p)
    ensures Contains(t, p)
    ensures Contains(q + t, p)
  {
    assert OccursAt(t, p, 0);
    assert (q + t)[|q|..|q| + |p|] == t[..|p|];
    assert OccursAt(q + t, p, |q|);
  }
}
