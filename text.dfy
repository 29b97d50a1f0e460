/** The two string operations the availability test relies on: upper-casing
    (ASCII letters only) and substring search, as JavaScript's `toUpperCase`
    and `includes` perform them on ASCII text. */
module Text {

  /** The ASCII upper-case form of one character; every other character is
      left as it is. */
  function UpperChar(c: char): (u: char)
    ensures !('a' <= u <= 'z')
    ensures 'a' <= c <= 'z' ==> u as int == c as int - 32
    ensures !('a' <= c <= 'z') ==> u == c
  {
    if 'a' <= c <= 'z' then (c as int - 32) as char else c
  }

  /** The string with every ASCII lower-case letter upper-cased. */
  function Upper(s: string): string {
    seq(|s|, i requires 0 <= i < |s| => UpperChar(s[i]))
  }

  /** A string is upper-case when it has no ASCII lower-case letter. */
  predicate IsUpper(s: string) {
    forall i :: 0 <= i < |s| ==> !('a' <= s[i] <= 'z')
  }

  /** Upper-casing yields an upper-case string of the same length. */
  lemma UpperIsUpper(s: string)
    ensures |Upper(s)| == |s| && IsUpper(Upper(s))
  {
  }

  /** Upper-casing an upper-case string changes nothing. */
  lemma UpperOfUpper(s: string)
    requires IsUpper(s)
    ensures Upper(s) == s
  {
  }

  /** Upper-casing is idempotent. */
  lemma UpperIdempotent(s: string)
    ensures Upper(Upper(s)) == Upper(s)
  {
    UpperOfUpper(Upper(s));
  }

  /** `p` occurs in `s` starting at position `i`. */
  predicate OccursAt(s: string, p: string, i: nat) {
    i + |p| <= |s| && s[i..i + |p|] == p
  }

  /** `p` is a prefix of `s`. */
  predicate StartsWith(s: string, p: string) {
    |p| <= |s| && s[..|p|] == p
  }

  /** Some position of `s` starts an occurrence of `p`. */
  ghost predicate Mentions(s: string, p: string) {
    exists i: nat :: i <= |s| && OccursAt(s, p, i)
  }

  /** JavaScript's `s.includes(p)`, found by scanning `s` left to right; the
      empty pattern is included in every string. */
  function Includes(s: string, p: string): (b: bool)
    ensures b <==> Mentions(s, p)
  {
    if StartsWith(s, p) then
      assert OccursAt(s, p, 0);
      true
    else if s == [] then
      assert !OccursAt(s, p, 0);
      false
    else
      var b := Includes(s[1..], p);
      IncludesStep(s, p);
      b
  }

  /** An occurrence in `s` that is not at position 0 is an occurrence in
      `s[1..]` one position earlier, and conversely. */
  lemma IncludesStep(s: string, p: string)
    requires s != [] && !StartsWith(s, p)
    ensures Mentions(s, p) <==> Mentions(s[1..], p)
  {
    if exists i: nat :: i <= |s| && OccursAt(s, p, i) {
      var i: nat :| i <= |s| && OccursAt(s, p, i);
      assert i != 0 by { assert !OccursAt(s, p, 0); }
      assert s[1..][i - 1..i - 1 + |p|] == s[i..i + |p|];
      assert OccursAt(s[1..], p, i - 1);
    }
    if exists j: nat :: j <= |s[1..]| && OccursAt(s[1..], p, j) {
      var j: nat :| j <= |s[1..]| && OccursAt(s[1..], p, j);
      assert s[1..][j..j + |p|] == s[j + 1..j + 1 + |p|];
      assert OccursAt(s, p, j + 1);
    }
  }

  /** A pattern that occurs at `i` is included. */
  lemma IncludesAt(s: string, p: string, i: nat)
    requires OccursAt(s, p, i)
    ensures Includes(s, p)
  {
  }

  /** A pattern holding a character that the string lacks is not included. */
  lemma AbsentCharExcludes(s: string, p: string, k: nat)
    requires k < |p| && p[k] !in s
    ensures !Includes(s, p)
  {
  }
}
