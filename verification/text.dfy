/**
  The two string operations the routing policy is built from: lower-casing
  (Python's `str.lower`) and the substring test (Python's `sub in s`).
  Each executable function is tied to an independent characterisation.
 */
module Text {

  /** `c` is an upper-case ASCII letter. */
  predicate IsUpperChar(c: char) {
    'A' <= c <= 'Z'
  }

  /**
    Lower-cases one ASCII letter: the result is never upper case, and a
    character that is already not upper case is its own lower-case form.
   */
  function LowerChar(c: char): (d: char)
    ensures !IsUpperChar(d)
    ensures !IsUpperChar(c) ==> d == c
  {
    if IsUpperChar(c) then (c as int + 32) as char else c
  }

  /**
    Two characters share a lower-case form exactly when they are equal or
    one is the upper-case letter of the other.
   */
  lemma SameLowerChar(a: char, b: char)
    ensures LowerChar(a) == LowerChar(b) <==>
      || a == b
      || (IsUpperChar(a) && b as int == a as int + 32)
      || (IsUpperChar(b) && a as int == b as int + 32)
  {
  }

  /** No character of `s` is an upper-case ASCII letter. */
  ghost predicate IsLowerCase(s: string) {
    forall i :: 0 <= i < |s| ==> !IsUpperChar(s[i])
  }

  /** `a` and `b` spell the same text once letter case is ignored. */
  ghost predicate SameUpToCase(a: string, b: string) {
    |a| == |b| && forall i :: 0 <= i < |a| ==> LowerChar(a[i]) == LowerChar(b[i])
  }

  /** Python's `s.lower()` on ASCII text: the lower-case spelling of `s`. */
  function Lower(s: string): (r: string)
    ensures IsLowerCase(r)
    ensures SameUpToCase(s, r)
  {
    seq(|s|, i requires 0 <= i < |s| => LowerChar(s[i]))
  }

  /** `Lower(s)` is the only lower-case text that agrees with `s` up to case. */
  lemma LowerUnique(s: string, t: string)
    requires IsLowerCase(t) && SameUpToCase(s, t)
    ensures t == Lower(s)
  {
    var r := Lower(s);
    forall i | 0 <= i < |t|
      ensures t[i] == r[i]
    {
      assert LowerChar(t[i]) == t[i];
      assert LowerChar(r[i]) == r[i];
    }
  }

  /** Texts that differ only in letter case have the same lower-case spelling. */
  lemma LowerIgnoresCase(a: string, b: string)
    requires SameUpToCase(a, b)
    ensures Lower(a) == Lower(b)
  {
    var ra, rb := Lower(a), Lower(b);
    forall i | 0 <= i < |ra|
      ensures ra[i] == rb[i]
    {
      assert LowerChar(ra[i]) == ra[i];
      assert LowerChar(rb[i]) == rb[i];
    }
  }

  /** Lower-casing twice is lower-casing once. */
  lemma LowerIdempotent(s: string)
    ensures Lower(Lower(s)) == Lower(s)
  {
    LowerUnique(Lower(s), Lower(s));
  }

  /** `sub` occurs in `s` starting at index `i`. */
  ghost predicate OccursAt(s: string, sub: string, i: int) {
    0 <= i && i + |sub| <= |s| && s[i..i + |sub|] == sub
  }

  /** Reference meaning of Python's `sub in s`: some window of `s` spells `sub`. */
  ghost predicate Occurs(s: string, sub: string) {
    exists i :: OccursAt(s, sub, i)
  }

  /** An occurrence past the first character is an occurrence in the tail. */
  lemma OccursShift(s: string, sub: string)
    requires |s| > 0
    ensures Occurs(s, sub) <==> OccursAt(s, sub, 0) || Occurs(s[1..], sub)
  {
    if Occurs(s, sub) && !OccursAt(s, sub, 0) {
      var i :| OccursAt(s, sub, i);
      assert s[1..][i - 1..i - 1 + |sub|] == s[i..i + |sub|];
      assert OccursAt(s[1..], sub, i - 1);
    }
    if Occurs(s[1..], sub) {
      var j :| OccursAt(s[1..], sub, j);
      assert s[j + 1..j + 1 + |sub|] == s[1..][j..j + |sub|];
      assert OccursAt(s, sub, j + 1);
    }
  }

  /** Python's `sub in s` on strings, by a left-to-right scan. */
  function Contains(s: string, sub: string): (r: bool)
    ensures r <==> Occurs(s, sub)
    decreases |s|
  {
    if |s| < |sub| then
      false
    else if s[..|sub|] == sub then
      assert OccursAt(s, sub, 0);
      true
    else
      OccursShift(s, sub);
      Contains(s[1..], sub)
  }

  /** Wherever a word occurs, every prefix of it occurs too. */
  lemma {:induction false} OccursPrefix(s: string, sub: string, more: string)
    requires Occurs(s, sub + more)
    ensures Occurs(s, sub)
  {
    var i :| OccursAt(s, sub + more, i);
    assert s[i..i + |sub|] == (sub + more)[..|sub|];
    assert OccursAt(s, sub, i);
  }
}
