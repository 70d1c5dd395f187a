/** String operations the recipe filter relies on: lower-casing
    (`String.prototype.toLowerCase` restricted to ASCII) and substring
    containment (`String.prototype.includes`). An ASCII upper case is defined
    too, only to state that a term's upper-case variant searches alike. */
module Text {

  predicate IsAsciiUpper(c: char) { 'A' <= c <= 'Z' }

  predicate IsAsciiLower(c: char) { 'a' <= c <= 'z' }

  /** Lower-cases one ASCII letter; every other character is kept. */
  function LowerChar(c: char): (d: char)
    ensures !IsAsciiUpper(d)
    ensures IsAsciiUpper(c) ==> IsAsciiLower(d) && d as int == c as int + 32
    ensures !IsAsciiUpper(c) ==> d == c
  {
    if IsAsciiUpper(c) then (c as int + 32) as char else c
  }

  /** Upper-cases one ASCII letter; every other character is kept. */
  function UpperChar(c: char): (d: char)
    ensures !IsAsciiLower(d)
    ensures IsAsciiLower(c) ==> IsAsciiUpper(d) && d as int == c as int - 32
    ensures !IsAsciiLower(c) ==> d == c
  {
    if IsAsciiLower(c) then (c as int - 32) as char else c
  }

  /** `s.toLowerCase()` over ASCII: same length, position by position. */
  function Lower(s: string): (r: string)
    ensures |r| == |s|
    ensures forall i :: 0 <= i < |s| ==> r[i] == LowerChar(s[i])
  {
    seq(|s|, i requires 0 <= i < |s| => LowerChar(s[i]))
  }

  /** ASCII upper-casing: same length, position by position (not JavaScript's full `toUpperCase`). */
  function Upper(s: string): (r: string)
    ensures |r| == |s|
    ensures forall i :: 0 <= i < |s| ==> r[i] == UpperChar(s[i])
  {
    seq(|s|, i requires 0 <= i < |s| => UpperChar(s[i]))
  }

  /** `t` occurs in `s` starting at position `i`. */
  predicate OccursAt(s: string, t: string, i: int)
  {
    0 <= i <= |s| - |t| && s[i..i + |t|] == t
  }

  /** `s.includes(t)`: `t` occurs in `s` at some position. */
  predicate Contains(s: string, t: string)
  {
    exists i | 0 <= i <= |s| - |t| :: OccursAt(s, t, i)
  }

  /** A string without upper-case ASCII letters is its own lower case. */
  lemma LowerOfLowercase(s: string)
    requires forall i :: 0 <= i < |s| ==> !IsAsciiUpper(s[i])
    ensures Lower(s) == s
  {
  }

  /** Lower-casing twice is lower-casing once. */
  lemma LowerIdempotent(s: string)
    ensures Lower(Lower(s)) == Lower(s)
  {
    LowerOfLowercase(Lower(s));
  }

  /** Upper-casing first does not change the lower case. */
  lemma LowerOfUpper(s: string)
    ensures Lower(Upper(s)) == Lower(s)
  {
    forall i | 0 <= i < |s|
      ensures Lower(Upper(s))[i] == Lower(s)[i]
    {
      var c := s[i];
      if IsAsciiLower(c) {
        assert UpperChar(c) as int == c as int - 32;
      }
    }
  }

  /** The empty string occurs in every string, at position 0. */
  lemma ContainsEmpty(s: string)
    ensures Contains(s, "")
  {
    assert OccursAt(s, "", 0);
  }

  /** Every string occurs in itself. */
  lemma ContainsSelf(s: string)
    ensures Contains(s, s)
  {
    assert OccursAt(s, s, 0);
  }

  /** A string cannot contain a longer one. */
  lemma ContainsNoLonger(s: string, t: string)
    requires Contains(s, t)
    ensures |t| <= |s|
  {
  }

  /** Containment is transitive: a substring of a substring is a substring. */
  lemma ContainsTransitive(s: string, t: string, u: string)
    requires Contains(s, t) && Contains(t, u)
    ensures Contains(s, u)
  {
    var i :| 0 <= i <= |s| - |t| && OccursAt(s, t, i);
    var j :| 0 <= j <= |t| - |u| && OccursAt(t, u, j);
    assert s[i + j..i + j + |u|] == u by {
      forall k | 0 <= k < |u|
        ensures s[i + j..i + j + |u|][k] == u[k]
      {
        assert u[k] == t[j + k] == s[i + j + k];
      }
    }
    assert OccursAt(s, u, i + j);
  }

  /** Lower-casing both sides keeps an occurrence where it was. */
  lemma LowerPreservesContains(s: string, t: string)
    requires Contains(s, t)
    ensures Contains(Lower(s), Lower(t))
  {
    var i :| 0 <= i <= |s| - |t| && OccursAt(s, t, i);
    assert Lower(s)[i..i + |t|] == Lower(t) by {
      forall k | 0 <= k < |t|
        ensures Lower(s)[i..i + |t|][k] == Lower(t)[k]
      {
        assert t[k] == s[i + k];
      }
    }
    assert OccursAt(Lower(s), Lower(t), i);
  }

  /** If some character of `t` occurs nowhere in `s`, then `t` does not occur in `s`. */
  lemma MissingCharNotContained(s: string, t: string, j: int)
    requires 0 <= j < |t|
    requires forall k :: 0 <= k < |s| ==> s[k] != t[j]
    ensures !Contains(s, t)
  {
    forall i | 0 <= i <= |s| - |t|
      ensures !OccursAt(s, t, i)
    {
      assert s[i..i + |t|][j] == s[i + j];
    }
  }

  /** If two adjacent characters of `t` never occur adjacently in `s`, then `t` does not occur in `s`. */
  lemma MissingPairNotContained(s: string, t: string, j: int)
    requires 0 <= j && j + 1 < |t|
    requires forall k :: 0 <= k && k + 1 < |s| ==> !(s[k] == t[j] && s[k + 1] == t[j + 1])
    ensures !Contains(s, t)
  {
    forall i | 0 <= i <= |s| - |t|
      ensures !OccursAt(s, t, i)
    {
      assert s[i..i + |t|][j] == s[i + j];
      assert s[i..i + |t|][j + 1] == s[i + j + 1];
    }
  }
}
