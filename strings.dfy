/**
 * The string primitives the filter and the card presenter rely on:
 * `toLowerCase` (restricted to ASCII letters), `String.prototype.includes`,
 * `indexOf` of one character, `replaceAll(c, "")` and `replace(c, "")`
 * with a one-character pattern.
 */
module Strings {

  import opened Sequences

  predicate IsUpper(c: char) { 'A' <= c <= 'Z' }

  predicate IsLower(c: char) { 'a' <= c <= 'z' }

  /** ASCII lower-casing of one character; every other character is kept. */
  function LowerChar(c: char): (d: char)
    ensures IsUpper(c) ==> IsLower(d) && d as int == c as int + 32
    ensures !IsUpper(c) ==> d == c
    ensures !IsUpper(d)
  {
    if IsUpper(c) then (c as int + 32) as char else c
  }

  /** ASCII upper-casing of one character; every other character is kept. */
  function UpperChar(c: char): (d: char)
    ensures IsLower(c) ==> IsUpper(d) && d as int == c as int - 32
    ensures !IsLower(c) ==> d == c
  {
    if IsLower(c) then (c as int - 32) as char else c
  }

  /** `s.toLowerCase()`, for ASCII letters. */
  function Lower(s: string): (r: string)
    ensures |r| == |s|
    ensures forall i :: 0 <= i < |s| ==> r[i] == LowerChar(s[i])
  {
    if s == [] then [] else [LowerChar(s[0])] + Lower(s[1..])
  }

  /** `s.toUpperCase()`, for ASCII letters. */
  function Upper(s: string): (r: string)
    ensures |r| == |s|
    ensures forall i :: 0 <= i < |s| ==> r[i] == UpperChar(s[i])
  {
    if s == [] then [] else [UpperChar(s[0])] + Upper(s[1..])
  }

  predicate HasUpper(s: string) { exists i :: 0 <= i < |s| && IsUpper(s[i]) }

  /** A lower-cased string holds no upper-case letter. */
  lemma LowerHasNoUpper(s: string)
    ensures !HasUpper(Lower(s))
  {
    var r := Lower(s);
    forall i | 0 <= i < |r| ensures !IsUpper(r[i]) {
      assert r[i] == LowerChar(s[i]);
    }
  }

  /** Lower-casing twice is lower-casing once. */
  lemma LowerIdempotent(s: string)
    ensures Lower(Lower(s)) == Lower(s)
  {
    var r, rr := Lower(s), Lower(Lower(s));
    forall i | 0 <= i < |s| ensures rr[i] == r[i] {
      assert rr[i] == LowerChar(r[i]);
    }
  }

  /** Lower-casing forgets any earlier upper-casing: the case of the input does not matter. */
  lemma LowerOfUpper(s: string)
    ensures Lower(Upper(s)) == Lower(s)
  {
    var u := Upper(s);
    forall i | 0 <= i < |s| ensures Lower(u)[i] == Lower(s)[i] {
      assert Lower(u)[i] == LowerChar(UpperChar(s[i]));
    }
  }

  /** `t` occurs in `s` at position `i`. */
  ghost predicate OccursAt(s: string, t: string, i: int)
  {
    0 <= i && i + |t| <= |s| && s[i..i + |t|] == t
  }

  /** `s.includes(t)`: does `t` occur as a contiguous block of `s`? */
  function Includes(s: string, t: string): (b: bool)
    ensures b <==> exists i :: OccursAt(s, t, i)
    decreases |s|
  {
    if |t| > |s| then
      assert forall i :: !OccursAt(s, t, i);
      false
    else if s[..|t|] == t then
      assert OccursAt(s, t, 0);
      true
    else
      var b := Includes(s[1..], t);
      OccursShift(s, t);
      b
  }

  /** Occurrences of `t` in `s` after the first position are the occurrences in `s[1..]`, shifted. */
  lemma OccursShift(s: string, t: string)
    requires |s| > 0
    requires |t| <= |s| && s[..|t|] != t
    ensures (exists i :: OccursAt(s, t, i)) <==> (exists j :: OccursAt(s[1..], t, j))
  {
    if exists i :: OccursAt(s, t, i) {
      var i :| OccursAt(s, t, i);
      assert i != 0;
      assert s[1..][i - 1..i - 1 + |t|] == s[i..i + |t|];
      assert OccursAt(s[1..], t, i - 1);
    }
    if exists j :: OccursAt(s[1..], t, j) {
      var j :| OccursAt(s[1..], t, j);
      assert s[j + 1..j + 1 + |t|] == s[1..][j..j + |t|];
      assert OccursAt(s, t, j + 1);
    }
  }

  /** The first position of `c` in `s`, or -1 when `c` does not occur: the search `replace(c, "")` makes for its pattern. */
  function IndexOf(s: string, c: char): (i: int)
    ensures -1 <= i < |s|
    ensures i == -1 <==> c !in s
    ensures 0 <= i ==> s[i] == c && c !in s[..i]
  {
    if s == [] then -1
    else if s[0] == c then 0
    else
      var j := IndexOf(s[1..], c);
      if j < 0 then -1
      else
        assert s[..j + 1] == [s[0]] + s[1..][..j];
        j + 1
  }

  /** A position holding `c` with no `c` before it is the one `IndexOf` finds. */
  lemma IndexOfFirst(s: string, c: char, k: int)
    requires 0 <= k < |s| && s[k] == c && c !in s[..k]
    ensures IndexOf(s, c) == k
  {
    assert s[k] == c;
  }

  /** `s.replaceAll(c, "")`: every occurrence of `c` removed, the other characters kept in order. */
  function RemoveAll(s: string, c: char): (r: string)
    ensures c !in r
    ensures multiset(r) == multiset(s)[c := 0]
    ensures |r| == |s| - multiset(s)[c]
  {
    if s == [] then []
    else
      assert s == [s[0]] + s[1..];
      if s[0] == c then RemoveAll(s[1..], c)
      else [s[0]] + RemoveAll(s[1..], c)
  }

  /**
   * `RemoveAll` is the filter that drops `c`: the characters it keeps come in their
   * original order, each as often as in `s`.
   */
  lemma {:induction false} RemoveAllIsWhere(s: string, c: char, p: char -> bool)
    requires forall x :: p(x) == (x != c)
    ensures RemoveAll(s, c) == Where(s, p)
    ensures IsSubsequence(RemoveAll(s, c), s)
  {
    if s != [] {
      assert s == [s[0]] + s[1..];
      RemoveAllIsWhere(s[1..], c, p);
      WhereCons(s[0], s[1..], p);
    }
    WhereIsSubsequence(s, p);
  }

  /** `s.replace(c, "")` with a one-character pattern: one occurrence of `c` fewer when there was any. */
  function RemoveFirst(s: string, c: char): (r: string)
    ensures c !in s ==> r == s
    ensures multiset(r) == if c in s then multiset(s) - multiset{c} else multiset(s)
  {
    var i := IndexOf(s, c);
    if i < 0 then s
    else
      assert s == s[..i] + [s[i]] + s[i + 1..];
      s[..i] + s[i + 1..]
  }

  /** The occurrence `RemoveFirst` removes is the first one: what precedes it is kept, and so is what follows. */
  lemma RemoveFirstIsFirst(s: string, c: char)
    requires c in s
    ensures var i := IndexOf(s, c);
      && RemoveFirst(s, c)[..i] == s[..i] && c !in RemoveFirst(s, c)[..i]
      && RemoveFirst(s, c)[i..] == s[i + 1..]
  {
  }
}
