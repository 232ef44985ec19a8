/** ASCII string helpers shared by the catalogue filter and the locale code:
    `toLowerCase`, `startsWith` and `includes` of JavaScript strings,
    restricted to ASCII case mapping. */
module Text {

  /** `toLowerCase` on one character: only 'A'..'Z' change. */
  function LowerChar(c: char): (r: char)
    ensures 'A' <= c <= 'Z' ==> 'a' <= r <= 'z' && r as int == c as int + 32
    ensures !('A' <= c <= 'Z') ==> r == c
    ensures !('A' <= r <= 'Z')
  {
    if 'A' <= c <= 'Z' then (c as int + 32) as char else c
  }

  /** `toLowerCase` on a string, character by character. */
  function Lower(s: string): (r: string)
    ensures |r| == |s|
    ensures forall i :: 0 <= i < |s| ==> r[i] == LowerChar(s[i])
  {
    seq(|s|, i requires 0 <= i < |s| => LowerChar(s[i]))
  }

  /** `s.startsWith(p)`. */
  predicate StartsWith(s: string, p: string) {
    |p| <= |s| && s[..|p|] == p
  }

  /** The characters q[k..] occur in s starting at position i + k. */
  predicate MatchesFrom(s: string, q: string, i: nat, k: nat)
    decreases |q| - k
  {
    k >= |q| || (i + k < |s| && s[i + k] == q[k] && MatchesFrom(s, q, i, k + 1))
  }

  /** q occurs in s at some position at or after i (the scan `includes` performs). */
  predicate IncludesFrom(s: string, q: string, i: nat)
    decreases |s| - i
  {
    i <= |s| && (MatchesFrom(s, q, i, 0) || IncludesFrom(s, q, i + 1))
  }

  /** `s.includes(q)`. */
  predicate Includes(s: string, q: string) {
    IncludesFrom(s, q, 0)
  }

  /** Reference meaning of `includes`: q is a contiguous slice of s. */
  ghost predicate OccursAt(s: string, q: string, i: int) {
    0 <= i && i + |q| <= |s| && s[i..i + |q|] == q
  }

  ghost predicate IsSubstring(q: string, s: string) {
    exists i :: OccursAt(s, q, i)
  }

  lemma {:induction false} MatchesFromIff(s: string, q: string, i: nat, k: nat)
    requires k <= |q| && i + k <= |s|
    ensures MatchesFrom(s, q, i, k) <==> (i + |q| <= |s| && s[i + k..i + |q|] == q[k..])
    decreases |q| - k
  {
    if k < |q| && i + k < |s| {
      MatchesFromIff(s, q, i, k + 1);
      if i + |q| <= |s| {
        assert s[i + k..i + |q|] == [s[i + k]] + s[i + k + 1..i + |q|];
        assert q[k..] == [q[k]] + q[k + 1..];
      }
    }
  }

  lemma {:induction false} IncludesFromIff(s: string, q: string, i: nat)
    ensures IncludesFrom(s, q, i) <==> exists j :: i <= j && OccursAt(s, q, j)
    decreases |s| - i
  {
    if i <= |s| {
      MatchesFromIff(s, q, i, 0);
      IncludesFromIff(s, q, i + 1);
      assert MatchesFrom(s, q, i, 0) <==> OccursAt(s, q, i);
      if exists j :: i <= j && OccursAt(s, q, j) {
        var j :| i <= j && OccursAt(s, q, j);
        assert j == i || i + 1 <= j;
      }
    }
  }

  /** The scan decides exactly the slice relation. */
  lemma IncludesIff(s: string, q: string)
    ensures Includes(s, q) <==> IsSubstring(q, s)
  {
    IncludesFromIff(s, q, 0);
  }

  /** `includes('')` holds of every string. */
  lemma IncludesEmpty(s: string)
    ensures Includes(s, "")
  {
    assert OccursAt(s, "", 0);
    IncludesIff(s, "");
  }

  /** A string includes itself. */
  lemma IncludesSelf(s: string)
    ensures Includes(s, s)
  {
    assert OccursAt(s, s, 0);
    IncludesIff(s, s);
  }

  /** A string includes its suffixes. */
  lemma IncludesSuffix(a: string, b: string)
    ensures Includes(a + b, b)
  {
    assert (a + b)[|a|..|a| + |b|] == b;
    assert OccursAt(a + b, b, |a|);
    IncludesIff(a + b, b);
  }

  /** Lowering a string that ends in b includes the lowered b. */
  lemma LowerIncludesSuffix(a: string, b: string, q: string)
    requires Lower(b) == q
    ensures Includes(Lower(a + b), q)
  {
    LowerAppend(a, b);
    IncludesSuffix(Lower(a), q);
  }

  /** Containment is transitive: a slice of a slice is a slice. */
  lemma IncludesTransitive(s: string, q: string, w: string)
    requires Includes(s, q) && Includes(q, w)
    ensures Includes(s, w)
  {
    IncludesIff(s, q);
    IncludesIff(q, w);
    var i :| OccursAt(s, q, i);
    var j :| OccursAt(q, w, j);
    forall k | 0 <= k < |w|
      ensures s[i + j + k] == w[k]
    {
      assert q[j + k] == w[k];
      assert s[i + (j + k)] == q[j + k];
    }
    assert s[i + j..i + j + |w|] == w;
    assert OccursAt(s, w, i + j);
    IncludesIff(s, w);
  }

  /** Lowering both sides keeps a containment. */
  lemma LowerKeepsIncludes(s: string, q: string)
    requires Includes(s, q)
    ensures Includes(Lower(s), Lower(q))
  {
    IncludesIff(s, q);
    var i :| OccursAt(s, q, i);
    assert Lower(s)[i..i + |q|] == Lower(q);
    assert OccursAt(Lower(s), Lower(q), i);
    IncludesIff(Lower(s), Lower(q));
  }

  /** Lowering works character by character, so it distributes over concatenation. */
  lemma LowerAppend(a: string, b: string)
    ensures Lower(a + b) == Lower(a) + Lower(b)
  {
    assert forall i :: 0 <= i < |a + b| ==> Lower(a + b)[i] == (Lower(a) + Lower(b))[i];
  }

  /** Every letter of q appears in any string that includes q. */
  lemma IncludesHasLetters(s: string, q: string, c: char)
    requires Includes(s, q) && c in q
    ensures c in s
  {
    IncludesIff(s, q);
    var i :| OccursAt(s, q, i);
    var k :| 0 <= k < |q| && q[k] == c;
    assert s[i + k] == q[k];
  }

  /** No character of s is c. */
  predicate Free(s: string, c: char) {
    forall i :: 0 <= i < |s| ==> s[i] != c
  }

  /** Neither c nor its upper-case form u occurs in s, so no character of
      Lower(s) is c. */
  lemma LowerFree(s: string, c: char, u: char)
    requires 'a' <= c <= 'z' && u as int == c as int - 32
    requires Free(s, c) && Free(s, u)
    ensures Free(Lower(s), c)
  {
  }

  /** A letter of q that Lower(s) lacks rules out `Lower(s).includes(q)`;
      used for concrete queries. */
  lemma LowerExcludesByLetter(s: string, q: string, c: char, u: char)
    requires c in q && 'a' <= c <= 'z' && u as int == c as int - 32
    requires Free(s, c) && Free(s, u)
    ensures !Includes(Lower(s), q)
  {
    LowerFree(s, c, u);
    if Includes(Lower(s), q) {
      IncludesHasLetters(Lower(s), q, c);
    }
  }

  /** When q's first letter occurs in s exactly once, and the character after
      it is not q's second letter, q does not occur in s. */
  lemma ExcludedBySplit(s1: string, s2: string, q: string)
    requires |q| >= 2 && Free(s1, q[0]) && Free(s2, q[0])
    requires s2 == [] || s2[0] != q[1]
    ensures !Includes(s1 + [q[0]] + s2, q)
  {
    var s := s1 + [q[0]] + s2;
    forall i | 0 <= i && i + |q| <= |s|
      ensures !OccursAt(s, q, i)
    {
      if i < |s1| {
        assert s[i] == s1[i];
      } else if i == |s1| {
        assert s[i + 1] == s2[0];
      } else {
        assert s[i] == s2[i - |s1| - 1];
      }
    }
    IncludesIff(s, q);
  }

  /** ExcludedBySplit under lowering: x is the one character of s lowering to
      q's first letter. */
  lemma LowerExcludedBySplit(s1: string, x: char, s2: string, q: string, u: char)
    requires |q| >= 2 && 'a' <= q[0] <= 'z' && u as int == q[0] as int - 32 && LowerChar(x) == q[0]
    requires Free(s1, q[0]) && Free(s1, u) && Free(s2, q[0]) && Free(s2, u)
    requires s2 == [] || LowerChar(s2[0]) != q[1]
    ensures !Includes(Lower(s1 + [x] + s2), q)
  {
    LowerFree(s1, q[0], u);
    LowerFree(s2, q[0], u);
    LowerAppend(s1 + [x], s2);
    LowerAppend(s1, [x]);
    assert Lower([x]) == [q[0]];
    assert Lower(s1 + [x] + s2) == Lower(s1) + [q[0]] + Lower(s2);
    ExcludedBySplit(Lower(s1), Lower(s2), q);
  }
}
