/**
 * Sums over the entries of an unordered collection. Kotlin iterates a map in
 * insertion order; for an integer sum the order does not matter, which is what
 * SetSumRemove states: any element may be taken out first.
 */
module Sums {

  /** The sum of f over the finite set s. */
  ghost function SetSum<K>(s: set<K>, f: K -> int): int
    decreases s
  {
    if s == {} then 0 else var k :| k in s; f(k) + SetSum(s - {k}, f)
  }

  /** Taking any element out first gives the same sum. */
  lemma {:induction false} SetSumRemove<K>(s: set<K>, f: K -> int, k: K)
    requires k in s
    ensures SetSum(s, f) == f(k) + SetSum(s - {k}, f)
    decreases s
  {
    var j :| j in s && SetSum(s, f) == f(j) + SetSum(s - {j}, f);
    if j != k {
      SetSumRemove(s - {j}, f, k);
      SetSumRemove(s - {k}, f, j);
      assert s - {j} - {k} == s - {k} - {j};
    }
  }

  /** Adding an element not yet present adds its term. */
  lemma SetSumAdd<K>(s: set<K>, f: K -> int, k: K)
    requires k !in s
    ensures SetSum(s + {k}, f) == f(k) + SetSum(s, f)
  {
    SetSumRemove(s + {k}, f, k);
    assert s + {k} - {k} == s;
  }

  /** Sums of functions that agree on s are equal. */
  lemma {:induction false} SetSumCongruent<K>(s: set<K>, f: K -> int, g: K -> int)
    requires forall k :: k in s ==> f(k) == g(k)
    ensures SetSum(s, f) == SetSum(s, g)
    decreases s
  {
    if s != {} {
      var k :| k in s;
      SetSumRemove(s, f, k);
      SetSumRemove(s, g, k);
      SetSumCongruent(s - {k}, f, g);
    }
  }

  /** Terms between lo and hi give a sum between lo*|s| and hi*|s|. */
  lemma {:induction false} SetSumBounds<K>(s: set<K>, f: K -> int, lo: int, hi: int)
    requires forall k :: k in s ==> lo <= f(k) <= hi
    ensures lo * |s| <= SetSum(s, f) <= hi * |s|
    decreases s
  {
    if s != {} {
      var k :| k in s;
      SetSumRemove(s, f, k);
      SetSumBounds(s - {k}, f, lo, hi);
      var n := |s - {k}|;
      assert |s| == n + 1;
      MulSuccessor(lo, n);
      MulSuccessor(hi, n);
    }
  }

  lemma MulSuccessor(a: int, n: int)
    ensures a * (n + 1) == a * n + a
  {
  }

  /** A constant term c gives c*|s|. */
  lemma SetSumConstant<K>(s: set<K>, f: K -> int, c: int)
    requires forall k :: k in s ==> f(k) == c
    ensures SetSum(s, f) == c * |s|
  {
    SetSumBounds(s, f, c, c);
  }

  /** A 0/1 term that can be 1 only on the elements of t sums to at most |t|. */
  lemma {:induction false} SetSumIndicator<K>(s: set<K>, f: K -> int, t: set<K>)
    requires forall k :: k in s ==> 0 <= f(k) <= 1 && (f(k) == 1 ==> k in t)
    ensures 0 <= SetSum(s, f) <= |t|
    decreases s
  {
    if s != {} {
      var k :| k in s;
      var rest := s - {k};
      SetSumRemove(s, f, k);
      if f(k) == 1 {
        SetSumIndicator(rest, f, t - {k});
      } else {
        SetSumIndicator(rest, f, t);
      }
    }
  }

  /** A subset is no larger than its superset. */
  lemma {:induction false} SubsetCardinality<K>(a: set<K>, b: set<K>)
    requires a <= b
    ensures |a| <= |b|
    decreases a
  {
    if a != {} {
      var k :| k in a;
      SubsetCardinality(a - {k}, b - {k});
    }
  }

  /** The sum of a sequence of integers (Kotlin's `sumOf` on a list). */
  function SeqSum(s: seq<int>): int {
    if s == [] then 0 else SeqSum(s[..|s| - 1]) + s[|s| - 1]
  }

  /** A sequence of non-negative terms has a non-negative sum. */
  lemma {:induction false} SeqSumNonNegative(s: seq<int>)
    requires forall i :: 0 <= i < |s| ==> s[i] >= 0
    ensures SeqSum(s) >= 0
  {
    if s != [] {
      SeqSumNonNegative(s[..|s| - 1]);
    }
  }

  /** The sum of a concatenation is the sum of the sums. */
  lemma {:induction false} SeqSumAppend(a: seq<int>, b: seq<int>)
    ensures SeqSum(a + b) == SeqSum(a) + SeqSum(b)
    decreases |b|
  {
    if b != [] {
      assert (a + b)[..|a + b| - 1] == a + b[..|b| - 1];
      SeqSumAppend(a, b[..|b| - 1]);
    } else {
      assert a + b == a;
    }
  }

  /** Replacing one term changes the sum by the difference. */
  lemma SeqSumUpdate(s: seq<int>, i: nat, v: int)
    requires i < |s|
    ensures SeqSum(s[i := v]) == SeqSum(s) - s[i] + v
  {
    assert s == s[..i] + ([s[i]] + s[i + 1..]);
    assert s[i := v] == s[..i] + ([v] + s[i + 1..]);
    SeqSumAppend(s[..i], [s[i]] + s[i + 1..]);
    SeqSumAppend(s[..i], [v] + s[i + 1..]);
    SeqSumAppend([s[i]], s[i + 1..]);
    SeqSumAppend([v], s[i + 1..]);
    assert [s[i]][..0] == [] && [v][..0] == [];
  }

  /** A sequence of non-positive terms has a non-positive sum. */
  lemma {:induction false} SeqSumNonPositive(s: seq<int>)
    requires forall i :: 0 <= i < |s| ==> s[i] <= 0
    ensures SeqSum(s) <= 0
  {
    if s != [] {
      SeqSumNonPositive(s[..|s| - 1]);
    }
  }

  /** Appending a term adds it to the sum. */
  lemma SeqSumSnoc(s: seq<int>, x: int)
    ensures SeqSum(s + [x]) == SeqSum(s) + x
  {
    assert (s + [x])[..|s|] == s;
  }
}
