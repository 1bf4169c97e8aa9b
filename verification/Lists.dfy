/** Kotlin's list operations `distinct()` and `take(n)`. */
module Lists {

  predicate NoDuplicates<T(==)>(s: seq<T>) {
    forall i, j :: 0 <= i < j < |s| ==> s[i] != s[j]
  }

  /** The position of the first occurrence of x in s. */
  function FirstIndex<T(==)>(s: seq<T>, x: T): (i: nat)
    requires x in s
    ensures i < |s| && s[i] == x
    ensures forall j :: 0 <= j < i ==> s[j] != x
  {
    if s[0] == x then 0 else 1 + FirstIndex(s[1..], x)
  }

  /** Appending y moves no first occurrence; a new y first occurs at the end. */
  lemma FirstIndexSnoc<T>(p: seq<T>, y: T)
    ensures forall x :: x in p ==> FirstIndex(p + [y], x) == FirstIndex(p, x)
    ensures y !in p ==> FirstIndex(p + [y], y) == |p|
  {
    var s := p + [y];
    forall x | x in p
      ensures FirstIndex(s, x) == FirstIndex(p, x)
    {
      assert s[FirstIndex(p, x)] == x;
    }
  }

  /** r lists its elements in the order of their first occurrence in s. */
  ghost predicate FirstOccurrenceOrder<T>(s: seq<T>, r: seq<T>)
    requires forall i :: 0 <= i < |r| ==> r[i] in s
  {
    forall i, j :: 0 <= i < j < |r| ==> FirstIndex(s, r[i]) < FirstIndex(s, r[j])
  }

  /** Appending y to s keeps a first-occurrence listing d of s in order, with y added when it is new. */
  lemma SnocKeepsOrder<T>(s: seq<T>, d: seq<T>, y: T)
    requires forall i :: 0 <= i < |d| ==> d[i] in s
    requires forall i :: 0 <= i < |s| ==> s[i] in d
    requires FirstOccurrenceOrder(s, d)
    ensures y in d ==> FirstOccurrenceOrder(s + [y], d)
    ensures y !in d ==> FirstOccurrenceOrder(s + [y], d + [y])
  {
    FirstIndexSnoc(s, y);
    var t := s + [y];
    if y !in d {
      var r := d + [y];
      assert y !in s;
      forall i, j | 0 <= i < j < |r|
        ensures FirstIndex(t, r[i]) < FirstIndex(t, r[j])
      {
        assert r[i] == d[i];
        if j < |d| {
          assert r[j] == d[j];
        }
      }
    }
  }

  /**
   * `distinct()`: the first occurrence of every element, in order — no
   * duplicates, exactly the input's elements, ordered by first occurrence.
   */
  function Distinct<T(==)>(s: seq<T>): (r: seq<T>)
    ensures NoDuplicates(r)
    ensures forall i :: 0 <= i < |r| ==> r[i] in s
    ensures forall i :: 0 <= i < |s| ==> s[i] in r
    ensures |r| <= |s|
    ensures FirstOccurrenceOrder(s, r)
  {
    if s == [] then []
    else
      var p := s[..|s| - 1];
      var d := Distinct(p);
      assert s == p + [s[|s| - 1]];
      SnocKeepsOrder(p, d, s[|s| - 1]);
      if s[|s| - 1] in d then d else d + [s[|s| - 1]]
  }

  /** A list without duplicates is its own `distinct()`. */
  lemma {:induction false} DistinctOfDistinct<T>(s: seq<T>)
    requires NoDuplicates(s)
    ensures Distinct(s) == s
  {
    if s != [] {
      var prefix, last := s[..|s| - 1], s[|s| - 1];
      assert s == prefix + [last];
      DistinctOfDistinct(prefix);
      assert last !in prefix by {
        forall i | 0 <= i < |prefix| ensures prefix[i] != last {
          assert prefix[i] == s[i];
        }
      }
    }
  }

  /** `distinct()` of a concatenation starts with `distinct()` of its first part. */
  lemma {:induction false} DistinctPrefix<T>(a: seq<T>, b: seq<T>)
    ensures Distinct(a) <= Distinct(a + b)
    decreases |b|
  {
    if b == [] {
      assert a + b == a;
    } else {
      var b' := b[..|b| - 1];
      assert (a + b)[..|a + b| - 1] == a + b';
      DistinctPrefix(a, b');
    }
  }

  /** `take(n)`: the first n elements, or all of them when there are fewer. */
  function Take<T>(s: seq<T>, n: nat): (r: seq<T>)
    ensures |r| == (if |s| <= n then |s| else n)
    ensures r <= s
  {
    if |s| <= n then s else s[..n]
  }

  /** Taking n elements of a list that starts with n given ones gives those. */
  lemma TakeOfPrefix<T>(p: seq<T>, s: seq<T>)
    requires p <= s
    ensures Take(s, |p|) == p
  {
  }

  /** `take` keeps a list free of duplicates. */
  lemma TakeNoDuplicates<T>(s: seq<T>, n: nat)
    requires NoDuplicates(s)
    ensures NoDuplicates(Take(s, n))
  {
  }

  /** A duplicate-free list followed by anything: the first |head| distinct elements are head itself. */
  lemma TakeDistinctPrefix<T>(head: seq<T>, rest: seq<T>)
    requires NoDuplicates(head)
    ensures Take(Distinct(head + rest), |head|) == head
  {
    DistinctOfDistinct(head);
    DistinctPrefix(head, rest);
    TakeOfPrefix(head, Distinct(head + rest));
  }
}
