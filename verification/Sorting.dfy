/**
 * Kotlin's `sortedByDescending { it.value }` on map entries: a stable sort,
 * modelled as insertion of each entry after every entry whose value is at
 * least its own.
 */
module Sorting {

  /** A (display name, milliseconds) entry of the per-name map. */
  type Entry = (string, int)

  ghost predicate NonIncreasing(s: seq<Entry>) {
    forall i, j :: 0 <= i < j < |s| ==> s[j].1 <= s[i].1
  }

  /** Inserts x after every entry whose time is at least x's (keeps ties in arrival order). */
  function InsertDescending(x: Entry, sorted: seq<Entry>): seq<Entry> {
    if sorted == [] then [x]
    else if x.1 > sorted[0].1 then [x] + sorted
    else [sorted[0]] + InsertDescending(x, sorted[1..])
  }

  /** Insertion adds exactly x. */
  lemma {:induction false} InsertDescendingPermutes(x: Entry, sorted: seq<Entry>)
    ensures multiset(InsertDescending(x, sorted)) == multiset(sorted) + multiset{x}
  {
    if sorted != [] && x.1 <= sorted[0].1 {
      InsertDescendingPermutes(x, sorted[1..]);
      assert sorted == [sorted[0]] + sorted[1..];
    }
  }

  /** Every entry of the result is x or an entry of the input. */
  lemma InsertDescendingMember(x: Entry, sorted: seq<Entry>, i: int)
    requires 0 <= i < |InsertDescending(x, sorted)|
    ensures InsertDescending(x, sorted)[i] == x || InsertDescending(x, sorted)[i] in sorted
  {
    InsertDescendingPermutes(x, sorted);
    assert InsertDescending(x, sorted)[i] in multiset(InsertDescending(x, sorted));
  }

  /** Inserting into a sorted list keeps it sorted. */
  lemma {:induction false} InsertDescendingSorted(x: Entry, sorted: seq<Entry>)
    requires NonIncreasing(sorted)
    ensures NonIncreasing(InsertDescending(x, sorted))
  {
    if sorted != [] && x.1 <= sorted[0].1 {
      var rest := InsertDescending(x, sorted[1..]);
      InsertDescendingSorted(x, sorted[1..]);
      forall i | 0 <= i < |rest|
        ensures rest[i].1 <= sorted[0].1
      {
        InsertDescendingMember(x, sorted[1..], i);
      }
      var r := [sorted[0]] + rest;
      assert InsertDescending(x, sorted) == r;
      forall i, j | 0 <= i < j < |r|
        ensures r[j].1 <= r[i].1
      {
        if i > 0 {
          assert r[i] == rest[i - 1] && r[j] == rest[j - 1];
        }
      }
    }
  }

  /** A stable sort by descending time: Kotlin's `sortedByDescending`. */
  function SortByDescending(s: seq<Entry>): seq<Entry> {
    if s == [] then [] else InsertDescending(s[|s| - 1], SortByDescending(s[..|s| - 1]))
  }

  /** The sort's output is in non-increasing time order. */
  lemma {:induction false} SortByDescendingSorted(s: seq<Entry>)
    ensures NonIncreasing(SortByDescending(s))
  {
    if s != [] {
      SortByDescendingSorted(s[..|s| - 1]);
      InsertDescendingSorted(s[|s| - 1], SortByDescending(s[..|s| - 1]));
    }
  }

  /** The sort's output is a permutation of its input. */
  lemma {:induction false} SortByDescendingPermutes(s: seq<Entry>)
    ensures multiset(SortByDescending(s)) == multiset(s)
  {
    if s != [] {
      SortByDescendingPermutes(s[..|s| - 1]);
      InsertDescendingPermutes(s[|s| - 1], SortByDescending(s[..|s| - 1]));
      assert s == s[..|s| - 1] + [s[|s| - 1]];
    }
  }

  /** The entries of s with time v, in order. */
  function WithTime(s: seq<Entry>, v: int): seq<Entry> {
    if s == [] then [] else (if s[0].1 == v then [s[0]] else []) + WithTime(s[1..], v)
  }

  lemma {:induction false} WithTimeAppend(a: seq<Entry>, b: seq<Entry>, v: int)
    ensures WithTime(a + b, v) == WithTime(a, v) + WithTime(b, v)
  {
    if a != [] {
      assert (a + b)[1..] == a[1..] + b;
      WithTimeAppend(a[1..], b, v);
    } else {
      assert a + b == b;
    }
  }

  lemma {:induction false} WithTimeNone(s: seq<Entry>, v: int)
    requires forall i :: 0 <= i < |s| ==> s[i].1 != v
    ensures WithTime(s, v) == []
  {
    if s != [] {
      WithTimeNone(s[1..], v);
    }
  }

  lemma WithTimeCons(e: Entry, s: seq<Entry>, v: int)
    ensures WithTime([e] + s, v) == (if e.1 == v then [e] else []) + WithTime(s, v)
  {
    assert ([e] + s)[0] == e && ([e] + s)[1..] == s;
  }

  /** Below a sorted list's head no entry has a larger time; its tail is sorted. */
  lemma NonIncreasingSplit(s: seq<Entry>)
    requires NonIncreasing(s) && s != []
    ensures forall i :: 0 <= i < |s| ==> s[i].1 <= s[0].1
    ensures NonIncreasing(s[1..])
  {
  }

  lemma {:induction false} InsertDescendingStable(x: Entry, sorted: seq<Entry>, v: int)
    requires NonIncreasing(sorted)
    ensures WithTime(InsertDescending(x, sorted), v) == WithTime(sorted, v) + (if x.1 == v then [x] else [])
  {
    var xs := if x.1 == v then [x] else [];
    if sorted == [] {
      WithTimeCons(x, [], v);
    } else {
      NonIncreasingSplit(sorted);
      var head := if sorted[0].1 == v then [sorted[0]] else [];
      assert WithTime(sorted, v) == head + WithTime(sorted[1..], v);
      if x.1 > sorted[0].1 {
        WithTimeCons(x, sorted, v);
        if x.1 == v {
          WithTimeNone(sorted, v);
        }
      } else {
        var rest := InsertDescending(x, sorted[1..]);
        assert InsertDescending(x, sorted) == [sorted[0]] + rest;
        WithTimeCons(sorted[0], rest, v);
        InsertDescendingStable(x, sorted[1..], v);
        assert head + (WithTime(sorted[1..], v) + xs) == (head + WithTime(sorted[1..], v)) + xs;
      }
    }
  }

  /**
   * The sort is stable: among entries with equal time, the input order (first
   * insertion into the map) is kept.
   */
  lemma WithTimeSnoc(prefix: seq<Entry>, x: Entry, v: int)
    ensures WithTime(prefix + [x], v) == WithTime(prefix, v) + (if x.1 == v then [x] else [])
  {
    WithTimeAppend(prefix, [x], v);
    assert WithTime([x], v) == (if x.1 == v then [x] else []) + WithTime([], v);
  }

  lemma {:induction false} SortByDescendingStable(s: seq<Entry>, v: int)
    ensures WithTime(SortByDescending(s), v) == WithTime(s, v)
  {
    if s != [] {
      var prefix, x := s[..|s| - 1], s[|s| - 1];
      SortByDescendingSorted(prefix);
      InsertDescendingStable(x, SortByDescending(prefix), v);
      SortByDescendingStable(prefix, v);
      WithTimeSnoc(prefix, x, v);
      assert s == prefix + [x];
    }
  }
}
