/**
 * Query primitives of the hosted relational store, as functions over the
 * rows of a table: a filter (`.eq(...)`, `.gte(...)`) keeps the matching rows
 * in table order, and `.order(column)` sorts by an integer column.
 */
module Tables {

  /** The rows of `s` that satisfy `p`, in their table order. */
  function Filter<T>(s: seq<T>, p: T -> bool): (r: seq<T>)
    ensures |r| <= |s|
    ensures forall i :: 0 <= i < |r| ==> r[i] in s && p(r[i])
    ensures forall i :: 0 <= i < |s| && p(s[i]) ==> s[i] in r
  {
    if s == [] then []
    else if p(s[0]) then [s[0]] + Filter(s[1..], p)
    else Filter(s[1..], p)
  }

  /** A filter keeps every matching row as often as the table holds it, and drops the others. */
  lemma {:induction false} FilterCounts<T>(s: seq<T>, p: T -> bool)
    ensures forall i :: 0 <= i < |s| ==> multiset(Filter(s, p))[s[i]] == if p(s[i]) then multiset(s)[s[i]] else 0
  {
    if s != [] {
      assert s == [s[0]] + s[1..];
      FilterCounts(s[1..], p);
    }
  }

  /**
   * Filtering a concatenation filters each part: the kept rows stay in table
   * order, which with the singleton case below pins the filter down exactly.
   */
  lemma {:induction false} FilterConcat<T>(a: seq<T>, b: seq<T>, p: T -> bool)
    ensures Filter(a + b, p) == Filter(a, p) + Filter(b, p)
  {
    if a == [] {
      assert a + b == b;
    } else {
      assert (a + b)[1..] == a[1..] + b;
      FilterConcat(a[1..], b, p);
    }
  }

  /** A filter keeps every row when every row matches, and none when none does. */
  lemma {:induction false} FilterAllOrNone<T>(s: seq<T>, p: T -> bool)
    ensures (forall i :: 0 <= i < |s| ==> p(s[i])) ==> Filter(s, p) == s
    ensures (forall i :: 0 <= i < |s| ==> !p(s[i])) ==> Filter(s, p) == []
  {
    if s != [] {
      var t := s[1..];
      assert forall i :: 0 <= i < |t| ==> t[i] == s[i + 1];
      FilterAllOrNone(t, p);
      if forall i :: 0 <= i < |s| ==> p(s[i]) {
        assert forall i :: 0 <= i < |t| ==> p(t[i]);
        assert Filter(s, p) == [s[0]] + t;
        assert [s[0]] + t == s;
      }
      if forall i :: 0 <= i < |s| ==> !p(s[i]) {
        assert forall i :: 0 <= i < |t| ==> !p(t[i]);
      }
    }
  }

  /** Filters whose conditions agree on every row of `s` select the same rows. */
  lemma {:induction false} FilterSame<T>(s: seq<T>, p: T -> bool, q: T -> bool)
    requires forall i :: 0 <= i < |s| ==> p(s[i]) == q(s[i])
    ensures Filter(s, p) == Filter(s, q)
  {
    if s != [] {
      assert forall i :: 0 <= i < |s[1..]| ==> s[1..][i] == s[i + 1];
      FilterSame(s[1..], p, q);
    }
  }

  /** A filter with a weaker condition keeps at least as many rows. */
  lemma {:induction false} FilterMonotone<T>(s: seq<T>, p: T -> bool, q: T -> bool)
    requires forall i :: 0 <= i < |s| ==> p(s[i]) ==> q(s[i])
    ensures |Filter(s, p)| <= |Filter(s, q)|
  {
    if s != [] {
      assert forall i :: 0 <= i < |s[1..]| ==> s[1..][i] == s[i + 1];
      FilterMonotone(s[1..], p, q);
    }
  }

  /** The rows of `s` are in ascending order of `key`. */
  ghost predicate SortedBy<T>(s: seq<T>, key: T -> int)
  {
    forall i, j :: 0 <= i < j < |s| ==> key(s[i]) <= key(s[j])
  }

  /** Inserts `x` in front of the first row whose key is not smaller. */
  function Insert<T>(x: T, s: seq<T>, key: T -> int): (r: seq<T>)
    ensures |r| == |s| + 1
    ensures multiset(r) == multiset(s) + multiset{x}
    ensures r[0] == x || (s != [] && r[0] == s[0])
    ensures SortedBy(s, key) ==> SortedBy(r, key)
  {
    if s == [] then [x]
    else if key(x) <= key(s[0]) then
      ConsSorted(x, s, key);
      [x] + s
    else
      assert s == [s[0]] + s[1..];
      var rest := Insert(x, s[1..], key);
      ConsSorted(s[0], rest, key);
      [s[0]] + rest
  }

  /** A row no greater than the head of a sorted sequence can go in front of it. */
  lemma ConsSorted<T>(h: T, t: seq<T>, key: T -> int)
    ensures SortedBy(t, key) && (t != [] ==> key(h) <= key(t[0])) ==> SortedBy([h] + t, key)
  {
    if SortedBy(t, key) && (t != [] ==> key(h) <= key(t[0])) {
      forall i, j | 0 <= i < j < |[h] + t|
        ensures key(([h] + t)[i]) <= key(([h] + t)[j])
      {
        if i == 0 && j > 1 {
          assert key(t[0]) <= key(t[j - 1]);
        }
      }
    }
  }

  /**
   * The rows of `s` ordered by `key`, ascending (`.order(column, { ascending: true })`);
   * a descending order is the ascending order of the negated key. Rows with equal
   * keys may come out in any order: the store promises nothing about ties either.
   */
  function SortBy<T>(s: seq<T>, key: T -> int): (r: seq<T>)
    ensures |r| == |s|
    ensures multiset(r) == multiset(s)
    ensures SortedBy(r, key)
  {
    if s == [] then []
    else
      assert s == [s[0]] + s[1..];
      Insert(s[0], SortBy(s[1..], key), key)
  }
}
