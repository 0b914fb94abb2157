/** A stable sort by a comparator, standing for the library list sort the
 *  builder calls: insertion sort, each element placed after the ones not
 *  greater than it.  Its stability is proved in module Selection. */
module Sorting {

  /** `le` relates every pair one way or the other and is transitive. */
  ghost predicate TotalPreorder<T(!new)>(le: (T, T) -> bool)
  {
    && (forall a, b :: le(a, b) || le(b, a))
    && (forall a, b, c :: le(a, b) && le(b, c) ==> le(a, c))
  }

  ghost predicate SortedBy<T>(s: seq<T>, le: (T, T) -> bool)
  {
    forall i, j :: 0 <= i < j < |s| ==> le(s[i], s[j])
  }

  /** Inserts `x` into `r` after every element not greater than it. */
  function Insert<T>(r: seq<T>, x: T, le: (T, T) -> bool): seq<T>
    decreases |r|
  {
    if |r| == 0 then [x]
    else if le(r[|r| - 1], x) then r + [x]
    else Insert(r[..|r| - 1], x, le) + [r[|r| - 1]]
  }

  /** Insertion sort: each element in input order is inserted after its equals. */
  function SortBy<T>(s: seq<T>, le: (T, T) -> bool): seq<T>
    decreases |s|
  {
    if |s| == 0 then [] else Insert(SortBy(s[..|s| - 1], le), s[|s| - 1], le)
  }

  lemma {:induction false} InsertPermutes<T>(r: seq<T>, x: T, le: (T, T) -> bool)
    ensures multiset(Insert(r, x, le)) == multiset(r) + multiset{x}
    ensures |Insert(r, x, le)| == |r| + 1
    decreases |r|
  {
    if |r| > 0 && !le(r[|r| - 1], x) {
      InsertPermutes(r[..|r| - 1], x, le);
      assert r == r[..|r| - 1] + [r[|r| - 1]];
    }
  }

  lemma {:induction false} InsertSorted<T(!new)>(r: seq<T>, x: T, le: (T, T) -> bool)
    requires TotalPreorder(le) && SortedBy(r, le)
    ensures SortedBy(Insert(r, x, le), le)
    decreases |r|
  {
    if |r| > 0 {
      var last := r[|r| - 1];
      if le(last, x) {
        var out := r + [x];
        forall i, j | 0 <= i < j < |out| ensures le(out[i], out[j]) {
          if j == |r| && i < |r| - 1 {
            assert le(r[i], last);
          }
        }
      } else {
        var p := r[..|r| - 1];
        assert SortedBy(p, le);
        InsertSorted(p, x, le);
        InsertPermutes(p, x, le);
        var q := Insert(p, x, le);
        assert le(x, last);
        forall i | 0 <= i < |q| ensures le(q[i], last) {
          assert q[i] in multiset(q);
          if q[i] != x {
            assert q[i] in multiset(p);
            var k :| 0 <= k < |p| && p[k] == q[i];
            assert r[k] == p[k];
          }
        }
        var out := q + [last];
        forall i, j | 0 <= i < j < |out| ensures le(out[i], out[j]) {
          if j < |q| {
            assert out[i] == q[i] && out[j] == q[j];
          }
        }
      }
    }
  }

  lemma {:induction false} SortByPermutes<T>(s: seq<T>, le: (T, T) -> bool)
    ensures multiset(SortBy(s, le)) == multiset(s)
    ensures |SortBy(s, le)| == |s|
    decreases |s|
  {
    if |s| > 0 {
      var p := s[..|s| - 1];
      SortByPermutes(p, le);
      InsertPermutes(SortBy(p, le), s[|s| - 1], le);
      assert s == p + [s[|s| - 1]];
    }
  }

  lemma {:induction false} SortBySorted<T(!new)>(s: seq<T>, le: (T, T) -> bool)
    requires TotalPreorder(le)
    ensures SortedBy(SortBy(s, le), le)
    decreases |s|
  {
    if |s| > 0 {
      SortBySorted(s[..|s| - 1], le);
      InsertSorted(SortBy(s[..|s| - 1], le), s[|s| - 1], le);
    }
  }
}
