/** Order-preserving selection from a sequence: the elements a predicate keeps,
 *  and the ones it drops, in their original order. */
module Selection {
  import opened Sorting
  import opened Seqs

  function Select<T>(s: seq<T>, p: T -> bool): seq<T>
    decreases |s|
  {
    if |s| == 0 then []
    else Select(s[..|s| - 1], p) + (if p(s[|s| - 1]) then [s[|s| - 1]] else [])
  }

  /** Two predicates that agree on every element select the same elements. */
  lemma {:induction false} SelectCongruent<T>(s: seq<T>, p: T -> bool, q: T -> bool)
    requires forall x :: x in s ==> p(x) == q(x)
    ensures Select(s, p) == Select(s, q)
    decreases |s|
  {
    if |s| > 0 {
      SelectCongruent(s[..|s| - 1], p, q);
      assert s[|s| - 1] in s;
    }
  }

  /** The elements the predicate drops. */
  function Drop<T>(s: seq<T>, p: T -> bool): seq<T>
    decreases |s|
  {
    if |s| == 0 then []
    else Drop(s[..|s| - 1], p) + (if p(s[|s| - 1]) then [] else [s[|s| - 1]])
  }

  lemma {:induction false} SelectAppend<T>(a: seq<T>, b: seq<T>, p: T -> bool)
    ensures Select(a + b, p) == Select(a, p) + Select(b, p)
    ensures Drop(a + b, p) == Drop(a, p) + Drop(b, p)
    decreases |b|
  {
    if |b| == 0 {
      assert a + b == a;
    } else {
      var b', x := b[..|b| - 1], b[|b| - 1];
      AppendFront(a, b);
      SelectAppend(a, b', p);
      SeqAssoc(Select(a, p), Select(b', p), if p(x) then [x] else []);
      SeqAssoc(Drop(a, p), Drop(b', p), if p(x) then [] else [x]);
    }
  }

  lemma SelectOne<T>(x: T, p: T -> bool)
    ensures Select([x], p) == if p(x) then [x] else []
    ensures Drop([x], p) == if p(x) then [] else [x]
  {
    assert [x][..0] == [];
  }

  /** An element is selected exactly when it occurs and the predicate holds of it. */
  lemma {:induction false} SelectMembers<T>(s: seq<T>, p: T -> bool, x: T)
    ensures x in Select(s, p) <==> x in s && p(x)
    ensures x in Drop(s, p) <==> x in s && !p(x)
    decreases |s|
  {
    if |s| > 0 {
      SelectMembers(s[..|s| - 1], p, x);
      assert s == s[..|s| - 1] + [s[|s| - 1]];
    }
  }

  /** Every element lands on exactly one side. */
  lemma {:induction false} SelectPartition<T>(s: seq<T>, p: T -> bool)
    ensures multiset(Select(s, p)) + multiset(Drop(s, p)) == multiset(s)
    decreases |s|
  {
    if |s| > 0 {
      var q, x := s[..|s| - 1], s[|s| - 1];
      SelectPartition(q, p);
      SnocSplit(s);
      assert multiset(s) == multiset(q) + multiset{x};
      var sq, dq := multiset(Select(q, p)), multiset(Drop(q, p));
      if p(x) {
        assert multiset(Select(s, p)) == sq + multiset{x};
        assert multiset(Drop(s, p)) == dq;
        BagSwap(sq, multiset{x}, dq);
      } else {
        assert multiset(Select(s, p)) == sq;
        assert multiset(Drop(s, p)) == dq + multiset{x};
      }
    }
  }

  /** Selecting from a sorted sequence leaves it sorted. */
  lemma {:induction false} SelectSorted<T>(s: seq<T>, p: T -> bool, le: (T, T) -> bool)
    requires SortedBy(s, le)
    ensures SortedBy(Select(s, p), le)
    decreases |s|
  {
    if |s| > 0 {
      var q0 := s[..|s| - 1];
      var x := s[|s| - 1];
      assert SortedBy(q0, le);
      SelectSorted(q0, p, le);
      if p(x) {
        var q := Select(q0, p);
        forall i | 0 <= i < |q| ensures le(q[i], x) {
          SelectMembers(q0, p, q[i]);
          var k :| 0 <= k < |q0| && q0[k] == q[i];
          assert s[k] == q0[k];
        }
      }
    }
  }

  /** `a` is `b` with some elements left out and the rest in their order. */
  ghost predicate Subseq<T>(a: seq<T>, b: seq<T>)
    decreases |b|
  {
    if |a| == 0 then true
    else if |b| == 0 then false
    else (a[|a| - 1] == b[|b| - 1] && Subseq(a[..|a| - 1], b[..|b| - 1])) || Subseq(a, b[..|b| - 1])
  }

  lemma {:induction false} SubseqMembers<T>(a: seq<T>, b: seq<T>, x: T)
    requires Subseq(a, b) && x in a
    ensures x in b
    decreases |b|
  {
    var b' := b[..|b| - 1];
    if a[|a| - 1] == b[|b| - 1] && Subseq(a[..|a| - 1], b') {
      if x != a[|a| - 1] {
        assert a == a[..|a| - 1] + [a[|a| - 1]];
        SubseqMembers(a[..|a| - 1], b', x);
      }
    } else {
      SubseqMembers(a, b', x);
    }
    assert b == b' + [b[|b| - 1]];
  }

  /** Leaving elements out of a sorted sequence leaves it sorted. */
  lemma {:induction false} SubseqSorted<T>(a: seq<T>, b: seq<T>, le: (T, T) -> bool)
    requires Subseq(a, b) && SortedBy(b, le)
    ensures SortedBy(a, le)
    decreases |b|
  {
    if |a| > 0 {
      var b' := b[..|b| - 1];
      assert SortedBy(b', le);
      if a[|a| - 1] == b[|b| - 1] && Subseq(a[..|a| - 1], b') {
        var a' := a[..|a| - 1];
        SubseqSorted(a', b', le);
        forall i | 0 <= i < |a'| ensures le(a'[i], a[|a| - 1]) {
          SubseqMembers(a', b', a'[i]);
          var k :| 0 <= k < |b'| && b'[k] == a'[i];
          assert b[k] == b'[k];
        }
      } else {
        SubseqSorted(a, b', le);
      }
    }
  }

  lemma {:induction false} SubseqExtend<T>(a: seq<T>, b: seq<T>, d: seq<T>)
    requires Subseq(a, b)
    ensures Subseq(a, b + d)
    decreases |d|
  {
    if |d| == 0 {
      assert b + d == b;
    } else {
      SubseqExtend(a, b, d[..|d| - 1]);
      assert (b + d)[..|b + d| - 1] == b + d[..|d| - 1];
    }
  }

  /** Subsequences of two pieces make a subsequence of the two joined. */
  lemma {:induction false} SubseqAppend<T>(a: seq<T>, b: seq<T>, c: seq<T>, d: seq<T>)
    requires Subseq(a, b) && Subseq(c, d)
    ensures Subseq(a + c, b + d)
    decreases |d|
  {
    if |c| == 0 {
      assert a + c == a;
      SubseqExtend(a, b, d);
    } else {
      var c', d' := c[..|c| - 1], d[..|d| - 1];
      assert (b + d)[..|b + d| - 1] == b + d';
      if c[|c| - 1] == d[|d| - 1] && Subseq(c', d') {
        SubseqAppend(a, b, c', d');
        assert (a + c)[..|a + c| - 1] == a + c';
      } else {
        SubseqAppend(a, b, c, d');
      }
    }
  }

  lemma {:induction false} SelectSubseq<T>(s: seq<T>, p: T -> bool)
    ensures Subseq(Select(s, p), s)
    decreases |s|
  {
    if |s| > 0 {
      var q := s[..|s| - 1];
      SelectSubseq(q, p);
      if p(s[|s| - 1]) {
        assert Select(s, p)[..|Select(s, p)| - 1] == Select(q, p);
      } else {
        assert Select(s, p) == Select(q, p);
      }
    }
  }

  lemma {:induction false} SubseqRefl<T>(a: seq<T>)
    ensures Subseq(a, a)
    decreases |a|
  {
    if |a| > 0 {
      SubseqRefl(a[..|a| - 1]);
    }
  }

  /** The elements `le` ties with `c`: those it orders both before and after `c`. */
  function TiedWith<T>(le: (T, T) -> bool, c: T): T -> bool
  {
    (y: T) => le(c, y) && le(y, c)
  }

  /** Inserting `x` after the elements not greater than it puts it after every
   *  element it ties with: within a tie, the inserted element comes last. */
  lemma {:induction false} InsertStable<T(!new)>(r: seq<T>, x: T, le: (T, T) -> bool, c: T)
    requires TotalPreorder(le)
    ensures Select(Insert(r, x, le), TiedWith(le, c))
         == Select(r, TiedWith(le, c)) + (if TiedWith(le, c)(x) then [x] else [])
    decreases |r|
  {
    var p := TiedWith(le, c);
    if |r| == 0 {
      SelectOne(x, p);
    } else if le(r[|r| - 1], x) {
      assert (r + [x])[..|r|] == r;
    } else {
      var q, last := r[..|r| - 1], r[|r| - 1];
      InsertStable(q, x, le, c);
      var ins := Insert(q, x, le);
      assert (ins + [last])[..|ins|] == ins;
      assert !(p(x) && p(last));
    }
  }

  /** The reference sort is stable: the elements of every tie keep their input order. */
  lemma {:induction false} SortByStable<T(!new)>(s: seq<T>, le: (T, T) -> bool, c: T)
    requires TotalPreorder(le)
    ensures Select(SortBy(s, le), TiedWith(le, c)) == Select(s, TiedWith(le, c))
    decreases |s|
  {
    if |s| > 0 {
      var q := s[..|s| - 1];
      SortByStable(q, le, c);
      InsertStable(SortBy(q, le), s[|s| - 1], le, c);
    }
  }
}
