/** Facts about sequences and multisets of any element type, proved once so
 *  that the proofs about the builder's lists can cite them. */
module Seqs {

  /** A non-empty sequence is its front followed by its last element. */
  lemma SnocSplit<T>(s: seq<T>)
    requires |s| > 0
    ensures s == s[..|s| - 1] + [s[|s| - 1]]
  {
  }

  /** One more element of a prefix. */
  lemma PrefixStep<T>(s: seq<T>, i: nat)
    requires i < |s|
    ensures s[..i + 1] == s[..i] + [s[i]] && s[..i + 1][..i] == s[..i]
  {
  }

  /** A sequence split around one of its elements. */
  lemma SplitAround<T>(s: seq<T>, i: nat)
    requires i < |s|
    ensures s == s[..i] + [s[i]] + s[i + 1..]
  {
    assert s == s[..i + 1] + s[i + 1..];
    PrefixStep(s, i);
  }

  lemma PrefixAll<T>(s: seq<T>)
    ensures s[..|s|] == s
  {
  }

  /** The front and last element of a concatenation whose second part is not empty. */
  lemma AppendFront<T>(a: seq<T>, b: seq<T>)
    requires |b| > 0
    ensures (a + b)[..|a + b| - 1] == a + b[..|b| - 1]
    ensures (a + b)[|a + b| - 1] == b[|b| - 1]
  {
  }

  lemma SeqAssoc<T>(x: seq<T>, y: seq<T>, z: seq<T>)
    ensures (x + y) + z == x + (y + z)
  {
  }

  lemma UpdateLast<T>(s: seq<T>, x: T)
    requires |s| > 0
    ensures s[|s| - 1 := x] == s[..|s| - 1] + [x]
  {
  }

  lemma UpdateFront<T>(s: seq<T>, i: nat, x: T)
    requires i < |s| - 1
    ensures s[i := x] == s[..|s| - 1][i := x] + [s[|s| - 1]]
  {
  }

  /** A sequence around one of its elements, and what is left when it is taken out. */
  lemma RemoveAt<T>(s: seq<T>, j: nat)
    requires j < |s|
    ensures s == s[..j] + [s[j]] + s[j + 1..]
    ensures multiset(s[..j] + s[j + 1..]) == multiset(s) - multiset{s[j]}
  {
    assert s == s[..j] + [s[j]] + s[j + 1..];
    assert multiset(s) == multiset(s[..j]) + multiset{s[j]} + multiset(s[j + 1..]);
  }

  lemma BagSwap<T>(a: multiset<T>, b: multiset<T>, c: multiset<T>)
    ensures a + b + c == (a + c) + b
  {
    forall y ensures (a + b + c)[y] == ((a + c) + b)[y] { }
  }

  /** Moving a part from one side of an equation of sums to the other. */
  lemma BagShuffle<T>(a: multiset<T>, b: multiset<T>, c: multiset<T>, d: multiset<T>, e: multiset<T>)
    requires a + b == c + d
    ensures (a + e) + b == (c + e) + d
  {
    forall x ensures ((a + e) + b)[x] == ((c + e) + d)[x] {
      assert (a + b)[x] == (c + d)[x];
    }
  }

  /** Where the last element of one sequence sits in a permutation of it, and
   *  what the two are without it. */
  lemma MatchLast<T>(a: seq<T>, b: seq<T>) returns (j: nat)
    requires |a| > 0 && multiset(a) == multiset(b)
    ensures j < |b| && b[j] == a[|a| - 1]
    ensures multiset(a[..|a| - 1]) == multiset(b[..j] + b[j + 1..])
  {
    var x := a[|a| - 1];
    SnocSplit(a);
    assert multiset(a) == multiset(a[..|a| - 1]) + multiset{x};
    assert x in multiset(b);
    j :| 0 <= j < |b| && b[j] == x;
    RemoveAt(b, j);
  }
}
