/** Facts about sequences that the registry's results are stated with:
    distinctness, sortedness under a key, the per-key subsequences that a
    stable sort keeps, counting, and the bubble sort both registry sorts
    share (registry.go:147-159 and 268-277). */
module Sequences {

  /** No element occurs twice. */
  ghost predicate Distinct<T>(s: seq<T>) {
    forall i, j :: 0 <= i < j < |s| ==> s[i] != s[j]
  }

  /** Non-decreasing under key. */
  ghost predicate SortedBy<T>(s: seq<T>, key: T -> int) {
    forall i, j :: 0 <= i < j < |s| ==> key(s[i]) <= key(s[j])
  }

  /** The elements of s whose key is k, in the order s has them. */
  function WithKey<T>(s: seq<T>, key: T -> int, k: int): (r: seq<T>)
    ensures |r| <= |s|
  {
    if s == [] then []
    else (if key(s[0]) == k then [s[0]] else []) + WithKey(s[1..], key, k)
  }

  /** s and t list the elements of each key in the same relative order:
      what a stable sort keeps. */
  ghost predicate SameOrderPerKey<T>(s: seq<T>, t: seq<T>, key: T -> int) {
    forall k :: WithKey(s, key, k) == WithKey(t, key, k)
  }

  /** The number of elements satisfying p. */
  function CountWhere<T>(s: seq<T>, p: T -> bool): (n: nat)
    ensures n <= |s|
  {
    if s == [] then 0 else (if p(s[0]) then 1 else 0) + CountWhere(s[1..], p)
  }

  /** f applied to every element. */
  function Project<T, U>(s: seq<T>, f: T -> U): (r: seq<U>)
    ensures |r| == |s|
    ensures forall i :: 0 <= i < |s| ==> r[i] == f(s[i])
  {
    if s == [] then [] else [f(s[0])] + Project(s[1..], f)
  }

  lemma {:induction false} WithKeyAppend<T>(a: seq<T>, b: seq<T>, key: T -> int, k: int)
    ensures WithKey(a + b, key, k) == WithKey(a, key, k) + WithKey(b, key, k)
  {
    if a == [] {
      assert a + b == b;
    } else {
      var head := if key(a[0]) == k then [a[0]] else [];
      assert (a + b)[1..] == a[1..] + b;
      calc {
        WithKey(a + b, key, k);
        head + WithKey(a[1..] + b, key, k);
        { WithKeyAppend(a[1..], b, key, k); }
        head + (WithKey(a[1..], key, k) + WithKey(b, key, k));
        (head + WithKey(a[1..], key, k)) + WithKey(b, key, k);
      }
    }
  }

  lemma {:induction false} CountWhereAppend<T>(a: seq<T>, b: seq<T>, p: T -> bool)
    ensures CountWhere(a + b, p) == CountWhere(a, p) + CountWhere(b, p)
  {
    if a == [] {
      assert a + b == b;
    } else {
      assert (a + b)[1..] == a[1..] + b;
      CountWhereAppend(a[1..], b, p);
    }
  }

  lemma {:induction false} NoneCounted<T>(s: seq<T>, p: T -> bool)
    requires forall x :: x in s ==> !p(x)
    ensures CountWhere(s, p) == 0
  {
    if s != [] {
      assert s[0] in s;
      NoneCounted(s[1..], p);
    }
  }

  lemma {:induction false} ProjectAppend<T, U>(a: seq<T>, b: seq<T>, f: T -> U)
    ensures Project(a + b, f) == Project(a, f) + Project(b, f)
  {
    if a == [] {
      assert a + b == b;
    } else {
      assert (a + b)[1..] == a[1..] + b;
      ProjectAppend(a[1..], b, f);
    }
  }

  /** Exchanging two neighbours with different keys keeps every key's
      subsequence: the step a bubble sort that swaps only on a strict
      inequality takes. */
  lemma SwapKeepsOrderPerKey<T>(s: seq<T>, j: nat, key: T -> int)
    requires j + 1 < |s|
    requires key(s[j]) != key(s[j + 1])
    ensures SameOrderPerKey(s[j := s[j + 1]][j + 1 := s[j]], s, key)
  {
    var t := s[j := s[j + 1]][j + 1 := s[j]];
    var pre, x, y, post := s[..j], s[j], s[j + 1], s[j + 2..];
    assert s == pre + ([x] + [y]) + post;
    assert t == pre + ([y] + [x]) + post;
    forall k
      ensures WithKey(t, key, k) == WithKey(s, key, k)
    {
      WithKeyAppend(pre + ([x] + [y]), post, key, k);
      WithKeyAppend(pre, [x] + [y], key, k);
      WithKeyAppend([x], [y], key, k);
      WithKeyAppend(pre + ([y] + [x]), post, key, k);
      WithKeyAppend(pre, [y] + [x], key, k);
      WithKeyAppend([y], [x], key, k);
    }
  }

  /** Removing one occurrence: the step of the permutation lemmas below. */
  lemma RemoveAt<T>(t: seq<T>, x: T) returns (i: nat)
    requires x in multiset(t)
    ensures i < |t| && t[i] == x
    ensures t == t[..i] + [x] + t[i + 1..]
    ensures multiset(t[..i] + t[i + 1..]) == multiset(t) - multiset{x}
  {
    assert x in t;
    i :| 0 <= i < |t| && t[i] == x;
    assert t == t[..i] + [x] + t[i + 1..];
  }

  /** Counting is blind to order. */
  lemma {:induction false} CountWherePermutation<T>(s: seq<T>, t: seq<T>, p: T -> bool)
    requires multiset(s) == multiset(t)
    ensures CountWhere(s, p) == CountWhere(t, p)
  {
    if s == [] {
      assert |t| == |multiset(t)| == 0;
    } else {
      var x := s[0];
      assert s == [x] + s[1..];
      var i := RemoveAt(t, x);
      var rest := t[..i] + t[i + 1..];
      CountWherePermutation(s[1..], rest, p);
      CountWhereAppend(t[..i] + [x], t[i + 1..], p);
      CountWhereAppend(t[..i], [x], p);
      CountWhereAppend(t[..i], t[i + 1..], p);
    }
  }

  /** Projecting a permutation gives a permutation. */
  lemma {:induction false} ProjectPermutation<T, U>(s: seq<T>, t: seq<T>, f: T -> U)
    requires multiset(s) == multiset(t)
    ensures multiset(Project(s, f)) == multiset(Project(t, f))
  {
    if s == [] {
      assert |t| == |multiset(t)| == 0;
    } else {
      var x := s[0];
      assert s == [x] + s[1..];
      var i := RemoveAt(t, x);
      var rest := t[..i] + t[i + 1..];
      ProjectPermutation(s[1..], rest, f);
      ProjectAppend(t[..i] + [x], t[i + 1..], f);
      ProjectAppend(t[..i], [x], f);
      ProjectAppend(t[..i], t[i + 1..], f);
    }
  }

  /** A sequence is distinct exactly when every element occurs at most once
      in its multiset; so a permutation of a distinct sequence is distinct. */
  lemma {:induction false} DistinctMultiplicity<T>(s: seq<T>, x: T)
    requires Distinct(s)
    ensures multiset(s)[x] <= 1
  {
    if s != [] {
      assert s == [s[0]] + s[1..];
      DistinctMultiplicity(s[1..], x);
      if s[0] == x {
        assert x !in s[1..];
      }
    }
  }

  lemma DistinctPermutation<T>(s: seq<T>, t: seq<T>)
    requires multiset(s) == multiset(t)
    requires Distinct(s)
    ensures Distinct(t)
  {
    forall i, j | 0 <= i < j < |t|
      ensures t[i] != t[j]
    {
      if t[i] == t[j] {
        var x := t[i];
        assert t == t[..i] + [x] + t[i + 1..j] + [x] + t[j + 1..];
        assert multiset(t)[x] >= 2;
        DistinctMultiplicity(s, x);
        assert false;
      }
    }
  }

  /** Joining two distinct sequences with no element in common gives a
      distinct sequence. */
  lemma DistinctConcat<T>(s: seq<T>, t: seq<T>)
    requires Distinct(s) && Distinct(t)
    requires forall x :: x in s ==> x !in t
    ensures Distinct(s + t)
  {
    forall i, j | 0 <= i < j < |s + t|
      ensures (s + t)[i] != (s + t)[j]
    {
      if i < |s| && |s| <= j {
        assert (s + t)[i] in s && (s + t)[j] in t;
      }
    }
  }

  /** A sequence that lists the members of a set, each once, is as long as
      the set is large. */
  lemma {:induction false} DistinctLength<T>(s: seq<T>, elems: set<T>)
    requires Distinct(s)
    requires forall x :: x in s <==> x in elems
    ensures |s| == |elems|
  {
    if s == [] {
      assert elems == {};
    } else {
      var rest := elems - {s[0]};
      assert s == [s[0]] + s[1..];
      assert s[0] !in s[1..];
      DistinctLength(s[1..], rest);
    }
  }

  /** When the elements' keys are distinct and p holds of exactly those whose
      key is in keys, all of which occur, p holds of |keys| elements. */
  lemma {:induction false} CountByKeys<T, U>(s: seq<T>, f: T -> U, p: T -> bool, keys: set<U>)
    requires Distinct(Project(s, f))
    requires forall x :: x in s ==> (p(x) <==> f(x) in keys)
    requires forall k :: k in keys ==> k in Project(s, f)
    ensures CountWhere(s, p) == |keys|
  {
    if s == [] {
      assert keys == {};
    } else {
      var x := s[0];
      var tail := Project(s[1..], f);
      assert Project(s, f) == [f(x)] + tail;
      assert Distinct(tail) && f(x) !in tail;
      var rest := if p(x) then keys - {f(x)} else keys;
      forall k | k in rest
        ensures k in tail
      {
        assert k in Project(s, f);
      }
      CountByKeys(s[1..], f, p, rest);
    }
  }

  /** The elements of a set, each once, in an order the caller cannot rely
      on: the way Go enumerates the keys of a map. */
  method Enumerate<T>(s: set<T>) returns (listed: seq<T>)
    ensures Distinct(listed)
    ensures forall x :: x in listed <==> x in s
    ensures |listed| == |s|
  {
    listed := [];
    var rest := s;
    while rest != {}
      invariant rest <= s
      invariant forall x :: x in listed <==> x in s && x !in rest
      invariant Distinct(listed)
      invariant |listed| + |rest| == |s|
      decreases |rest|
    {
      var x :| x in rest;
      listed := listed + [x];
      rest := rest - {x};
    }
  }

  /** t is s reordered: a permutation that keeps equal keys in order. */
  ghost predicate Rearranged<T>(s: seq<T>, t: seq<T>, key: T -> int) {
    multiset(s) == multiset(t) && SameOrderPerKey(s, t, key)
  }

  /** Among elements with equal keys, rank never decreases. */
  ghost predicate TiesOrderedBy<T>(s: seq<T>, key: T -> int, rank: T -> int) {
    forall i, j :: 0 <= i < j < |s| && key(s[i]) == key(s[j]) ==> rank(s[i]) <= rank(s[j])
  }

  /** A stable reordering of a list sorted by rank leaves every run of
      equal keys sorted by rank. */
  lemma StableKeepsRankOrder<T>(s: seq<T>, t: seq<T>, key: T -> int, rank: T -> int)
    requires SortedBy(s, rank)
    requires SameOrderPerKey(t, s, key)
    ensures TiesOrderedBy(t, key, rank)
  {
    forall i, j | 0 <= i < j < |t| && key(t[i]) == key(t[j])
      ensures rank(t[i]) <= rank(t[j])
    {
      var k := key(t[i]);
      WithKeySorted(s, key, k, rank);
      assert WithKey(t, key, k) == WithKey(s, key, k);
      WithKeyOrder(t, key, k, rank, i, j);
    }
  }

  lemma {:induction false} WithKeyMember<T>(s: seq<T>, key: T -> int, k: int, x: T)
    ensures x in WithKey(s, key, k) <==> x in s && key(x) == k
  {
    if s != [] {
      WithKeyMember(s[1..], key, k, x);
      assert s == [s[0]] + s[1..];
    }
  }

  /** Filtering keeps a list sorted. */
  lemma {:induction false} WithKeySorted<T>(s: seq<T>, key: T -> int, k: int, rank: T -> int)
    requires SortedBy(s, rank)
    ensures SortedBy(WithKey(s, key, k), rank)
  {
    if s != [] {
      var rest := WithKey(s[1..], key, k);
      WithKeySorted(s[1..], key, k, rank);
      forall x | x in rest
        ensures rank(s[0]) <= rank(x)
      {
        WithKeyMember(s[1..], key, k, x);
        var q :| 0 <= q < |s[1..]| && s[1..][q] == x;
        assert s[q + 1] == x;
      }
    }
  }

  /** Two elements of s with key k keep their rank order when the
      filtered list is sorted by rank. */
  lemma {:induction false} WithKeyOrder<T>(s: seq<T>, key: T -> int, k: int, rank: T -> int, i: nat, j: nat)
    requires SortedBy(WithKey(s, key, k), rank)
    requires i < j < |s| && key(s[i]) == k && key(s[j]) == k
    ensures rank(s[i]) <= rank(s[j])
  {
    var w, rest := WithKey(s, key, k), WithKey(s[1..], key, k);
    assert w == [s[0]] + rest || w == rest;
    if i == 0 {
      assert s[1..][j - 1] == s[j];
      WithKeyMember(s[1..], key, k, s[j]);
      var p :| 0 <= p < |rest| && rest[p] == s[j];
      assert w[0] == s[0] && w[p + 1] == s[j];
    } else {
      assert SortedBy(rest, rank) by {
        if w != rest {
          assert forall p :: 0 <= p < |rest| ==> rest[p] == w[p + 1];
        }
      }
      assert s[1..][i - 1] == s[i] && s[1..][j - 1] == s[j];
      WithKeyOrder(s[1..], key, k, rank, i - 1, j - 1);
    }
  }

  /** All of a[..m] is at most all of a[m..]. */
  ghost predicate Partitioned<T>(a: seq<T>, m: int, key: T -> int) {
    forall p, q :: 0 <= p < m <= q < |a| ==> key(a[p]) <= key(a[q])
  }

  /** Exchanges a[j] and a[j + 1], which are out of order, inside the
      prefix a[..m] that one pass of the inner loop works on. */
  method SwapNeighbours<T>(a: array<T>, j: nat, m: nat, key: T -> int)
    requires j + 1 < m <= a.Length
    requires key(a[j]) > key(a[j + 1])
    requires forall p :: 0 <= p < j ==> key(a[p]) <= key(a[j])
    requires Partitioned(a[..], m, key)
    modifies a
    ensures forall p :: 0 <= p <= j ==> key(a[p]) <= key(a[j + 1])
    ensures forall q :: m <= q < a.Length ==> a[q] == old(a[q])
    ensures Partitioned(a[..], m, key)
    ensures Rearranged(a[..], old(a[..]), key)
  {
    SwapKeepsOrderPerKey(a[..], j, key);
    a[j], a[j + 1] := a[j + 1], a[j];
  }

  /** One pass of the inner loop over a[..m]: carries the largest key of
      a[..m] to position m - 1 and leaves a[m..] alone. */
  method BubblePass<T>(a: array<T>, key: T -> int, m: nat)
    requires 1 <= m <= a.Length
    requires Partitioned(a[..], m, key)
    modifies a
    ensures forall p :: 0 <= p < m ==> key(a[p]) <= key(a[m - 1])
    ensures forall q :: m <= q < a.Length ==> a[q] == old(a[q])
    ensures Partitioned(a[..], m, key)
    ensures Rearranged(a[..], old(a[..]), key)
  {
    var j := 0;
    while j < m - 1
      invariant 0 <= j <= m - 1
      invariant forall p :: 0 <= p < j ==> key(a[p]) <= key(a[j])
      invariant forall q :: m <= q < a.Length ==> a[q] == old(a[q])
      invariant Partitioned(a[..], m, key)
      invariant Rearranged(a[..], old(a[..]), key)
    {
      if key(a[j]) > key(a[j + 1]) {
        ghost var before := a[..];
        SwapNeighbours(a, j, m, key);
        RearrangedTransitive(a[..], before, old(a[..]), key);
      }
      j := j + 1;
    }
  }

  lemma RearrangedTransitive<T>(s: seq<T>, t: seq<T>, u: seq<T>, key: T -> int)
    requires Rearranged(s, t, key) && Rearranged(t, u, key)
    ensures Rearranged(s, u, key)
  {
  }

  /** Sorts a in place by key, swapping neighbours only when the left key is
      strictly larger. The result is sorted, a permutation of the input, and
      keeps the relative order of elements with equal keys. */
  method BubbleSortBy<T>(a: array<T>, key: T -> int)
    modifies a
    ensures SortedBy(a[..], key)
    ensures Rearranged(a[..], old(a[..]), key)
  {
    var n := a.Length;
    var i := 0;
    while i < n - 1
      invariant 0 <= i <= n
      invariant forall p, q :: n - i <= p < q < n ==> key(a[p]) <= key(a[q])
      invariant Partitioned(a[..], n - i, key)
      invariant Rearranged(a[..], old(a[..]), key)
    {
      ghost var before := a[..];
      BubblePass(a, key, n - i);
      RearrangedTransitive(a[..], before, old(a[..]), key);
      i := i + 1;
    }
  }
}
