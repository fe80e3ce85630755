/** Stable sorting by a text key, as Python's sorted does it, and what makes its result unique. */
module TextOrder {

  /** Strings are compared character by character. */
  predicate Leq(a: string, b: string) {
    a == "" || (b != "" && (a[0] < b[0] || (a[0] == b[0] && Leq(a[1..], b[1..]))))
  }

  lemma {:induction false} LeqTotal(a: string, b: string)
    ensures Leq(a, b) || Leq(b, a)
  {
    if a != "" && b != "" && a[0] == b[0] {
      LeqTotal(a[1..], b[1..]);
    }
  }

  lemma {:induction false} LeqTransitive(a: string, b: string, c: string)
    requires Leq(a, b) && Leq(b, c)
    ensures Leq(a, c)
  {
    if a != "" && a[0] == b[0] && b[0] == c[0] {
      LeqTransitive(a[1..], b[1..], c[1..]);
    }
  }

  lemma {:induction false} LeqAntisymmetric(a: string, b: string)
    requires Leq(a, b) && Leq(b, a)
    ensures a == b
  {
    if a != "" && b != "" {
      LeqAntisymmetric(a[1..], b[1..]);
      assert a == [a[0]] + a[1..] && b == [b[0]] + b[1..];
    }
  }

  /** Equal keys keep their order: x goes before the first element with a greater key. */
  function Insert<T>(key: T -> string, xs: seq<T>, x: T): seq<T> {
    if xs == [] || Leq(key(xs[|xs| - 1]), key(x)) then xs + [x]
    else Insert(key, xs[..|xs| - 1], x) + [xs[|xs| - 1]]
  }

  function SortBy<T>(key: T -> string, xs: seq<T>): seq<T> {
    if xs == [] then [] else Insert(key, SortBy(key, xs[..|xs| - 1]), xs[|xs| - 1])
  }

  predicate SortedBy<T>(key: T -> string, xs: seq<T>) {
    forall i, j :: 0 <= i < j < |xs| ==> Leq(key(xs[i]), key(xs[j]))
  }

  lemma {:induction false} InsertSorts<T>(key: T -> string, xs: seq<T>, x: T)
    requires SortedBy(key, xs)
    ensures SortedBy(key, Insert(key, xs, x))
    ensures multiset(Insert(key, xs, x)) == multiset(xs) + multiset{x}
  {
    if xs == [] {
    } else if Leq(key(xs[|xs| - 1]), key(x)) {
      forall i | 0 <= i < |xs| ensures Leq(key(xs[i]), key(x)) {
        if i < |xs| - 1 {
          LeqTransitive(key(xs[i]), key(xs[|xs| - 1]), key(x));
        }
      }
    } else {
      var front, last := xs[..|xs| - 1], xs[|xs| - 1];
      InsertSorts(key, front, x);
      LeqTotal(key(last), key(x));
      assert xs == front + [last];
      var inserted := Insert(key, front, x);
      forall i | 0 <= i < |inserted| ensures Leq(key(inserted[i]), key(last)) {
        assert inserted[i] in multiset(inserted);
        assert inserted[i] == x || inserted[i] in front;
      }
    }
  }

  lemma {:induction false} SortSorts<T>(key: T -> string, xs: seq<T>)
    ensures SortedBy(key, SortBy(key, xs)) && multiset(SortBy(key, xs)) == multiset(xs)
  {
    if xs != [] {
      var front, last := xs[..|xs| - 1], xs[|xs| - 1];
      SortSorts(key, front);
      InsertSorts(key, SortBy(key, front), last);
      assert xs == front + [last];
    }
  }

  lemma {:induction false} SortOfSorted<T>(key: T -> string, xs: seq<T>)
    requires SortedBy(key, xs)
    ensures SortBy(key, xs) == xs
  {
    if xs != [] {
      var front, last := xs[..|xs| - 1], xs[|xs| - 1];
      SortOfSorted(key, front);
      assert front != [] ==> front[|front| - 1] == xs[|xs| - 2];
      assert xs == front + [last];
    }
  }

  lemma LastIsGreatest<T>(key: T -> string, a: seq<T>, y: T)
    requires SortedBy(key, a) && y in a
    ensures Leq(key(y), key(a[|a| - 1]))
  {
    var j :| 0 <= j < |a| && a[j] == y;
    LeqTotal(key(y), key(y));
  }

  /** Two sorted arrangements of the same elements are the same, where keys tell elements apart. */
  lemma {:induction false} SortedUnique<T>(key: T -> string, a: seq<T>, b: seq<T>)
    requires SortedBy(key, a) && SortedBy(key, b) && multiset(a) == multiset(b)
    requires forall x, y :: x in a && y in a && key(x) == key(y) ==> x == y
    ensures a == b
  {
    assert |multiset(a)| == |a| && |multiset(b)| == |b|;
    if a != [] {
      var fa, x, fb, y := a[..|a| - 1], a[|a| - 1], b[..|b| - 1], b[|b| - 1];
      SameLast(key, a, b);
      SameFront(fa, fb, x);
      assert forall z :: z in fa ==> z in a;
      SortedUnique(key, fa, fb);
    }
  }

  lemma SameLast<T>(key: T -> string, a: seq<T>, b: seq<T>)
    requires SortedBy(key, a) && SortedBy(key, b) && multiset(a) == multiset(b) && a != [] && b != []
    requires forall x, y :: x in a && y in a && key(x) == key(y) ==> x == y
    ensures a[|a| - 1] == b[|b| - 1]
    ensures a == a[..|a| - 1] + [a[|a| - 1]] && b == b[..|b| - 1] + [a[|a| - 1]]
  {
    var x, y := a[|a| - 1], b[|b| - 1];
    assert y in multiset(b) && x in multiset(a);
    assert y in a && x in b;
    LastIsGreatest(key, a, y);
    LastIsGreatest(key, b, x);
    LeqAntisymmetric(key(x), key(y));
  }

  lemma SameFront<T>(a: seq<T>, b: seq<T>, x: T)
    requires multiset(a + [x]) == multiset(b + [x])
    ensures multiset(a) == multiset(b)
  {
    assert multiset(a) == multiset(a + [x]) - multiset{x};
    assert multiset(b) == multiset(b + [x]) - multiset{x};
  }

  /** Rearranged elements sort to the same sequence. */
  lemma SortForgetsOrder<T>(key: T -> string, xs: seq<T>, ys: seq<T>, p: seq<nat>)
    requires PermutedBy(xs, ys, p)
    requires forall x, y :: x in xs && y in xs && key(x) == key(y) ==> x == y
    ensures SortBy(key, xs) == SortBy(key, ys)
  {
    PermutationKeepsMultiset(xs, ys, p);
    SortSorts(key, xs);
    SortSorts(key, ys);
    forall x | x in SortBy(key, xs) ensures x in xs {
      assert x in multiset(SortBy(key, xs));
    }
    SortedUnique(key, SortBy(key, xs), SortBy(key, ys));
  }

  function Map<A, B>(f: A -> B, xs: seq<A>): (ys: seq<B>)
    ensures |ys| == |xs| && forall i :: 0 <= i < |ys| ==> ys[i] == f(xs[i])
  {
    if xs == [] then [] else Map(f, xs[..|xs| - 1]) + [f(xs[|xs| - 1])]
  }

  lemma MapAppend<A, B>(f: A -> B, xs: seq<A>, x: A)
    ensures Map(f, xs + [x]) == Map(f, xs) + [f(x)]
  {
    assert (xs + [x])[..|xs|] == xs;
  }

  lemma {:induction false} MapInsert<A, B>(f: A -> B, key: A -> string, key': B -> string, xs: seq<A>, x: A)
    requires forall a :: key'(f(a)) == key(a)
    ensures Map(f, Insert(key, xs, x)) == Insert(key', Map(f, xs), f(x))
  {
    if xs == [] {
      MapAppend(f, xs, x);
    } else {
      var front, last := xs[..|xs| - 1], xs[|xs| - 1];
      assert xs == front + [last];
      MapAppend(f, front, last);
      var mapped := Map(f, xs);
      assert mapped[|mapped| - 1] == f(last) && mapped[..|mapped| - 1] == Map(f, front);
      if Leq(key(last), key(x)) {
        MapAppend(f, xs, x);
      } else {
        MapInsert(f, key, key', front, x);
        MapAppend(f, Insert(key, front, x), last);
      }
    }
  }

  /** Sorting by a key that survives f commutes with applying f. */
  lemma {:induction false} MapSort<A, B>(f: A -> B, key: A -> string, key': B -> string, xs: seq<A>)
    requires forall a :: key'(f(a)) == key(a)
    ensures Map(f, SortBy(key, xs)) == SortBy(key', Map(f, xs))
  {
    if xs != [] {
      var front, last := xs[..|xs| - 1], xs[|xs| - 1];
      MapSort(f, key, key', front);
      MapInsert(f, key, key', SortBy(key, front), last);
      assert xs == front + [last];
      MapAppend(f, front, last);
      assert Map(f, xs)[..|xs| - 1] == Map(f, front);
    }
  }

  // ---------------------------------------------------------------- permutations

  predicate IsPermutation(p: seq<nat>, n: nat) {
    && |p| == n
    && (forall i :: 0 <= i < n ==> p[i] < n)
    && (forall i, j :: 0 <= i < j < n ==> p[i] != p[j])
  }

  predicate PermutedBy<T(==)>(xs: seq<T>, ys: seq<T>, p: seq<nat>) {
    |xs| == |ys| && IsPermutation(p, |xs|) && forall i :: 0 <= i < |xs| ==> xs[i] == ys[p[i]]
  }

  /** The permutation that is left when its last element is taken out. */
  function Without(p: seq<nat>): (q: seq<nat>)
    requires p != [] && IsPermutation(p, |p|)
    ensures |q| == |p| - 1
  {
    var last := p[|p| - 1];
    seq(|p| - 1, i requires 0 <= i < |p| - 1 => if p[i] < last then p[i] else p[i] - 1)
  }

  lemma {:induction false} PermutationKeepsMultiset<T>(xs: seq<T>, ys: seq<T>, p: seq<nat>)
    requires PermutedBy(xs, ys, p)
    ensures multiset(xs) == multiset(ys)
  {
    if xs != [] {
      var n := |xs| - 1;
      var last := p[n];
      var xs', ys' := xs[..n], ys[..last] + ys[last + 1..];
      assert IsPermutation(Without(p), n) by {
        forall i, j | 0 <= i < j < n ensures Without(p)[i] != Without(p)[j] {
          assert p[i] != p[j] && p[i] != p[n] && p[j] != p[n];
        }
      }
      forall i | 0 <= i < n ensures xs'[i] == ys'[Without(p)[i]] {
        assert p[i] != p[n];
      }
      PermutationKeepsMultiset(xs', ys', Without(p));
      assert xs == xs' + [xs[n]];
      TakenOut(ys, last);
    }
  }

  lemma TakenOut<T>(ys: seq<T>, k: nat)
    requires k < |ys|
    ensures multiset(ys) == multiset(ys[..k] + ys[k + 1..]) + multiset{ys[k]}
  {
    assert ys == ys[..k] + [ys[k]] + ys[k + 1..];
  }
}
