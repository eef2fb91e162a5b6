/** Stable sorting by a string key, as Python's `sorted(xs, key=...)` does it. */
module Ordering {

  /** Lexicographic order on strings. */
  predicate Le(a: string, b: string) {
    if a == "" then true
    else if b == "" then false
    else a[0] < b[0] || (a[0] == b[0] && Le(a[1..], b[1..]))
  }

  lemma LeReflexive(a: string)
    ensures Le(a, a)
  {
  }

  lemma LeTotal(a: string, b: string)
    ensures Le(a, b) || Le(b, a)
  {
  }

  lemma LeAntisymmetric(a: string, b: string)
    requires Le(a, b) && Le(b, a)
    ensures a == b
  {
    if a != "" && b != "" {
      LeAntisymmetric(a[1..], b[1..]);
      assert a == [a[0]] + a[1..] && b == [b[0]] + b[1..];
    }
  }

  lemma LeTransitive(a: string, b: string, c: string)
    requires Le(a, b) && Le(b, c)
    ensures Le(a, c)
  {
    if a != "" && a[0] == b[0] == c[0] {
      LeTransitive(a[1..], b[1..], c[1..]);
    }
  }

  function Insert<T>(key: T -> string, x: T, xs: seq<T>): seq<T> {
    if xs == [] then [x]
    else if Le(key(x), key(xs[0])) then [x] + xs
    else [xs[0]] + Insert(key, x, xs[1..])
  }

  function SortBy<T>(key: T -> string, xs: seq<T>): seq<T> {
    if xs == [] then [] else Insert(key, xs[0], SortBy(key, xs[1..]))
  }

  ghost predicate Sorted<T>(key: T -> string, xs: seq<T>) {
    forall i, j | 0 <= i < j < |xs| :: Le(key(xs[i]), key(xs[j]))
  }

  /** Elements with the same key are the same element. */
  ghost predicate KeyDetermines<T(!new)>(key: T -> string, xs: seq<T>) {
    forall x, y | x in xs && y in xs && key(x) == key(y) :: x == y
  }

  lemma {:induction false} InsertSpec<T>(key: T -> string, x: T, xs: seq<T>)
    requires Sorted(key, xs)
    ensures Sorted(key, Insert(key, x, xs))
    ensures multiset(Insert(key, x, xs)) == multiset{x} + multiset(xs)
  {
    if xs == [] {
    } else if Le(key(x), key(xs[0])) {
      forall j | 0 <= j < |xs| ensures Le(key(x), key(xs[j])) {
        if j > 0 { LeTransitive(key(x), key(xs[0]), key(xs[j])); }
      }
    } else {
      var rest := Insert(key, x, xs[1..]);
      InsertSpec(key, x, xs[1..]);
      assert xs == [xs[0]] + xs[1..];
      forall j | 0 <= j < |rest| ensures Le(key(xs[0]), key(rest[j])) {
        assert rest[j] in multiset(rest);
        if rest[j] in xs[1..] {
          var k :| 0 <= k < |xs[1..]| && xs[1..][k] == rest[j];
          assert xs[k + 1] == rest[j];
        } else {
          LeTotal(key(x), key(xs[0]));
        }
      }
    }
  }

  /** Sorting gives a sorted permutation. */
  lemma {:induction false} SortBySpec<T>(key: T -> string, xs: seq<T>)
    ensures Sorted(key, SortBy(key, xs))
    ensures multiset(SortBy(key, xs)) == multiset(xs)
  {
    if xs != [] {
      SortBySpec(key, xs[1..]);
      InsertSpec(key, xs[0], SortBy(key, xs[1..]));
      assert xs == [xs[0]] + xs[1..];
    }
  }

  lemma SameElements<T>(xs: seq<T>, ys: seq<T>)
    requires multiset(xs) == multiset(ys)
    ensures |xs| == |ys|
    ensures forall x :: x in xs <==> x in ys
  {
    assert |multiset(xs)| == |multiset(ys)|;
    forall x ensures x in xs <==> x in ys {
      assert x in multiset(xs) <==> x in multiset(ys);
    }
  }

  lemma HeadIsLeast<T>(key: T -> string, xs: seq<T>, x: T)
    requires Sorted(key, xs) && x in xs
    ensures Le(key(xs[0]), key(x))
  {
    LeReflexive(key(x));
  }

  /** A sorted list is determined by its elements when keys determine elements. */
  lemma {:induction false} SortedUnique<T(!new)>(key: T -> string, xs: seq<T>, ys: seq<T>)
    requires Sorted(key, xs) && Sorted(key, ys) && KeyDetermines(key, xs)
    requires multiset(xs) == multiset(ys)
    ensures xs == ys
  {
    SameElements(xs, ys);
    if xs != [] {
      assert ys[0] in ys && xs[0] in xs;
      HeadIsLeast(key, xs, ys[0]);
      HeadIsLeast(key, ys, xs[0]);
      LeAntisymmetric(key(xs[0]), key(ys[0]));
      assert xs == [xs[0]] + xs[1..] && ys == [ys[0]] + ys[1..];
      TailMultiset(xs);
      TailMultiset(ys);
      SortedUnique(key, xs[1..], ys[1..]);
    }
  }

  lemma TailMultiset<T>(xs: seq<T>)
    requires xs != []
    ensures multiset(xs[1..]) == multiset(xs) - multiset{xs[0]}
  {
    assert xs == [xs[0]] + xs[1..];
  }

  /** Sorting forgets the order of the list. */
  lemma SortByForgetsOrder<T(!new)>(key: T -> string, xs: seq<T>, ys: seq<T>)
    requires multiset(xs) == multiset(ys) && KeyDetermines(key, xs)
    ensures SortBy(key, xs) == SortBy(key, ys)
  {
    SortBySpec(key, xs);
    SortBySpec(key, ys);
    SameElements(xs, SortBy(key, xs));
    SortedUnique(key, SortBy(key, xs), SortBy(key, ys));
  }
}
