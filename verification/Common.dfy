/** Options, lists, and chains of states. */
module Common {
  datatype Option<+T> = None | Some(value: T)

  lemma TakeNext<T>(xs: seq<T>, i: nat)
    requires i < |xs|
    ensures xs[..i + 1] == xs[..i] + [xs[i]]
  {
  }

  lemma LastApart<T>(xs: seq<T>)
    requires xs != []
    ensures xs == xs[..|xs| - 1] + [xs[|xs| - 1]]
  {
  }

  lemma Whole<T>(xs: seq<T>)
    ensures xs[..|xs|] == xs
  {
  }

  function Elements<T>(xs: seq<T>): set<T> { set x | x in xs }

  predicate Distinct<T(==)>(xs: seq<T>) { forall i, j | 0 <= i < j < |xs| :: xs[i] != xs[j] }

  /** What holds at the start of a chain and carries over each step holds along it. */
  lemma {:induction false} Invariantly<T>(holds: T -> bool, xs: seq<T>, i: nat)
    requires i < |xs| && holds(xs[0]) && forall k | 0 < k <= i && holds(xs[k - 1]) :: holds(xs[k])
    ensures holds(xs[i])
  {
    if i > 0 { Invariantly(holds, xs, i - 1); }
  }

  /** A reflexive and transitive relation between neighbours holds between the ends of a chain. */
  lemma {:induction false} Stepwise<T(!new)>(rel: (T, T) -> bool, xs: seq<T>, i: nat, j: nat)
    requires (forall x :: rel(x, x)) && (forall x, y, z :: rel(x, y) && rel(y, z) ==> rel(x, z))
    requires i <= j < |xs| && forall k | i <= k < j :: rel(xs[k], xs[k + 1])
    ensures rel(xs[i], xs[j])
    decreases j
  {
    if i < j {
      Stepwise(rel, xs, i, j - 1);
      assert rel(xs[j - 1], xs[j - 1 + 1]);
    }
  }

  /** The list ends with x. */
  predicate EndsAt<T(==)>(xs: seq<T>, x: T) { xs != [] && xs[|xs| - 1] == x }
}
