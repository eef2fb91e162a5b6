/** Depth-first search for a dependency cycle: sound, complete and terminating on every finite graph. */
module Dependencies {
  import opened Common

  type Id = string
  type Graph = map<Id, seq<Id>>

  /** An id without an entry has no dependencies. */
  function Deps(g: Graph, x: Id): seq<Id> { if x in g then g[x] else [] }

  predicate Edge(g: Graph, a: Id, b: Id) { b in Deps(g, a) }

  /** Every id depends on the next one. */
  predicate Path(g: Graph, p: seq<Id>) {
    p != [] && forall i | 0 <= i < |p| - 1 :: Edge(g, p[i], p[i + 1])
  }

  predicate Cycle(g: Graph, p: seq<Id>) { Path(g, p) && |p| >= 2 && p[0] == p[|p| - 1] }

  ghost predicate OnCycle(g: Graph, x: Id) { exists p :: Cycle(g, p) && p[0] == x }

  ghost predicate Acyclic(g: Graph) { forall x :: !OnCycle(g, x) }

  function Universe(g: Graph): set<Id> {
    g.Keys + set x, d | x in g && d in g[x] :: d
  }

  /** Every listed id comes after all its dependencies. */
  ghost predicate Ordered(g: Graph, done: seq<Id>) {
    forall i, d | 0 <= i < |done| && d in Deps(g, done[i]) :: d in done[..i]
  }

  /** Walking a path from a listed id only moves towards the front of the list. */
  lemma {:induction false} PathDescends(g: Graph, done: seq<Id>, p: seq<Id>, i: nat) returns (j: nat)
    requires Ordered(g, done) && Path(g, p) && i < |done| && done[i] == p[0]
    ensures j <= i && j < |done| && done[j] == p[|p| - 1] && (|p| >= 2 ==> j < i)
    decreases |p|
  {
    if |p| == 1 { return i; }
    assert Edge(g, p[0], p[0 + 1]);
    var k :| 0 <= k < i && done[k] == p[1];
    forall n | 0 <= n < |p[1..]| - 1 ensures Edge(g, p[1..][n], p[1..][n + 1]) {
      assert Edge(g, p[n + 1], p[n + 1 + 1]);
    }
    j := PathDescends(g, done, p[1..], k);
  }

  /** A list in dependency order without repeats has no cycle through any of its ids. */
  lemma OrderedIsAcyclic(g: Graph, done: seq<Id>, x: Id)
    requires Ordered(g, done) && x in done
    ensures !OnCycle(g, x)
  {
    if OnCycle(g, x) {
      var p :| Cycle(g, p) && p[0] == x;
      var i := FirstAt(done, x);
      var j := PathDescends(g, done, p, i);
    }
  }

  lemma OrderedSnoc(g: Graph, done: seq<Id>, x: Id)
    requires Ordered(g, done) && forall d | d in Deps(g, x) :: d in done
    ensures Ordered(g, done + [x])
  {
    forall i, d | 0 <= i < |done + [x]| && d in Deps(g, (done + [x])[i]) ensures d in (done + [x])[..i] {
      if i < |done| {
        assert d in done[..i];
        assert (done + [x])[..i] == done[..i];
      } else {
        assert (done + [x])[..i] == done;
      }
    }
  }

  lemma FirstAt(done: seq<Id>, x: Id) returns (i: nat)
    requires x in done
    ensures i < |done| && done[i] == x && forall k | 0 <= k < i :: done[k] != x
  {
    i := 0;
    while done[i] != x
      invariant i < |done| && forall k | 0 <= k < i :: done[k] != x
      decreases |done| - i
    {
      if i + 1 == |done| { assert forall k | 0 <= k < |done| :: done[k] != x; }
      i := i + 1;
    }
  }

  /** Returning to an id on the path closes a cycle through it. */
  lemma StackCloses(g: Graph, stack: seq<Id>, x: Id)
    requires Path(g, stack + [x]) && x in stack
    ensures OnCycle(g, x)
  {
    var i :| 0 <= i < |stack| && stack[i] == x;
    var p := (stack + [x])[i..];
    forall n | 0 <= n < |p| - 1 ensures Edge(g, p[n], p[n + 1]) {
      assert Edge(g, (stack + [x])[i + n], (stack + [x])[i + n + 1]);
    }
    assert Cycle(g, p) && p[0] == x;
  }

  lemma PathExtends(g: Graph, stack: seq<Id>, x: Id, d: Id)
    requires Path(g, stack + [x]) && Edge(g, x, d)
    ensures Path(g, stack + [x] + [d])
  {
    var p, q := stack + [x], stack + [x] + [d];
    forall n | 0 <= n < |q| - 1 ensures Edge(g, q[n], q[n + 1]) {
      if n < |p| - 1 { assert Edge(g, p[n], p[n + 1]); }
    }
  }

  /** The search as it runs: ids on the current path and ids fully explored. */
  class CycleFinder {
    const graph: Graph
    var visiting: set<Id>
    var visited: set<Id>
    /** The explored ids in the order they were finished. */
    ghost var finished: seq<Id>

    ghost predicate Valid()
      reads this
    {
      visited == Elements(finished) && Ordered(graph, finished)
    }

    constructor (g: Graph)
      ensures graph == g && visiting == {} && visited == {} && finished == [] && Valid()
    {
      graph := g;
      visiting, visited, finished := {}, {}, [];
    }

    /** Explores an id reached along `stack`. Finds an id on a cycle, or leaves the id explored and the path as it
        was. */
    method Visit(x: Id, ghost stack: seq<Id>) returns (found: Option<Id>)
      requires Valid() && visiting == Elements(stack) && Path(graph, stack + [x]) && x in Universe(graph)
      modifies this
      decreases Universe(graph) - visiting
      ensures found.Some? ==> OnCycle(graph, found.value)
      ensures found.None? ==>
              Valid() && visiting == old(visiting) && old(visited) <= visited && x in visited
              && old(finished) <= finished
    {
      if x in visiting {
        StackCloses(graph, stack, x);
        return Some(x);
      }
      if x in visited { return None; }
      visiting := visiting + {x};
      var deps := Deps(graph, x);
      for i := 0 to |deps|
        invariant Valid() && visiting == old(visiting) + {x} && old(visited) <= visited && old(finished) <= finished
        invariant forall k | 0 <= k < i :: deps[k] in visited
      {
        assert Edge(graph, x, deps[i]);
        PathExtends(graph, stack, x, deps[i]);
        assert Elements(stack + [x]) == Elements(stack) + {x};
        found := Visit(deps[i], stack + [x]);
        if found.Some? { return; }
      }
      visiting := visiting - {x};
      visited := visited + {x};
      OrderedSnoc(graph, finished, x);
      finished := finished + [x];
      return None;
    }

    /** Reports an id exactly when the graph has a cycle, and then one that lies on a cycle. `order` is the graph's key
        order. */
    method FindCycle(order: seq<Id>) returns (found: Option<Id>)
      requires Valid() && visiting == {} && Elements(order) == graph.Keys
      modifies this
      ensures found.Some? ==> OnCycle(graph, found.value)
      ensures found.None? <==> Acyclic(graph)
    {
      for i := 0 to |order|
        invariant Valid() && visiting == {}
        invariant forall k | 0 <= k < i :: order[k] in visited
      {
        assert Path(graph, [] + [order[i]]);
        assert order[i] in Elements(order);
        found := Visit(order[i], []);
        if found.Some? { return; }
      }
      assert forall x | x in graph :: x in finished by {
        forall x | x in graph ensures x in finished {
          assert x in Elements(order);
        }
      }
      AllFinishedIsAcyclic(graph, finished);
      return None;
    }
  }

  lemma AllFinishedIsAcyclic(g: Graph, done: seq<Id>)
    requires Ordered(g, done) && forall x | x in g :: x in done
    ensures Acyclic(g)
  {
    forall x ensures !OnCycle(g, x) {
      if x in done {
        OrderedIsAcyclic(g, done, x);
      } else {
        forall p | Path(g, p) && |p| >= 2 ensures p[0] != x {
          assert Edge(g, p[0], p[0 + 1]);
        }
      }
    }
  }

  /** Runs the search on a fresh state. */
  method FindDependencyCycle(g: Graph, order: seq<Id>) returns (found: Option<Id>)
    requires Elements(order) == g.Keys
    ensures found.Some? ==> OnCycle(g, found.value)
    ensures found.None? <==> Acyclic(g)
  {
    var finder := new CycleFinder(g);
    found := finder.FindCycle(order);
  }
}
