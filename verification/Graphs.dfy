/** Directed graphs and what can be reached in them. */
module Graphs {
  type Graph = map<nat, set<nat>>

  predicate Edge(g: Graph, a: nat, b: nat) {
    a in g && b in g[a]
  }

  predicate Path(g: Graph, p: seq<nat>) {
    p != [] && forall i :: 0 <= i < |p| - 1 ==> Edge(g, p[i], p[i + 1])
  }

  ghost predicate Reachable(g: Graph, a: nat, b: nat) {
    exists p :: Path(g, p) && p[0] == a && p[|p| - 1] == b
  }

  /** Every edge that leaves a node of `from` ends in `into`. */
  ghost predicate Leads(g: Graph, from: set<nat>, into: set<nat>) {
    forall a, b :: a in from && Edge(g, a, b) ==> b in into
  }

  lemma ReachesItself(g: Graph, a: nat)
    ensures Reachable(g, a, a)
  {
    assert Path(g, [a]);
  }

  lemma ReachesOn(g: Graph, a: nat, b: nat, c: nat)
    requires Reachable(g, a, b) && Edge(g, b, c)
    ensures Reachable(g, a, c)
  {
    var p :| Path(g, p) && p[0] == a && p[|p| - 1] == b;
    assert Path(g, p + [c]);
  }

  lemma ReachesFrom(g: Graph, a: nat, b: nat, c: nat)
    requires Edge(g, a, b) && Reachable(g, b, c)
    ensures Reachable(g, a, c)
  {
    var p :| Path(g, p) && p[0] == b && p[|p| - 1] == c;
    assert Path(g, [a] + p);
  }

  /** A path cannot leave a closed set. */
  lemma {:induction false} ClosedHolds(g: Graph, closed: set<nat>, a: nat, b: nat)
    requires Leads(g, closed, closed) && a in closed && Reachable(g, a, b)
    ensures b in closed
  {
    var p :| Path(g, p) && p[0] == a && p[|p| - 1] == b;
    for i := 0 to |p| - 1
      invariant p[i] in closed
    {
      assert Edge(g, p[i], p[i + 1]);
    }
  }
}
