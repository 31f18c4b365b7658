/** Which reactor handlers return a command (Source/CodeAnalysis/rules/arcchr0006.ts:81-154). */
module ReplayRule {
  import opened Graphs

  type Method = nat

  /** A return statement that yields a command: directly, or through methods of its own class. */
  datatype Return = Return(direct: bool, helpers: set<Method>)

  /** The return statements of every method that has a body. */
  type Bodies = map<Method, seq<Return>>

  // ---- the graph --------------------------------------------------------------------------------

  predicate HasSite(sites: seq<Return>) {
    exists i :: 0 <= i < |sites| && sites[i].direct
  }

  /** Every helper a return statement calls. */
  function Calls(sites: seq<Return>): set<Method> {
    set i, m | 0 <= i < |sites| && m in sites[i].helpers :: m
  }

  /** The helpers the rule traces: those of return statements that do not supply a command themselves. */
  function Traced(sites: seq<Return>): set<Method> {
    set i, m | 0 <= i < |sites| && !sites[i].direct && m in sites[i].helpers :: m
  }

  function CallGraph(bodies: Bodies): Graph {
    map m | m in bodies :: Calls(bodies[m])
  }

  function TracedGraph(bodies: Bodies): Graph {
    map m | m in bodies :: Traced(bodies[m])
  }

  // ---- reaches ----------------------------------------------------------------------------------

  /** The `visited` set, shared by all branches of one search. */
  class Visited {
    var methods: set<Method>

    constructor ()
      ensures methods == {}
    {
      methods := {};
    }
  }

  /** What a search that found nothing leaves behind: it visited `start`, never the target, and left no edge unexplored. */
  ghost predicate Exhausted(g: Graph, before: set<Method>, after: set<Method>, start: Method, target: Method) {
    before <= after && start in after && (target in after ==> target in before) && Leads(g, after - before, after)
  }

  /**
   * Depth-first search with one visited set for all branches. It answers true only if the target can be reached; when it
   * answers false, everything it newly visited leads only to what has been visited.
   */
  method Reaches(g: Graph, start: Method, target: Method, visited: Visited) returns (found: bool)
    modifies visited
    ensures old(visited.methods) <= visited.methods
    ensures found ==> Reachable(g, start, target)
    ensures !found ==> Exhausted(g, old(visited.methods), visited.methods, start, target)
    decreases g.Keys - visited.methods
  {
    if start == target {
      ReachesItself(g, start);
      return true;
    }
    if start in visited.methods { return false; }
    visited.methods := visited.methods + {start};
    if start !in g { return false; }
    var todo := g[start];
    while todo != {}
      invariant todo <= g[start]
      invariant old(visited.methods) + {start} <= visited.methods
      invariant target in visited.methods ==> target in old(visited.methods)
      invariant g[start] - todo <= visited.methods
      invariant Leads(g, visited.methods - old(visited.methods) - {start}, visited.methods)
      decreases todo
    {
      var next :| next in todo;
      var reached := Reaches(g, next, target, visited);
      if reached {
        ReachesFrom(g, start, next, target);
        return true;
      }
      todo := todo - {next};
    }
    return false;
  }

  /** A search that starts afresh answers exactly whether a path exists, in spite of cycles and the shared set. */
  method Reach(g: Graph, start: Method, target: Method) returns (found: bool)
    ensures found <==> Reachable(g, start, target)
  {
    var visited := new Visited();
    found := Reaches(g, start, target, visited);
    if !found { NotReached(g, visited.methods, start, target); }
  }

  lemma NotReached(g: Graph, visited: set<Method>, start: Method, target: Method)
    requires Leads(g, visited, visited) && start in visited && target !in visited
    ensures !Reachable(g, start, target)
  {
    if Reachable(g, start, target) { ClosedHolds(g, visited, start, target); }
  }

  // ---- the report -------------------------------------------------------------------------------

  /** For every method with a return site of its own, the handlers that reach it. */
  method Undecided(bodies: Bodies, handlers: set<Method>) returns (reports: map<Method, set<Method>>)
    ensures forall m :: m in reports ==> m in bodies && HasSite(bodies[m]) && reports[m] != {}
    ensures forall m, h :: m in bodies && HasSite(bodies[m]) && h in handlers ==>
              (Reachable(TracedGraph(bodies), h, m) <==> m in reports && h in reports[m])
    ensures forall m, h :: m in reports && h in reports[m] ==> h in handlers
  {
    var g := TracedGraph(bodies);
    reports := map[];
    var methods := bodies.Keys;
    while methods != {}
      invariant methods <= bodies.Keys
      invariant forall m :: m in reports ==> m in bodies && m !in methods && HasSite(bodies[m]) && reports[m] != {} && reports[m] <= handlers
      invariant forall m, h :: m in bodies && m !in methods && HasSite(bodies[m]) && h in handlers ==>
                  (Reachable(g, h, m) <==> m in reports && h in reports[m])
      decreases methods
    {
      var candidate :| candidate in methods;
      if HasSite(bodies[candidate]) {
        var reaching := Reaching(g, handlers, candidate);
        if reaching != {} { reports := reports[candidate := reaching]; }
      }
      methods := methods - {candidate};
    }
  }

  method Reaching(g: Graph, handlers: set<Method>, target: Method) returns (reaching: set<Method>)
    ensures forall h :: h in reaching <==> h in handlers && Reachable(g, h, target)
  {
    reaching := {};
    var todo := handlers;
    while todo != {}
      invariant todo <= handlers
      invariant forall h :: h in reaching <==> h in handlers - todo && Reachable(g, h, target)
      decreases todo
    {
      var handler :| handler in todo;
      var found := Reach(g, handler, target);
      if found { reaching := reaching + {handler}; }
      todo := todo - {handler};
    }
  }

  // ---- nothing is missed ------------------------------------------------------------------------

  /** A handler that can return a command: its calls lead to a method with a return site. */
  ghost predicate MayReturnCommand(bodies: Bodies, h: Method) {
    exists m :: m in bodies && HasSite(bodies[m]) && Reachable(CallGraph(bodies), h, m)
  }

  /**
   * Not tracing the helpers of a return statement that supplies a command itself loses no handler: one is named in some
   * report exactly when, over all its calls, it may return a command.
   */
  lemma EveryHandlerThatReturnsACommandIsNamed(bodies: Bodies, h: Method)
    ensures MayReturnCommand(bodies, h) <==>
            exists m :: m in bodies && HasSite(bodies[m]) && Reachable(TracedGraph(bodies), h, m)
  {
    if MayReturnCommand(bodies, h) {
      var m :| m in bodies && HasSite(bodies[m]) && Reachable(CallGraph(bodies), h, m);
      var p :| Path(CallGraph(bodies), p) && p[0] == h && p[|p| - 1] == m;
      var site := FirstSite(bodies, p);
      assert Reachable(TracedGraph(bodies), h, site);
    }
    if m :| m in bodies && HasSite(bodies[m]) && Reachable(TracedGraph(bodies), h, m) {
      var p :| Path(TracedGraph(bodies), p) && p[0] == h && p[|p| - 1] == m;
      forall i | 0 <= i < |p| - 1 ensures Edge(CallGraph(bodies), p[i], p[i + 1]) {
        assert Edge(TracedGraph(bodies), p[i], p[i + 1]);
        TracedAreCalls(bodies[p[i]]);
      }
      assert Path(CallGraph(bodies), p);
      assert Reachable(CallGraph(bodies), h, m);
    }
  }

  lemma TracedAreCalls(sites: seq<Return>)
    ensures Traced(sites) <= Calls(sites)
    ensures !HasSite(sites) ==> Traced(sites) == Calls(sites)
  {
  }

  /** Until a path meets its first return site, every call on it is traced. */
  lemma {:induction false} FirstSite(bodies: Bodies, p: seq<Method>) returns (site: Method)
    requires Path(CallGraph(bodies), p) && p[|p| - 1] in bodies && HasSite(bodies[p[|p| - 1]])
    ensures site in bodies && HasSite(bodies[site]) && Reachable(TracedGraph(bodies), p[0], site)
    decreases |p|
  {
    if p[0] in bodies && HasSite(bodies[p[0]]) {
      site := p[0];
      ReachesItself(TracedGraph(bodies), site);
    } else {
      assert Edge(CallGraph(bodies), p[0], p[1]);
      assert p[1..][|p[1..]| - 1] == p[|p| - 1];
      assert Path(CallGraph(bodies), p[1..]) by {
        forall i | 0 <= i < |p[1..]| - 1 ensures Edge(CallGraph(bodies), p[1..][i], p[1..][i + 1]) {
          assert Edge(CallGraph(bodies), p[i + 1], p[i + 2]);
        }
      }
      site := FirstSite(bodies, p[1..]);
      TracedAreCalls(bodies[p[0]]);
      assert Edge(TracedGraph(bodies), p[0], p[1]);
      ReachesFrom(TracedGraph(bodies), p[0], p[1], site);
    }
  }
}
