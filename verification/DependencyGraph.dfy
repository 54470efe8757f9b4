/** Dependency graphs: reachability, acyclicity, and the two depth-first searches the planner runs. A graph maps an id
    to its declared dependencies; an id it does not know has none. */
module DependencyGraph {

  type Id = string

  type Graph = map<Id, seq<Id>>

  ghost predicate Edge(g: Graph, a: Id, b: Id) {
    a in g && b in g[a]
  }

  /** A walk along at least one dependency edge. */
  ghost predicate IsWalk(g: Graph, p: seq<Id>) {
    && |p| >= 2
    && forall i :: 0 <= i < |p| - 1 ==> Edge(g, p[i], p[i + 1])
  }

  ghost predicate WalkBetween(g: Graph, a: Id, b: Id, p: seq<Id>) {
    IsWalk(g, p) && p[0] == a && p[|p| - 1] == b
  }

  /** `a` depends on `b` through a nonempty chain of dependencies. */
  ghost predicate Reaches(g: Graph, a: Id, b: Id) {
    exists p :: WalkBetween(g, a, b, p)
  }

  ghost predicate Acyclic(g: Graph) {
    forall a :: !Reaches(g, a, a)
  }

  /** Every dependency of a member is a member. */
  ghost predicate Closed(g: Graph, s: set<Id>) {
    forall a, b :: a in s && Edge(g, a, b) ==> b in s
  }

  lemma EdgeReaches(g: Graph, a: Id, b: Id)
    requires Edge(g, a, b)
    ensures Reaches(g, a, b)
  {
    assert WalkBetween(g, a, b, [a, b]);
  }

  lemma ReachesTrans(g: Graph, a: Id, b: Id, c: Id)
    requires Reaches(g, a, b) && Reaches(g, b, c)
    ensures Reaches(g, a, c)
  {
    var p :| WalkBetween(g, a, b, p);
    var q :| WalkBetween(g, b, c, q);
    var r := p + q[1..];
    forall i | 0 <= i < |r| - 1
      ensures Edge(g, r[i], r[i + 1])
    {
      if i >= |p| - 1 {
        var j := i - (|p| - 1);
        assert r[i] == q[j] && r[i + 1] == q[j + 1];
      }
    }
    assert WalkBetween(g, a, c, r);
  }

  /** A walk starts with an edge, and what is left of it is a shorter walk or nothing. */
  lemma FirstStep(g: Graph, a: Id, b: Id) returns (d: Id)
    requires Reaches(g, a, b)
    ensures Edge(g, a, d) && (d == b || Reaches(g, d, b))
  {
    var p :| WalkBetween(g, a, b, p);
    d := p[1];
    assert Edge(g, p[0], p[1]);
    if |p| > 2 {
      var q := p[1..];
      forall i | 0 <= i < |q| - 1
        ensures Edge(g, q[i], q[i + 1])
      {
        assert Edge(g, p[i + 1], p[i + 2]);
      }
      assert WalkBetween(g, d, b, q);
    }
  }

  lemma StepThenReach(g: Graph, a: Id, d: Id, b: Id)
    requires Edge(g, a, d) && (d == b || Reaches(g, d, b))
    ensures Reaches(g, a, b)
  {
    EdgeReaches(g, a, d);
    if d != b {
      ReachesTrans(g, a, d, b);
    }
  }

  /** A closed set holds everything its members reach. */
  lemma {:induction false} WalkStaysInside(g: Graph, s: set<Id>, p: seq<Id>)
    requires Closed(g, s) && IsWalk(g, p) && p[0] in s
    ensures forall i :: 0 <= i < |p| ==> p[i] in s
  {
    assert Edge(g, p[0], p[1]);
    if |p| > 2 {
      var q := p[1..];
      forall i | 0 <= i < |q| - 1
        ensures Edge(g, q[i], q[i + 1])
      {
        assert Edge(g, p[i + 1], p[i + 2]);
      }
      WalkStaysInside(g, s, q);
      assert forall i :: 1 <= i < |p| ==> p[i] == q[i - 1];
    }
  }

  lemma ClosedHoldsReachable(g: Graph, s: set<Id>, a: Id, b: Id)
    requires Closed(g, s) && a in s && Reaches(g, a, b)
    ensures b in s
  {
    var p :| WalkBetween(g, a, b, p);
    WalkStaysInside(g, s, p);
  }

  /** More edges, more reachability. */
  lemma ReachesMonotone(g: Graph, h: Graph, a: Id, b: Id)
    requires forall x, y :: Edge(g, x, y) ==> Edge(h, x, y)
    requires Reaches(g, a, b)
    ensures Reaches(h, a, b)
  {
    var p :| WalkBetween(g, a, b, p);
    assert WalkBetween(h, a, b, p);
  }

  /** What one extra edge `from -> to` can add: a detour over that edge, and nothing else. */
  ghost predicate ReachesWithDetour(g: Graph, from: Id, to: Id, x: Id, y: Id) {
    || Reaches(g, x, y)
    || ((x == from || Reaches(g, x, from)) && (to == y || Reaches(g, to, y)))
  }

  lemma {:induction false} DetourAlongWalk(g: Graph, h: Graph, from: Id, to: Id, p: seq<Id>)
    requires forall x, y :: Edge(h, x, y) ==> Edge(g, x, y) || (x == from && y == to)
    requires IsWalk(h, p)
    ensures ReachesWithDetour(g, from, to, p[0], p[|p| - 1])
    decreases |p|
  {
    var x, z, y := p[0], p[1], p[|p| - 1];
    assert Edge(h, p[0], p[1]);
    if Edge(g, x, z) {
      EdgeReaches(g, x, z);
    }
    if |p| > 2 {
      var q := p[1..];
      forall i | 0 <= i < |q| - 1
        ensures Edge(h, q[i], q[i + 1])
      {
        assert Edge(h, p[i + 1], p[i + 2]);
      }
      DetourAlongWalk(g, h, from, to, q);
      if Edge(g, x, z) {
        if Reaches(g, z, y) {
          ReachesTrans(g, x, z, y);
        } else if z != from {
          ReachesTrans(g, x, z, from);
        }
      }
    }
  }

  /** Adding `from -> to` to an acyclic graph closes no cycle as long as `to` does not lead back to `from`. */
  lemma AddEdgeKeepsAcyclic(g: Graph, h: Graph, from: Id, to: Id)
    requires forall x, y :: Edge(h, x, y) ==> Edge(g, x, y) || (x == from && y == to)
    requires Acyclic(g) && from != to && !Reaches(g, to, from)
    ensures Acyclic(h)
  {
    forall a
      ensures !Reaches(h, a, a)
    {
      if Reaches(h, a, a) {
        var p :| WalkBetween(h, a, a, p);
        DetourAlongWalk(g, h, from, to, p);
        if a != to && a != from {
          ReachesTrans(g, to, a, from);
        }
        assert false;
      }
    }
  }

  /** The `seen` set that one search shares between all its recursive calls. */
  class SeenSet {
    var ids: set<Id>

    constructor ()
      ensures ids == {}
    {
      ids := {};
    }
  }

  /** Members that `done` has and `before` lacks are fully explored: their dependencies are known and none is the
      target. */
  ghost predicate Explored(g: Graph, target: Id, before: set<Id>, done: set<Id>) {
    forall a, b :: a in done && a !in before && Edge(g, a, b) ==> b in done && b != target
  }

  /** Depth-first search for a nonempty dependency chain, pruned by the ids already seen by the whole search. */
  method SearchFrom(g: Graph, taskId: Id, target: Id, seen: SeenSet, ghost universe: set<Id>)
      returns (found: bool)
    requires Closed(g, universe) && taskId in universe
    modifies seen
    ensures old(seen.ids) <= seen.ids
    ensures found ==> Reaches(g, taskId, target)
    ensures !found ==> taskId in seen.ids && Explored(g, target, old(seen.ids), seen.ids)
    decreases universe - seen.ids
  {
    if taskId in seen.ids {
      return false;
    }
    seen.ids := seen.ids + {taskId};
    if taskId !in g {
      return false;
    }
    var i := 0;
    while i < |g[taskId]|
      invariant 0 <= i <= |g[taskId]|
      invariant old(seen.ids) + {taskId} <= seen.ids
      invariant Explored(g, target, old(seen.ids) + {taskId}, seen.ids)
      invariant forall j :: 0 <= j < i ==> g[taskId][j] in seen.ids && g[taskId][j] != target
    {
      var dependency := g[taskId][i];
      assert Edge(g, taskId, dependency);
      if dependency == target {
        EdgeReaches(g, taskId, dependency);
        return true;
      }
      ghost var before := seen.ids;
      var deeper := SearchFrom(g, dependency, target, seen, universe);
      if deeper {
        StepThenReach(g, taskId, dependency, target);
        return true;
      }
      i := i + 1;
    }
    return false;
  }

  ghost function Universe(g: Graph, root: Id): set<Id> {
    {root} + g.Keys + (set a, b | a in g && b in g[a] :: b)
  }

  /** The search decides "depends on" exactly, on cyclic graphs too. */
  method DependsOn(g: Graph, taskId: Id, target: Id) returns (found: bool)
    ensures found <==> Reaches(g, taskId, target)
  {
    var seen := new SeenSet();
    found := SearchFrom(g, taskId, target, seen, Universe(g, taskId));
    if !found {
      NoEscape(g, taskId, target, seen.ids);
    }
  }

  lemma WalkMissesTarget(g: Graph, target: Id, done: set<Id>, p: seq<Id>)
    requires Explored(g, target, {}, done)
    requires IsWalk(g, p) && p[0] in done
    ensures p[|p| - 1] != target
  {
    WalkStaysInside(g, done, p);
    var last := |p| - 2;
    assert Edge(g, p[last], p[last + 1]);
  }

  lemma NoEscape(g: Graph, a: Id, target: Id, done: set<Id>)
    requires a in done && Explored(g, target, {}, done)
    ensures !Reaches(g, a, target)
  {
    forall p | IsWalk(g, p) && p[0] == a
      ensures p[|p| - 1] != target
    {
      WalkMissesTarget(g, target, done, p);
    }
  }

  /** The two-colour search that rejects cyclic graphs. */
  class CycleCheck {
    const graph: Graph
    var visiting: set<Id>
    var visited: set<Id>

    constructor (g: Graph)
      ensures graph == g && visiting == {} && visited == {}
    {
      graph := g;
      visiting, visited := {}, {};
    }

    /** Finished ids are closed under dependencies and lie on no cycle. */
    ghost predicate Valid()
      reads this
    {
      && visiting !! visited
      && Closed(graph, visited)
      && forall a :: a in visited ==> !Reaches(graph, a, a)
    }

    /** Returns false where the original throws. */
    method Visit(id: Id, ghost universe: set<Id>) returns (ok: bool)
      requires Valid()
      requires Closed(graph, universe) && id in universe
      requires forall a :: a in visiting ==> Reaches(graph, a, id)
      modifies this
      ensures ok ==> Valid() && visiting == old(visiting) && old(visited) + {id} <= visited
      ensures !ok ==> exists a :: Reaches(graph, a, a)
      decreases universe - visiting
    {
      if id in visiting {
        assert Reaches(graph, id, id);
        return false;
      }
      if id in visited {
        return true;
      }
      visiting := visiting + {id};
      if id in graph {
        var i := 0;
        while i < |graph[id]|
          invariant 0 <= i <= |graph[id]|
          invariant Valid()
          invariant visiting == old(visiting) + {id}
          invariant old(visited) <= visited
          invariant forall j :: 0 <= j < i ==> graph[id][j] in visited
        {
          var dependency := graph[id][i];
          assert Edge(graph, id, dependency);
          EdgeReaches(graph, id, dependency);
          forall a | a in visiting
            ensures Reaches(graph, a, dependency)
          {
            if a != id {
              ReachesTrans(graph, a, id, dependency);
            }
          }
          var fine := Visit(dependency, universe);
          if !fine {
            return false;
          }
          i := i + 1;
        }
      }
      FinishedIsSafe(graph, visited, id);
      visiting := visiting - {id};
      visited := visited + {id};
      return true;
    }
  }

  lemma FinishedIsSafe(g: Graph, visited: set<Id>, id: Id)
    requires Closed(g, visited) && id !in visited
    requires forall b :: Edge(g, id, b) ==> b in visited
    ensures !Reaches(g, id, id)
  {
    if Reaches(g, id, id) {
      var d := FirstStep(g, id, id);
      ClosedHoldsReachable(g, visited, d, id);
    }
  }

  /** Visits every entry in turn; accepts exactly the acyclic graphs. */
  method AssertAcyclic(g: Graph, entries: seq<Id>) returns (ok: bool)
    requires forall a :: a in g ==> a in entries
    ensures ok <==> Acyclic(g)
  {
    var check := new CycleCheck(g);
    ghost var universe := (set a | a in entries) + g.Keys + (set a, b | a in g && b in g[a] :: b);
    var i := 0;
    while i < |entries|
      invariant 0 <= i <= |entries|
      invariant check.graph == g
      invariant check.Valid() && check.visiting == {}
      invariant forall j :: 0 <= j < i ==> entries[j] in check.visited
    {
      var fine := check.Visit(entries[i], universe);
      if !fine {
        return false;
      }
      i := i + 1;
    }
    forall a
      ensures !Reaches(g, a, a)
    {
      if Reaches(g, a, a) {
        var _ := FirstStep(g, a, a);
      }
    }
    return true;
  }

}
