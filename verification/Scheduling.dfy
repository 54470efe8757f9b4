/** Graph facts the scheduler rests on: which tasks can succeed at all, and how deep the dependency layers are. */
module Scheduling {
  import opened DependencyGraph

  /** A task succeeds in the end when it, and everything it depends on, succeeds on its own. */
  ghost predicate SucceedsWithAll(g: Graph, succeeds: set<Id>, t: Id) {
    t in succeeds && forall d :: Reaches(g, t, d) ==> d in succeeds
  }

  /** A nonempty finite set of nodes of an acyclic graph has a member with no edge into the set. */
  lemma {:induction false} SinkExists(g: Graph, s: set<Id>) returns (sink: Id)
    requires Acyclic(g) && s != {}
    ensures sink in s
    ensures forall b :: Edge(g, sink, b) ==> b !in s
    decreases s
  {
    var x :| x in s;
    var r := set y | y in s && Reaches(g, x, y);
    if r == {} {
      sink := x;
      forall b | Edge(g, x, b)
        ensures b !in s
      {
        EdgeReaches(g, x, b);
        assert b !in r;
      }
    } else {
      assert x !in r;
      sink := SinkExists(g, r);
      forall b | Edge(g, sink, b)
        ensures b !in s
      {
        EdgeReaches(g, sink, b);
        ReachesTrans(g, x, sink, b);
        assert b !in r;
      }
    }
  }

  /** If every member of `failed` failed itself or depends directly on a member, each has a self-made failure at or
      below it. */
  lemma FailureHasCause(g: Graph, failed: set<Id>, ownFailures: set<Id>, t: Id)
    requires Acyclic(g) && t in failed
    requires forall f :: f in failed ==> f in ownFailures || exists d :: Edge(g, f, d) && d in failed
    ensures t in ownFailures || exists d :: Reaches(g, t, d) && d in ownFailures
  {
    var innocent := set f | f in failed && f !in ownFailures && !exists d :: d in ownFailures && Reaches(g, f, d);
    if innocent != {} {
      var sink := SinkExists(g, innocent);
      var d :| Edge(g, sink, d) && d in failed;
      EdgeReaches(g, sink, d);
      forall c | c in ownFailures
        ensures !Reaches(g, d, c)
      {
        if Reaches(g, d, c) {
          ReachesTrans(g, sink, d, c);
        }
      }
    }
    assert t !in innocent;
  }

  /** The first `n` dependency layers. */
  ghost function Layer(g: Graph, n: nat): set<Id> {
    if n == 0 then {}
    else set t | t in g && forall d :: d in g[t] ==> d in Layer(g, n - 1)
  }

  lemma {:induction false} LayersGrow(g: Graph, n: nat)
    ensures Layer(g, n) <= Layer(g, n + 1)
  {
    if n > 0 {
      LayersGrow(g, n - 1);
    }
  }

  /** A chain of tasks, each depending directly on the next. */
  ghost predicate IsChain(g: Graph, p: seq<Id>) {
    && p != []
    && (forall i :: 0 <= i < |p| ==> p[i] in g)
    && (forall i :: 0 <= i < |p| - 1 ==> Edge(g, p[i], p[i + 1]))
  }

  ghost predicate ChainFrom(g: Graph, t: Id, p: seq<Id>) {
    IsChain(g, p) && p[0] == t
  }

  lemma ChainTail(g: Graph, p: seq<Id>)
    requires IsChain(g, p) && |p| >= 2
    ensures IsChain(g, p[1..]) && Edge(g, p[0], p[1])
  {
    forall i | 0 <= i < |p[1..]| - 1
      ensures Edge(g, p[1..][i], p[1..][i + 1])
    {
      assert Edge(g, p[i + 1], p[i + 2]);
    }
  }

  lemma ChainCons(g: Graph, t: Id, p: seq<Id>)
    requires t in g && IsChain(g, p) && Edge(g, t, p[0])
    ensures IsChain(g, [t] + p)
  {
    var q := [t] + p;
    forall i | 0 <= i < |q| - 1
      ensures Edge(g, q[i], q[i + 1])
    {
      if i > 0 {
        assert Edge(g, p[i - 1], p[i]);
      }
    }
  }

  /** A task of layer `n` starts no chain longer than `n`. */
  lemma {:induction false} LayerBoundsChains(g: Graph, n: nat, p: seq<Id>)
    requires IsChain(g, p) && p[0] in Layer(g, n)
    ensures |p| <= n
    decreases n
  {
    if |p| >= 2 {
      ChainTail(g, p);
      LayerBoundsChains(g, n - 1, p[1..]);
    }
  }

  /** Outside layer `n`, where every dependency is a task, there is a chain of more than `n` tasks. */
  lemma {:induction false} BeyondLayerHasChain(g: Graph, t: Id, n: nat) returns (p: seq<Id>)
    requires t in g && t !in Layer(g, n)
    requires forall a, b :: Edge(g, a, b) ==> b in g
    ensures ChainFrom(g, t, p) && |p| == n + 1
    decreases n
  {
    if n == 0 {
      p := [t];
    } else {
      var d :| d in g[t] && d !in Layer(g, n - 1);
      assert Edge(g, t, d);
      var q := BeyondLayerHasChain(g, d, n - 1);
      ChainCons(g, t, q);
      p := [t] + q;
    }
  }

  /** The longest chain that starts at `t` has exactly `n` tasks. */
  ghost predicate DepthIs(g: Graph, t: Id, n: nat) {
    && (forall p :: ChainFrom(g, t, p) ==> |p| <= n)
    && (exists p :: ChainFrom(g, t, p) && |p| == n)
  }

  ghost predicate LongestChainIs(g: Graph, n: nat) {
    && (forall p :: IsChain(g, p) ==> |p| <= n)
    && (exists p :: IsChain(g, p) && |p| == n)
  }

  lemma LayerIsDepth(g: Graph, t: Id, n: nat)
    requires n > 0 && t in Layer(g, n) && t !in Layer(g, n - 1)
    requires forall a, b :: Edge(g, a, b) ==> b in g
    ensures DepthIs(g, t, n)
  {
    forall p | ChainFrom(g, t, p)
      ensures |p| <= n
    {
      LayerBoundsChains(g, n, p);
    }
    var _ := BeyondLayerHasChain(g, t, n - 1);
  }

  lemma CoveringLayerBounds(g: Graph, n: nat, longest: nat)
    requires g.Keys <= Layer(g, n) && LongestChainIs(g, longest)
    ensures longest <= n
  {
    var p :| IsChain(g, p) && |p| == longest;
    assert p[0] in g;
    LayerBoundsChains(g, n, p);
  }

  lemma LayersAreLongestChain(g: Graph, n: nat, deepest: Id)
    requires n > 0 && g.Keys <= Layer(g, n)
    requires deepest in g && deepest !in Layer(g, n - 1)
    requires forall a, b :: Edge(g, a, b) ==> b in g
    ensures LongestChainIs(g, n)
  {
    forall p | IsChain(g, p)
      ensures |p| <= n
    {
      assert p[0] in g;
      LayerBoundsChains(g, n, p);
    }
    var p := BeyondLayerHasChain(g, deepest, n - 1);
    assert IsChain(g, p) && |p| == n;
  }

  /** While a layer leaves tasks out, the next one is larger. */
  lemma LayerGrowsStrictly(g: Graph, n: nat)
    requires Acyclic(g) && !(g.Keys <= Layer(g, n))
    requires forall a, b :: Edge(g, a, b) ==> b in g
    ensures |Layer(g, n)| < |Layer(g, n + 1)| <= |g.Keys|
  {
    hide Acyclic;
    LayersGrow(g, n);
    var rest := g.Keys - Layer(g, n);
    var left :| left in g && left !in Layer(g, n);
    assert left in rest;
    var sink := SinkExists(g, rest);
    forall d | d in g[sink]
      ensures d in Layer(g, n)
    {
      assert Edge(g, sink, d);
    }
    assert sink in Layer(g, n + 1);
    Smaller(Layer(g, n), Layer(g, n + 1), sink);
    SubsetSize(Layer(g, n + 1), g.Keys);
  }

  lemma {:induction false} SubsetSize(small: set<Id>, large: set<Id>)
    requires small <= large
    ensures |small| <= |large|
  {
    if small != {} {
      var x :| x in small;
      SubsetSize(small - {x}, large - {x});
    }
  }

  lemma Smaller(small: set<Id>, large: set<Id>, x: Id)
    requires small <= large && x in large && x !in small
    ensures |small| < |large|
  {
    SubsetSize(small, large - {x});
  }

  /** Without a cycle there is a longest chain. */
  lemma LongestChainExists(g: Graph) returns (n: nat)
    requires Acyclic(g) && g != map[]
    requires forall a, b :: Edge(g, a, b) ==> b in g
    ensures LongestChainIs(g, n)
  {
    hide Acyclic, LongestChainIs, Layer, Edge;
    n := 0;
    ghost var deepest: Id :| deepest in g;
    LayerZero(g);
    while !(g.Keys <= Layer(g, n))
      invariant n > 0 ==> deepest in g && deepest !in Layer(g, n - 1)
      invariant |Layer(g, n)| <= |g.Keys|
      decreases |g.Keys| - |Layer(g, n)|
    {
      LayerGrowsStrictly(g, n);
      deepest :| deepest in g && deepest !in Layer(g, n);
      n := n + 1;
    }
    LayersAreLongestChain(g, n, deepest);
  }

  lemma LayerZero(g: Graph)
    ensures Layer(g, 0) == {}
  {
  }

}
