/** The plan builder adds a dependency between any two tasks that would otherwise write the same place side by side. */
module PlanBuilder {
  import opened DependencyGraph
  import opened Scopes
  import opened CampaignPlan
  import opened Sorting
  import Texts

  /** `after` is `before` with extra dependencies appended to some tasks. */
  ghost predicate OnlyAddsDependencies(before: seq<TaskPlan>, after: seq<TaskPlan>) {
    && |before| == |after|
    && forall i :: 0 <= i < |before| ==>
         && before[i].dependencies <= after[i].dependencies
         && after[i] == before[i].(dependencies := after[i].dependencies)
  }

  /** Every added dependency names a task that stands earlier in the list and writes to the same place. */
  ghost predicate AddedAreEarlier(before: seq<TaskPlan>, after: seq<TaskPlan>)
    requires OnlyAddsDependencies(before, after)
  {
    forall i, k :: 0 <= i < |before| && |before[i].dependencies| <= k < |after[i].dependencies| ==>
      exists j :: 0 <= j < i && after[i].dependencies[k] == before[j].id && OverlappingTasks(before[j], before[i])
  }

  lemma OnlyAddsTrans(a: seq<TaskPlan>, b: seq<TaskPlan>, c: seq<TaskPlan>)
    requires OnlyAddsDependencies(a, b) && OnlyAddsDependencies(b, c)
    ensures OnlyAddsDependencies(a, c)
  {
    forall i | 0 <= i < |a|
      ensures a[i].dependencies <= c[i].dependencies && c[i] == a[i].(dependencies := c[i].dependencies)
    {
      assert a[i].dependencies <= b[i].dependencies <= c[i].dependencies;
    }
  }

  /** What serialising keeps: acyclicity, duplicate-free dependency lists, known dependencies. */
  ghost predicate KeepsPlanShape(before: seq<TaskPlan>, after: seq<TaskPlan>) {
    && (Acyclic(GraphOf(before)) <==> Acyclic(GraphOf(after)))
    && (forall i :: 0 <= i < |before| && i < |after| && NoRepeats(before[i].dependencies) ==>
      NoRepeats(after[i].dependencies))
    && (KnownDependencies(before) ==> KnownDependencies(after))
  }

  function WithDependency(tasks: seq<TaskPlan>, right: nat, left: nat): seq<TaskPlan>
    requires left < |tasks| && right < |tasks|
  {
    tasks[right := tasks[right].(dependencies := tasks[right].dependencies + [tasks[left].id])]
  }

  lemma WithDependencyEdges(tasks: seq<TaskPlan>, right: nat, left: nat)
    requires left < right < |tasks| && UniqueIds(tasks)
    ensures UniqueIds(WithDependency(tasks, right, left))
    ensures forall x, y :: Edge(GraphOf(WithDependency(tasks, right, left)), x, y) <==>
      Edge(GraphOf(tasks), x, y) || (x == tasks[right].id && y == tasks[left].id)
  {
    hide GraphOf, Edge;
    var after := WithDependency(tasks, right, left);
    assert forall k :: 0 <= k < |tasks| ==> after[k].id == tasks[k].id;
    forall x, y
      ensures Edge(GraphOf(after), x, y) <==>
        Edge(GraphOf(tasks), x, y) || (x == tasks[right].id && y == tasks[left].id)
    {
      WithDependencyEdge(tasks, right, left, x, y);
    }
  }

  lemma WithDependencyEdge(tasks: seq<TaskPlan>, right: nat, left: nat, x: Id, y: Id)
    requires left < right < |tasks| && UniqueIds(tasks) && UniqueIds(WithDependency(tasks, right, left))
    ensures Edge(GraphOf(WithDependency(tasks, right, left)), x, y) <==>
      Edge(GraphOf(tasks), x, y) || (x == tasks[right].id && y == tasks[left].id)
  {
    hide GraphOf, UniqueIds;
    var after := WithDependency(tasks, right, left);
    if k :| 0 <= k < |tasks| && tasks[k].id == x {
      GraphOfTask(tasks, k);
      GraphOfTask(after, k);
      if x == tasks[right].id {
        SamePlace(tasks, k, right);
      }
    } else {
      assert x !in Ids(tasks);
      forall k | 0 <= k < |after|
        ensures after[k].id != x
      {
        assert after[k].id == tasks[k].id;
      }
      assert x !in Ids(after);
    }
  }

  lemma SamePlace(tasks: seq<TaskPlan>, i: nat, j: nat)
    requires UniqueIds(tasks) && i < |tasks| && j < |tasks| && tasks[i].id == tasks[j].id
    ensures i == j
  {
  }

  /** One added dependency between two tasks that were not ordered keeps every order there was, adds the new one... */
  lemma AddDependencyOrders(tasks: seq<TaskPlan>, right: nat, left: nat)
    requires left < right < |tasks| && UniqueIds(tasks)
    ensures forall a, b :: Reaches(GraphOf(tasks), a, b) ==> Reaches(GraphOf(WithDependency(tasks, right, left)), a, b)
    ensures Reaches(GraphOf(WithDependency(tasks, right, left)), tasks[right].id, tasks[left].id)
  {
    var g, h := GraphOf(tasks), GraphOf(WithDependency(tasks, right, left));
    WithDependencyEdges(tasks, right, left);
    forall a, b | Reaches(g, a, b)
      ensures Reaches(h, a, b)
    {
      ReachesMonotone(g, h, a, b);
    }
    EdgeReaches(h, tasks[right].id, tasks[left].id);
  }

  /** ...closes no cycle... */
  lemma AddDependencyAcyclic(tasks: seq<TaskPlan>, right: nat, left: nat)
    requires left < right < |tasks| && UniqueIds(tasks)
    requires !Ordered(GraphOf(tasks), tasks[right].id, tasks[left].id)
    ensures Acyclic(GraphOf(tasks)) <==> Acyclic(GraphOf(WithDependency(tasks, right, left)))
  {
    var g, h := GraphOf(tasks), GraphOf(WithDependency(tasks, right, left));
    WithDependencyEdges(tasks, right, left);
    if Acyclic(g) {
      AddEdgeKeepsAcyclic(g, h, tasks[right].id, tasks[left].id);
    }
    if Acyclic(h) {
      AddDependencyOrders(tasks, right, left);
    }
  }

  /** ...and names a task that was not yet a dependency. */
  lemma AddDependencyIsNew(tasks: seq<TaskPlan>, right: nat, left: nat)
    requires left < right < |tasks| && UniqueIds(tasks)
    requires !Ordered(GraphOf(tasks), tasks[right].id, tasks[left].id)
    ensures tasks[left].id !in tasks[right].dependencies
  {
    if tasks[left].id in tasks[right].dependencies {
      EdgeOfTask(tasks, tasks[right], tasks[left].id);
      EdgeReaches(GraphOf(tasks), tasks[right].id, tasks[left].id);
    }
  }

  lemma AddDependencyKnown(tasks: seq<TaskPlan>, right: nat, left: nat)
    requires left < right < |tasks| && UniqueIds(tasks) && KnownDependencies(tasks)
    ensures KnownDependencies(WithDependency(tasks, right, left))
  {
    var after := WithDependency(tasks, right, left);
    assert Ids(after) == Ids(tasks) by {
      forall t | t in tasks
        ensures t.id in Ids(after)
      {
        var k :| 0 <= k < |tasks| && tasks[k] == t;
        assert after[k] in after;
      }
      forall t | t in after
        ensures t.id in Ids(tasks)
      {
        var k :| 0 <= k < |after| && after[k] == t;
        assert tasks[k] in tasks;
      }
    }
    forall t | t in after
      ensures DependsOnOthers(t, Ids(after))
    {
      var k :| 0 <= k < |after| && after[k] == t;
      assert tasks[k] in tasks && tasks[left] in tasks;
      assert DependsOnOthers(tasks[k], Ids(tasks));
      assert tasks[left].id in Ids(tasks);
    }
  }

  lemma SameIds(before: seq<TaskPlan>, after: seq<TaskPlan>)
    requires OnlyAddsDependencies(before, after)
    ensures UniqueIds(before) <==> UniqueIds(after)
  {
    assert forall i :: 0 <= i < |before| ==> before[i].id == after[i].id;
  }

  /** The loops look at the pair (i, j) before (left, right). */
  predicate Before(i: int, j: int, right: int, left: int) {
    j < right || (j == right && i < left)
  }

  /** Every overlapping pair among the first `right` tasks, and of `right` with the first `left`, is ordered. */
  ghost predicate OrderedUpTo(tasks: seq<TaskPlan>, right: nat, left: nat) {
    forall i, j :: 0 <= i < j < |tasks| && Before(i, j, right, left) && OverlappingTasks(tasks[i], tasks[j]) ==>
      Ordered(GraphOf(tasks), tasks[i].id, tasks[j].id)
  }

  lemma OrderedUpToGrows(before: seq<TaskPlan>, after: seq<TaskPlan>, right: nat, left: nat)
    requires OnlyAddsDependencies(before, after) && OrderedUpTo(before, right, left)
    requires forall a, b :: Reaches(GraphOf(before), a, b) ==> Reaches(GraphOf(after), a, b)
    ensures OrderedUpTo(after, right, left)
  {
    forall i, j | 0 <= i < j < |after| && Before(i, j, right, left) && OverlappingTasks(after[i], after[j])
      ensures Ordered(GraphOf(after), after[i].id, after[j].id)
    {
      assert OverlappingTasks(before[i], before[j]);
      assert Ordered(GraphOf(before), before[i].id, before[j].id);
    }
  }

  /** What holds while the pairs before (right, left) have been looked at. */
  ghost predicate Serialized(tasks: seq<TaskPlan>, now: seq<TaskPlan>, right: nat, left: nat) {
    && KeepsPlanShape(tasks, now)
    && OrderedUpTo(now, right, left)
  }

  lemma StepAdds(tasks: seq<TaskPlan>, was: seq<TaskPlan>, right: nat, left: nat)
    requires left < right < |was|
    requires OnlyAddsDependencies(tasks, was) && AddedAreEarlier(tasks, was)
    requires OverlappingTasks(was[left], was[right])
    ensures OnlyAddsDependencies(tasks, WithDependency(was, right, left))
    ensures AddedAreEarlier(tasks, WithDependency(was, right, left))
  {
    var now := WithDependency(was, right, left);
    assert OnlyAddsDependencies(was, now);
    OnlyAddsTrans(tasks, was, now);
    forall i, k | 0 <= i < |tasks| && |tasks[i].dependencies| <= k < |now[i].dependencies|
      ensures exists j :: 0 <= j < i && now[i].dependencies[k] == tasks[j].id && OverlappingTasks(tasks[j], tasks[i])
    {
      if i == right && k == |was[i].dependencies| {
        assert now[i].dependencies[k] == tasks[left].id && OverlappingTasks(tasks[left], tasks[right]);
      } else {
        assert now[i].dependencies[k] == was[i].dependencies[k];
      }
    }
  }

  lemma StepKeepsShape(tasks: seq<TaskPlan>, was: seq<TaskPlan>, right: nat, left: nat)
    requires left < right < |was| && |tasks| == |was| && UniqueIds(was)
    requires !Ordered(GraphOf(was), was[right].id, was[left].id)
    requires KeepsPlanShape(tasks, was)
    ensures KeepsPlanShape(tasks, WithDependency(was, right, left))
  {
    var now := WithDependency(was, right, left);
    AddDependencyAcyclic(was, right, left);
    AddDependencyIsNew(was, right, left);
    assert forall i :: 0 <= i < |was| && NoRepeats(was[i].dependencies) ==> NoRepeats(now[i].dependencies);
    if KnownDependencies(was) {
      AddDependencyKnown(was, right, left);
    }
  }

  lemma StepSerializes(tasks: seq<TaskPlan>, was: seq<TaskPlan>, right: nat, left: nat)
    requires left < right < |was| && |tasks| == |was| && UniqueIds(was)
    requires !Ordered(GraphOf(was), was[right].id, was[left].id)
    requires Serialized(tasks, was, right, left)
    ensures Serialized(tasks, WithDependency(was, right, left), right, left + 1)
  {
    hide KeepsPlanShape, OrderedUpTo, GraphOf, Reaches, UniqueIds;
    var now := WithDependency(was, right, left);
    StepKeepsShape(tasks, was, right, left);
    AddDependencyOrders(was, right, left);
    assert OnlyAddsDependencies(was, now);
    OrderedUpToGrows(was, now, right, left);
    OrderedUpToMore(now, right, left);
  }

  lemma OrderedUpToMore(tasks: seq<TaskPlan>, right: nat, left: nat)
    requires left < right < |tasks| && OrderedUpTo(tasks, right, left)
    requires OverlappingTasks(tasks[left], tasks[right]) ==> Ordered(GraphOf(tasks), tasks[left].id, tasks[right].id)
    ensures OrderedUpTo(tasks, right, left + 1)
  {
    hide GraphOf, Ordered, OverlappingTasks;
  }

  /** What holds before the loops look at a pair. */
  ghost predicate Underway(tasks: seq<TaskPlan>, now: seq<TaskPlan>, right: nat, left: nat) {
    && OnlyAddsDependencies(tasks, now) && AddedAreEarlier(tasks, now)
    && (UniqueIds(tasks) ==> Serialized(tasks, now, right, left))
  }

  lemma NothingDone(tasks: seq<TaskPlan>)
    ensures Underway(tasks, tasks, 0, 0)
  {
  }

  lemma RowDone(tasks: seq<TaskPlan>, now: seq<TaskPlan>, right: nat)
    requires Underway(tasks, now, right, right)
    ensures Underway(tasks, now, right + 1, 0)
  {
    hide GraphOf, Ordered, OverlappingTasks, KeepsPlanShape, AddedAreEarlier, OnlyAddsDependencies;
  }

  lemma AllDone(tasks: seq<TaskPlan>, now: seq<TaskPlan>)
    requires Underway(tasks, now, |now|, 0)
    ensures UniqueIds(tasks) ==> KeepsPlanShape(tasks, now) && IndependentScopesDisjoint(now)
  {
    hide GraphOf, Ordered, OverlappingTasks, KeepsPlanShape, AddedAreEarlier, OnlyAddsDependencies;
  }

  lemma PairSkipped(tasks: seq<TaskPlan>, now: seq<TaskPlan>, right: nat, left: nat)
    requires left < right < |now| && Underway(tasks, now, right, left)
    requires UniqueIds(now) && OverlappingTasks(now[left], now[right]) ==>
      Ordered(GraphOf(now), now[left].id, now[right].id)
    ensures Underway(tasks, now, right, left + 1)
  {
    hide GraphOf, Ordered, OverlappingTasks, KeepsPlanShape, AddedAreEarlier;
    SameIds(tasks, now);
    if UniqueIds(tasks) {
      OrderedUpToMore(now, right, left);
    }
  }

  lemma PairOrdered(tasks: seq<TaskPlan>, was: seq<TaskPlan>, right: nat, left: nat)
    requires left < right < |was| && Underway(tasks, was, right, left)
    requires OverlappingTasks(was[left], was[right]) && !Ordered(GraphOf(was), was[right].id, was[left].id)
    ensures Underway(tasks, WithDependency(was, right, left), right, left + 1)
  {
    hide GraphOf, Ordered, OverlappingTasks, Serialized, WithDependency, AddedAreEarlier, UniqueIds;
    SameIds(tasks, was);
    StepAdds(tasks, was, right, left);
    if UniqueIds(tasks) {
      StepSerializes(tasks, was, right, left);
    }
  }

  /** Works on its own copy, pair by pair, adding an edge from the later task to the earlier one where neither depends
      on the other. */
  method SerializeOverlaps(tasks: seq<TaskPlan>) returns (output: array<TaskPlan>)
    ensures fresh(output)
    ensures OnlyAddsDependencies(tasks, output[..])
    ensures AddedAreEarlier(tasks, output[..])
    ensures UniqueIds(tasks) ==> KeepsPlanShape(tasks, output[..]) && IndependentScopesDisjoint(output[..])
  {
    hide Serialized, GraphOf, UniqueIds, KeepsPlanShape, IndependentScopesDisjoint, AddedAreEarlier, Underway;
    output := new TaskPlan[|tasks|](i requires 0 <= i < |tasks| => tasks[i]);
    assert output[..] == tasks;
    NothingDone(tasks);
    var right := 0;
    while right < output.Length
      invariant 0 <= right <= output.Length
      invariant Underway(tasks, output[..], right, 0)
    {
      var left := 0;
      while left < right
        invariant 0 <= left <= right < output.Length
        invariant Underway(tasks, output[..], right, left)
      {
        SerializePair(tasks, output, right, left);
        left := left + 1;
      }
      RowDone(tasks, output[..], right);
      right := right + 1;
    }
    AllDone(tasks, output[..]);
    UnderwayAdds(tasks, output[..], right);
  }

  lemma UnderwayAdds(tasks: seq<TaskPlan>, now: seq<TaskPlan>, right: nat)
    requires Underway(tasks, now, right, 0)
    ensures OnlyAddsDependencies(tasks, now) && AddedAreEarlier(tasks, now)
  {
  }

  /** One turn of the inner loop. */
  method SerializePair(ghost tasks: seq<TaskPlan>, output: array<TaskPlan>, right: nat, left: nat)
    requires left < right < output.Length
    requires Underway(tasks, output[..], right, left)
    modifies output
    ensures Underway(tasks, output[..], right, left + 1)
  {
    hide Underway, GraphOf, Reaches, AnyOverlap;
    var earlier, later := output[left], output[right];
    ghost var was := output[..];
    OverlapTestsAgree(earlier.writeScopes, later.writeScopes);
    if !AnyOverlap(earlier.writeScopes, later.writeScopes) {
      PairSkipped(tasks, was, right, left);
      return;
    }
    var forward := DependsOn(GraphOf(output[..]), later.id, earlier.id);
    if forward {
      PairSkipped(tasks, was, right, left);
      return;
    }
    var backward := DependsOn(GraphOf(output[..]), earlier.id, later.id);
    if backward {
      PairSkipped(tasks, was, right, left);
      return;
    }
    output[right] := later.(dependencies := later.dependencies + [earlier.id]);
    assert output[..] == WithDependency(was, right, left);
    PairOrdered(tasks, was, right, left);
  }

  // The plan's own checks accept the result.

  lemma {:induction false} UniqueFits(s: seq<Id>, within: set<Id>)
    requires NoRepeats(s) && forall d :: d in s ==> d in within
    ensures |s| <= |within|
  {
    if s != [] {
      HeadNotInTail(s);
      UniqueFits(s[1..], within - {s[0]});
    }
  }

  lemma StaysValidTask(before: seq<TaskPlan>, after: seq<TaskPlan>, i: nat)
    requires OnlyAddsDependencies(before, after) && i < |after| && |after| <= MAXIMUM_TASKS && KnownDependencies(after)
    requires (forall t :: t in before ==> ValidTask(t)) && KeepsPlanShape(before, after)
    ensures ValidTask(after[i])
  {
    hide SafeAgentId, ValidRequirement, ValidScopes, ValidTexts, Texts.SafeId, Acyclic, GraphOf;
    assert after[i] in after && before[i] in before;
    UniqueFits(after[i].dependencies, Ids(after));
    IdsFit(after);
    forall d | d in after[i].dependencies
      ensures Texts.SafeId(d, 100)
    {
      var t :| t in after && t.id == d;
      var j :| 0 <= j < |after| && after[j] == t;
      assert before[j] in before && before[j].id == d;
    }
  }

  /** What was a valid plan but for the overlaps is a valid plan after serialising: the checks on cycles, on overlaps
      and on the number of dependencies all accept it. */
  lemma SerializedIsValid(before: seq<TaskPlan>, after: seq<TaskPlan>)
    requires 1 <= |before| <= MAXIMUM_TASKS && UniqueIds(before) && KnownDependencies(before)
    requires Acyclic(GraphOf(before))
    requires forall t :: t in before ==> ValidTask(t)
    requires OnlyAddsDependencies(before, after) && KeepsPlanShape(before, after) && IndependentScopesDisjoint(after)
    ensures ValidTasks(after)
  {
    hide KnownDependencies, Acyclic, GraphOf, IndependentScopesDisjoint, UniqueIds, ValidTask;
    SameIds(before, after);
    forall t | t in after
      ensures ValidTask(t)
    {
      var i :| 0 <= i < |after| && after[i] == t;
      assert before[i] in before;
      StaysValidTask(before, after, i);
    }
  }

}
