/** The campaign plan: its checks on the task graph, and the tasks that are ready to run. */
module CampaignPlan {
  import opened DependencyGraph
  import opened Scopes
  import opened Sorting
  import Texts
  import ExecutionTypes

  datatype ProfileRequirement = ProfileRequirement(
    transports: seq<ExecutionTypes.Transport>, capabilities: seq<ExecutionTypes.Capability>)

  datatype TaskPlan = TaskPlan(
    id: Id, agentId: string, role: string, requiredProfile: ProfileRequirement, priority: int, dependencies: seq<Id>,
    readScopes: seq<Scope>, writeScopes: seq<Scope>, deliverables: seq<string>, validations: seq<string>)

  const MAXIMUM_TASKS := 100

  function Ids(tasks: seq<TaskPlan>): set<Id> {
    set t | t in tasks :: t.id
  }

  lemma {:induction false} IdsFit(tasks: seq<TaskPlan>)
    ensures |Ids(tasks)| <= |tasks|
  {
    if tasks != [] {
      IdsFit(tasks[1..]);
      assert Ids(tasks) == Ids(tasks[1..]) + {tasks[0].id} by {
        assert tasks == [tasks[0]] + tasks[1..];
      }
    }
  }

  ghost predicate UniqueIds(tasks: seq<TaskPlan>) {
    forall i, j :: 0 <= i < j < |tasks| ==> tasks[i].id != tasks[j].id
  }

  /** The dependency graph; an id that occurs twice stands for its first task. */
  function GraphOf(tasks: seq<TaskPlan>): (g: Graph)
    ensures g.Keys == Ids(tasks)
  {
    if tasks == [] then map[]
    else
      assert tasks == [tasks[0]] + tasks[1..];
      GraphOf(tasks[1..])[tasks[0].id := tasks[0].dependencies]
  }

  lemma {:induction false} GraphOfTask(tasks: seq<TaskPlan>, i: nat)
    requires i < |tasks| && UniqueIds(tasks)
    ensures tasks[i].id in GraphOf(tasks) && GraphOf(tasks)[tasks[i].id] == tasks[i].dependencies
  {
    if i > 0 {
      GraphOfTask(tasks[1..], i - 1);
    }
  }

  lemma EdgeOfTask(tasks: seq<TaskPlan>, t: TaskPlan, d: Id)
    requires UniqueIds(tasks) && t in tasks
    ensures Edge(GraphOf(tasks), t.id, d) <==> d in t.dependencies
  {
    var i :| 0 <= i < |tasks| && tasks[i] == t;
    GraphOfTask(tasks, i);
  }

  /** A name, a role and a date, with a serial number where there is more than one. */
  predicate SafeAgentId(s: string) {
    var parts := Split(s, '_');
    && |parts| in {3, 4}
    && 1 <= |parts[0]| <= 40 && Texts.UpperLetter(parts[0][0])
    && (forall c :: c in parts[0] ==> Texts.UpperLetter(c) || Texts.LowerLetter(c) || Texts.Numeral(c) || c == '-')
    && 1 <= |parts[1]| <= 40 && Texts.LowerLetter(parts[1][0])
    && (forall c :: c in parts[1] ==> Texts.LowerLetter(c) || Texts.Numeral(c) || c == '-')
    && |parts[2]| == 8 && (forall c :: c in parts[2] ==> Texts.Numeral(c))
    && (|parts| == 4 ==> |parts[3]| == 2 && forall c :: c in parts[3] ==> Texts.Numeral(c))
  }

  predicate ValidRequirement(requirement: ProfileRequirement) {
    && requirement.transports != [] && NoRepeats(requirement.transports)
    && requirement.capabilities != [] && NoRepeats(requirement.capabilities)
  }

  predicate ValidScopes(scopes: seq<Scope>) {
    1 <= |scopes| <= 100 && NoRepeats(scopes) && forall s :: s in scopes ==> SafeScope(s)
  }

  predicate ValidDependencies(dependencies: seq<Id>) {
    |dependencies| <= 100 && NoRepeats(dependencies) && forall d :: d in dependencies ==> Texts.SafeId(d, 100)
  }

  predicate ValidTexts(texts: seq<string>) {
    |texts| <= 100 && forall text :: text in texts ==> Texts.SafeText(text, 300)
  }

  predicate ValidTask(t: TaskPlan) {
    && Texts.SafeId(t.id, 100) && SafeAgentId(t.agentId) && Texts.SafeId(t.role, 80) && 0 <= t.priority <= 10_000
    && ValidRequirement(t.requiredProfile)
    && ValidDependencies(t.dependencies)
    && ValidScopes(t.readScopes) && ValidScopes(t.writeScopes)
    && (forall s :: s in t.writeScopes ==> exists r :: r in t.readScopes && ContainsScope(r, s))
    && ValidTexts(t.deliverables) && ValidTexts(t.validations)
  }

  ghost predicate DependsOnOthers(t: TaskPlan, ids: set<Id>) {
    forall d :: d in t.dependencies ==> d in ids && d != t.id
  }

  ghost predicate KnownDependencies(tasks: seq<TaskPlan>) {
    forall t :: t in tasks ==> DependsOnOthers(t, Ids(tasks))
  }

  ghost predicate Ordered(g: Graph, a: Id, b: Id) {
    Reaches(g, a, b) || Reaches(g, b, a)
  }

  ghost predicate OverlappingTasks(a: TaskPlan, b: TaskPlan) {
    exists x, y :: x in a.writeScopes && y in b.writeScopes && ScopesOverlap(x, y)
  }

  /** Tasks that may run side by side write in different places. */
  ghost predicate IndependentScopesDisjoint(tasks: seq<TaskPlan>) {
    forall i, j :: 0 <= i < j < |tasks| && OverlappingTasks(tasks[i], tasks[j]) ==>
      Ordered(GraphOf(tasks), tasks[i].id, tasks[j].id)
  }

  ghost predicate ValidTasks(tasks: seq<TaskPlan>) {
    && 1 <= |tasks| <= MAXIMUM_TASKS
    && (forall t :: t in tasks ==> ValidTask(t))
    && UniqueIds(tasks)
    && KnownDependencies(tasks)
    && Acyclic(GraphOf(tasks))
    && IndependentScopesDisjoint(tasks)
  }

  method OverlapBetween(a: TaskPlan, b: TaskPlan) returns (overlap: bool)
    ensures overlap <==> OverlappingTasks(a, b)
  {
    overlap := exists x, y :: x in a.writeScopes && y in b.writeScopes && ScopesOverlap(x, y);
  }

  /** Accepts exactly when every overlapping pair is ordered by dependencies. */
  method AssertIndependentScopesDoNotOverlap(tasks: seq<TaskPlan>) returns (ok: bool)
    ensures ok <==> IndependentScopesDisjoint(tasks)
  {
    var g := GraphOf(tasks);
    var left := 0;
    while left < |tasks|
      invariant 0 <= left <= |tasks|
      invariant forall i, j :: 0 <= i < left && i < j < |tasks| && OverlappingTasks(tasks[i], tasks[j]) ==>
        Ordered(g, tasks[i].id, tasks[j].id)
    {
      var right := left + 1;
      while right < |tasks|
        invariant left + 1 <= right <= |tasks|
        invariant forall j :: left < j < right && OverlappingTasks(tasks[left], tasks[j]) ==>
          Ordered(g, tasks[left].id, tasks[j].id)
      {
        var forward := DependsOn(g, tasks[left].id, tasks[right].id);
        var backward := DependsOn(g, tasks[right].id, tasks[left].id);
        if !forward && !backward {
          var overlap := OverlapBetween(tasks[left], tasks[right]);
          if overlap {
            return false;
          }
        }
        right := right + 1;
      }
      left := left + 1;
    }
    return true;
  }

  /** Higher priority first, then by the collation of the ids. */
  predicate RunsBefore(a: TaskPlan, b: TaskPlan, collate: (Id, Id) -> int) {
    a.priority > b.priority || (a.priority == b.priority && collate(a.id, b.id) <= 0)
  }

  function ByPriority(collate: (Id, Id) -> int): (TaskPlan, TaskPlan) -> bool {
    (a: TaskPlan, b: TaskPlan) => RunsBefore(a, b, collate)
  }

  /** The collation is a total preorder, as comparison functions are. */
  ghost predicate Collates(collate: (Id, Id) -> int) {
    && (forall a, b :: collate(a, b) <= 0 || collate(b, a) <= 0)
    && (forall a, b, c :: collate(a, b) <= 0 && collate(b, c) <= 0 ==> collate(a, c) <= 0)
  }

  lemma PriorityIsTotal(collate: (Id, Id) -> int)
    requires Collates(collate)
    ensures TotalPreorder(ByPriority(collate))
  {
    var leq := ByPriority(collate);
    forall a, b, c | leq(a, b) && leq(b, c)
      ensures leq(a, c)
    {
    }
  }

  predicate IsReady(t: TaskPlan, completed: set<Id>) {
    t.id !in completed && forall d :: d in t.dependencies ==> d in completed
  }

  function Filter(tasks: seq<TaskPlan>, keep: TaskPlan -> bool): (r: seq<TaskPlan>)
    ensures forall t :: t in r <==> t in tasks && keep(t)
    ensures |r| <= |tasks|
  {
    if tasks == [] then []
    else
      assert tasks == [tasks[0]] + tasks[1..];
      (if keep(tasks[0]) then [tasks[0]] else []) + Filter(tasks[1..], keep)
  }

  lemma {:induction false} FilterUnique(tasks: seq<TaskPlan>, keep: TaskPlan -> bool)
    requires UniqueIds(tasks)
    ensures UniqueIds(Filter(tasks, keep))
  {
    if tasks != [] {
      FilterUnique(tasks[1..], keep);
      var rest := Filter(tasks[1..], keep);
      forall t | t in rest
        ensures t.id != tasks[0].id
      {
        var i :| 0 <= i < |tasks[1..]| && tasks[1..][i] == t;
        assert tasks[i + 1] == t;
      }
    }
  }

  lemma PermutedUnique(s: seq<TaskPlan>, r: seq<TaskPlan>)
    requires multiset(s) == multiset(r) && UniqueIds(s)
    ensures UniqueIds(r)
  {
    PermutedNoRepeats(s, r);
    SameElements(s, r);
    forall i, j | 0 <= i < j < |r|
      ensures r[i].id != r[j].id
    {
      assert r[i] in s && r[j] in s;
    }
  }

  /** Tasks not yet completed whose dependencies all are, best first. */
  function Ready(tasks: seq<TaskPlan>, completed: set<Id>, collate: (Id, Id) -> int): (r: seq<TaskPlan>)
    ensures forall t :: t in r <==> t in tasks && IsReady(t, completed)
  {
    var waiting := Filter(tasks, (t: TaskPlan) => IsReady(t, completed));
    var r := SortBy(waiting, ByPriority(collate));
    SameElements(r, waiting);
    r
  }

  lemma ReadyUnique(tasks: seq<TaskPlan>, completed: set<Id>, collate: (Id, Id) -> int)
    requires UniqueIds(tasks)
    ensures UniqueIds(Ready(tasks, completed, collate))
  {
    var waiting := Filter(tasks, (t: TaskPlan) => IsReady(t, completed));
    FilterUnique(tasks, (t: TaskPlan) => IsReady(t, completed));
    PermutedUnique(waiting, Ready(tasks, completed, collate));
  }

  lemma {:induction false} FilterSorted(tasks: seq<TaskPlan>, keep: TaskPlan -> bool, leq: (TaskPlan, TaskPlan) -> bool)
    requires Sorted(tasks, leq)
    ensures Sorted(Filter(tasks, keep), leq)
  {
    if tasks != [] {
      FilterSorted(tasks[1..], keep, leq);
      var rest := Filter(tasks[1..], keep);
      forall t | t in rest
        ensures leq(tasks[0], t)
      {
        var i :| 0 <= i < |tasks[1..]| && tasks[1..][i] == t;
        assert tasks[i + 1] == t;
      }
    }
  }

  /** They come by falling priority, and by the collation of their ids where that is the same. */
  lemma ReadyIsSorted(tasks: seq<TaskPlan>, completed: set<Id>, collate: (Id, Id) -> int)
    requires Collates(collate)
    ensures Sorted(Ready(tasks, completed, collate), ByPriority(collate))
    ensures var r := Ready(tasks, completed, collate);
      forall i, j :: 0 <= i < j < |r| ==>
        r[i].priority > r[j].priority || (r[i].priority == r[j].priority && collate(r[i].id, r[j].id) <= 0)
  {
    PriorityIsTotal(collate);
    SortBySorted(Filter(tasks, (t: TaskPlan) => IsReady(t, completed)), ByPriority(collate));
  }

  method CheckTask(t: TaskPlan, ids: set<Id>) returns (ok: bool)
    ensures ok <==> DependsOnOthers(t, ids)
  {
    for k := 0 to |t.dependencies|
      invariant forall j :: 0 <= j < k ==> t.dependencies[j] in ids && t.dependencies[j] != t.id
    {
      if t.dependencies[k] !in ids || t.dependencies[k] == t.id {
        assert t.dependencies[k] in t.dependencies;
        return false;
      }
    }
    return true;
  }

  method CheckDependencies(tasks: seq<TaskPlan>, ids: set<Id>) returns (ok: bool)
    requires ids == Ids(tasks)
    ensures ok <==> KnownDependencies(tasks)
  {
    for i := 0 to |tasks|
      invariant forall j :: 0 <= j < i ==> DependsOnOthers(tasks[j], ids)
    {
      var fine := CheckTask(tasks[i], ids);
      if !fine {
        assert tasks[i] in tasks;
        return false;
      }
    }
    return true;
  }

  /** The plan contract on tasks: accepts exactly the valid task lists. */
  method ValidateTasks(tasks: seq<TaskPlan>) returns (ok: bool)
    ensures ok <==> ValidTasks(tasks)
  {
    hide ValidTask;
    if !(1 <= |tasks| <= MAXIMUM_TASKS) {
      return false;
    }
    var ids: set<Id> := {};
    var i := 0;
    while i < |tasks|
      invariant 0 <= i <= |tasks|
      invariant ids == Ids(tasks[..i])
      invariant UniqueIds(tasks[..i])
      invariant forall t :: t in tasks[..i] ==> ValidTask(t)
    {
      assert tasks[..i + 1] == tasks[..i] + [tasks[i]];
      if !ValidTask(tasks[i]) {
        assert tasks[i] in tasks;
        return false;
      }
      if tasks[i].id in ids {
        var j :| 0 <= j < i && tasks[..i][j].id == tasks[i].id;
        assert tasks[j].id == tasks[i].id;
        return false;
      }
      ids := ids + {tasks[i].id};
      i := i + 1;
    }
    assert tasks[..i] == tasks;
    var known := CheckDependencies(tasks, ids);
    if !known {
      return false;
    }
    var entries := seq(|tasks|, k requires 0 <= k < |tasks| => tasks[k].id);
    forall a | a in GraphOf(tasks)
      ensures a in entries
    {
      var k :| 0 <= k < |tasks| && tasks[k].id == a;
      assert entries[k] == a;
    }
    var acyclic := AssertAcyclic(GraphOf(tasks), entries);
    if !acyclic {
      return false;
    }
    ok := AssertIndependentScopesDoNotOverlap(tasks);
  }

}
