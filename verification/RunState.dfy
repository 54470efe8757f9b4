/** The scheduler's sets between batches, and what they say together with the journal. */
module RunState {
  import opened Wrappers
  import opened DependencyGraph
  import opened Scopes
  import opened CampaignPlan
  import opened CampaignEvents
  import opened EventWriter
  import opened TaskExecution
  import opened Scheduling
  import opened Sorting

  /** `executed` says, for each task that was executed, whether its own execution returned a commit. */
  datatype Sched = Sched(pending: set<Id>, completed: set<Id>, failed: set<Id>, executed: map<Id, bool>)

  ghost predicate OwnFailure(s: Sched, f: Id) {
    f in s.executed && !s.executed[f]
  }

  ghost predicate Caused(g: Graph, s: Sched, f: Id) {
    OwnFailure(s, f) || exists d :: Edge(g, f, d) && d in s.failed
  }

  /** Every task is pending, completed or failed, and only one of them; the executed ones are completed or failed. */
  ghost predicate Partitioned(ids: set<Id>, s: Sched) {
    && s.pending + s.completed + s.failed == ids
    && s.pending !! s.completed !! s.failed
    && s.completed <= s.executed.Keys <= s.completed + s.failed
    && (forall id :: id in s.executed ==> (s.executed[id] <==> id in s.completed))
  }

  /** A completed task has only completed dependencies; a failed one failed itself or has a failed dependency. */
  ghost predicate Explained(g: Graph, s: Sched) {
    && Closed(g, s.completed)
    && (forall f :: f in s.failed ==> Caused(g, s, f))
  }

  ghost predicate SchedOk(tasks: seq<TaskPlan>, s: Sched) {
    Partitioned(Ids(tasks), s) && Explained(GraphOf(tasks), s)
  }

  function Start(tasks: seq<TaskPlan>): Sched {
    Sched(Ids(tasks), {}, {}, map[])
  }

  function Block(s: Sched, id: Id): Sched {
    s.(pending := s.pending - {id}, failed := s.failed + {id})
  }

  function Settle(s: Sched, id: Id, committed: bool): Sched {
    Sched(s.pending - {id},
          if committed then s.completed + {id} else s.completed,
          if committed then s.failed else s.failed + {id},
          s.executed[id := committed])
  }

  /** The ids that one pass in plan order gives up: each depends on a task that failed before the pass, or that the pass
      has given up already. */
  function GivenUp(tasks: seq<TaskPlan>, s: Sched): seq<Id> {
    if tasks == [] then []
    else
      var before, t := GivenUp(tasks[..|tasks| - 1], s), tasks[|tasks| - 1];
      if t.id in s.pending && t.id !in before && exists d :: d in t.dependencies && (d in s.failed || d in before)
      then before + [t.id] else before
  }

  lemma NothingGivenUp(s: Sched)
    ensures GivenUp([], s) == []
  {
  }

  lemma NextGivenUp(tasks: seq<TaskPlan>, i: nat, s: Sched)
    requires i < |tasks|
    ensures var before, t := GivenUp(tasks[..i], s), tasks[i];
      GivenUp(tasks[..i + 1], s) ==
        if t.id in s.pending && t.id !in before && exists d :: d in t.dependencies && (d in s.failed || d in before)
        then before + [t.id] else before
  {
    assert tasks[..i + 1][..i] == tasks[..i];
  }

  /** The pass leaves no pending task that depends on a failure from before it. */
  lemma {:induction false} GivenUpCovers(tasks: seq<TaskPlan>, s: Sched)
    ensures forall t, d :: t in tasks && t.id in s.pending && d in t.dependencies && d in s.failed ==>
      t.id in GivenUp(tasks, s)
  {
    if tasks != [] {
      GivenUpCovers(tasks[..|tasks| - 1], s);
      assert tasks == tasks[..|tasks| - 1] + [tasks[|tasks| - 1]];
    }
  }

  /** The ids of the given tasks that are pending, in plan order. */
  function PendingIds(tasks: seq<TaskPlan>, pending: set<Id>): seq<Id> {
    if tasks == [] then []
    else
      var before, t := PendingIds(tasks[..|tasks| - 1], pending), tasks[|tasks| - 1];
      if t.id in pending then before + [t.id] else before
  }

  lemma NothingPending(pending: set<Id>)
    ensures PendingIds([], pending) == []
  {
  }

  lemma NextPending(tasks: seq<TaskPlan>, i: nat, pending: set<Id>)
    requires i < |tasks|
    ensures var before, after := PendingIds(tasks[..i], pending), PendingIds(tasks[..i + 1], pending);
      after == if tasks[i].id in pending then before + [tasks[i].id] else before
  {
    assert tasks[..i + 1][..i] == tasks[..i];
  }

  /** The journal with these tasks reported as blocked, one after the other. */
  function WithBlocked(campaignId: Id, events: seq<CampaignEvent>, ids: seq<Id>): seq<CampaignEvent> {
    if ids == [] then events
    else
      var before := WithBlocked(campaignId, events, ids[..|ids| - 1]);
      before + [EventFor(campaignId, Request(TaskBlocked, Some(ids[|ids| - 1])), |before| + 1)]
  }

  lemma OneMoreBlocked(campaignId: Id, events: seq<CampaignEvent>, ids: seq<Id>, id: Id)
    ensures var before := WithBlocked(campaignId, events, ids);
      WithBlocked(campaignId, events, ids + [id]) ==
        before + [EventFor(campaignId, Request(TaskBlocked, Some(id)), |before| + 1)]
  {
    hide EventFor;
    var longer := ids + [id];
    assert longer[..|longer| - 1] == ids && longer[|longer| - 1] == id;
  }

  lemma BlockPartitioned(ids: set<Id>, s: Sched, id: Id)
    requires Partitioned(ids, s) && id in s.pending
    ensures Partitioned(ids, Block(s, id))
  {
    assert (s.pending - {id}) + s.completed + (s.failed + {id}) == s.pending + s.completed + s.failed;
  }

  lemma BlockExplained(g: Graph, s: Sched, id: Id, d: Id)
    requires Explained(g, s) && Edge(g, id, d) && d in s.failed
    ensures Explained(g, Block(s, id))
  {
    var after := Block(s, id);
    forall f | f in after.failed
      ensures Caused(g, after, f)
    {
      if f != id {
        assert Caused(g, s, f);
      }
    }
  }

  lemma BlockOk(tasks: seq<TaskPlan>, s: Sched, t: TaskPlan, d: Id)
    requires SchedOk(tasks, s) && UniqueIds(tasks)
    requires t in tasks && t.id in s.pending && d in t.dependencies && d in s.failed
    ensures SchedOk(tasks, Block(s, t.id))
  {
    EdgeOfTask(tasks, t, d);
    BlockPartitioned(Ids(tasks), s, t.id);
    BlockExplained(GraphOf(tasks), s, t.id, d);
  }

  lemma SettlePartitioned(ids: set<Id>, s: Sched, id: Id, committed: bool)
    requires Partitioned(ids, s) && id in s.pending
    ensures Partitioned(ids, Settle(s, id, committed))
  {
    var after := Settle(s, id, committed);
    assert after.pending + after.completed + after.failed == s.pending + s.completed + s.failed;
  }

  lemma SettleExplained(g: Graph, s: Sched, id: Id, committed: bool)
    requires Explained(g, s) && id !in s.executed && id !in s.failed
    requires forall d :: Edge(g, id, d) ==> d in s.completed
    ensures Explained(g, Settle(s, id, committed))
  {
    var after := Settle(s, id, committed);
    forall f | f in after.failed
      ensures Caused(g, after, f)
    {
      if f != id {
        assert Caused(g, s, f);
      }
    }
  }

  lemma SettleOk(tasks: seq<TaskPlan>, s: Sched, t: TaskPlan, committed: bool)
    requires SchedOk(tasks, s) && UniqueIds(tasks)
    requires t in tasks && t.id in s.pending && forall d :: d in t.dependencies ==> d in s.completed
    ensures SchedOk(tasks, Settle(s, t.id, committed))
  {
    forall d | Edge(GraphOf(tasks), t.id, d)
      ensures d in s.completed
    {
      EdgeOfTask(tasks, t, d);
    }
    SettlePartitioned(Ids(tasks), s, t.id, committed);
    SettleExplained(GraphOf(tasks), s, t.id, committed);
  }

  /** `succeeds` fixes the outcome of every execution that took place. */
  ghost predicate Explains(s: Sched, succeeds: set<Id>) {
    forall id :: id in s.executed ==> (s.executed[id] <==> id in succeeds)
  }

  ghost function Successful(tasks: seq<TaskPlan>, succeeds: set<Id>): set<Id> {
    set id | id in Ids(tasks) && SucceedsWithAll(GraphOf(tasks), succeeds, id)
  }

  /** When nothing is pending, the completed tasks are exactly those that succeed with everything they depend on:
      neither the batches nor the order inside them matter. */
  lemma CompletedIsExact(tasks: seq<TaskPlan>, s: Sched, succeeds: set<Id>)
    requires SchedOk(tasks, s) && s.pending == {} && Acyclic(GraphOf(tasks)) && Explains(s, succeeds)
    ensures s.completed == Successful(tasks, succeeds)
  {
    var g := GraphOf(tasks);
    forall id | id in Ids(tasks)
      ensures id in s.completed <==> SucceedsWithAll(g, succeeds, id)
    {
      if id in s.completed {
        forall d | Reaches(g, id, d)
          ensures d in succeeds
        {
          ClosedHoldsReachable(g, s.completed, id, d);
        }
      } else {
        var own := set f | f in s.failed && OwnFailure(s, f);
        forall f | f in s.failed
          ensures f in own || exists d :: Edge(g, f, d) && d in s.failed
        {
          assert Caused(g, s, f);
        }
        FailureHasCause(g, s.failed, own, id);
      }
    }
  }

  /** A scheduler with nothing ready but work pending has seen a failure. */
  lemma StuckImpliesFailure(tasks: seq<TaskPlan>, s: Sched)
    requires SchedOk(tasks, s) && ValidTasks(tasks)
    requires s.pending != {}
    requires forall t :: t in tasks && t.id in s.pending ==> !IsReady(t, s.completed)
    ensures s.failed != {}
  {
    var sink := SinkExists(GraphOf(tasks), s.pending);
    var t :| t in tasks && t.id == sink;
    var d :| d in t.dependencies && d !in s.completed;
    EdgeOfTask(tasks, t, d);
    assert d in s.failed;
  }

  /** The pending tasks of a stuck scheduler may all be given up: each depends on another or on a failure. */
  lemma GiveUpOk(tasks: seq<TaskPlan>, s: Sched)
    requires SchedOk(tasks, s) && ValidTasks(tasks)
    requires forall t :: t in tasks && t.id in s.pending ==> !IsReady(t, s.completed)
    ensures SchedOk(tasks, s.(pending := {}, failed := s.failed + s.pending))
  {
    var g, after := GraphOf(tasks), s.(pending := {}, failed := s.failed + s.pending);
    forall f | f in after.failed
      ensures Caused(g, after, f)
    {
      if f in s.failed {
        assert Caused(g, s, f);
      } else {
        var t :| t in tasks && t.id == f;
        var d :| d in t.dependencies && d !in s.completed;
        EdgeOfTask(tasks, t, d);
      }
    }
  }

  // Tasks that run side by side.

  ghost predicate InScopes(path: string, t: TaskPlan) {
    exists scope :: scope in t.writeScopes && ContainsScope(scope, path)
  }

  /** No path lies in the write scopes of two tasks of the batch. */
  ghost predicate NoSharedPath(batch: seq<TaskPlan>) {
    forall i, j, path :: 0 <= i < j < |batch| && SafePath(path) ==>
      !(InScopes(path, batch[i]) && InScopes(path, batch[j]))
  }

  lemma ReadyReachesCompleted(tasks: seq<TaskPlan>, s: Sched, t: TaskPlan, d: Id)
    requires SchedOk(tasks, s) && UniqueIds(tasks)
    requires t in tasks && IsReady(t, s.completed) && Reaches(GraphOf(tasks), t.id, d)
    ensures d in s.completed
  {
    var c := FirstStep(GraphOf(tasks), t.id, d);
    EdgeOfTask(tasks, t, c);
    if c != d {
      ClosedHoldsReachable(GraphOf(tasks), s.completed, c, d);
    }
  }

  /** Two ready tasks do not depend on each other. */
  lemma ReadyNotOrdered(tasks: seq<TaskPlan>, s: Sched, a: TaskPlan, b: TaskPlan)
    requires SchedOk(tasks, s) && UniqueIds(tasks)
    requires a in tasks && b in tasks && IsReady(a, s.completed) && IsReady(b, s.completed)
    ensures !Ordered(GraphOf(tasks), a.id, b.id)
  {
    if Reaches(GraphOf(tasks), a.id, b.id) {
      ReadyReachesCompleted(tasks, s, a, b.id);
    }
    if Reaches(GraphOf(tasks), b.id, a.id) {
      ReadyReachesCompleted(tasks, s, b, a.id);
    }
  }

  lemma OverlappingAreOrdered(tasks: seq<TaskPlan>, a: TaskPlan, b: TaskPlan)
    requires IndependentScopesDisjoint(tasks) && a in tasks && b in tasks && a != b
    requires OverlappingTasks(a, b) && OverlappingTasks(b, a)
    ensures Ordered(GraphOf(tasks), a.id, b.id)
  {
    var i :| 0 <= i < |tasks| && tasks[i] == a;
    var j :| 0 <= j < |tasks| && tasks[j] == b;
    if i < j {
      assert Ordered(GraphOf(tasks), tasks[i].id, tasks[j].id);
    } else {
      assert Ordered(GraphOf(tasks), tasks[j].id, tasks[i].id);
    }
  }

  lemma SharedPathOverlaps(a: TaskPlan, b: TaskPlan, path: string)
    requires ValidTask(a) && ValidTask(b) && SafePath(path)
    requires InScopes(path, a) && InScopes(path, b)
    ensures OverlappingTasks(a, b) && OverlappingTasks(b, a)
  {
    var x :| x in a.writeScopes && ContainsScope(x, path);
    var y :| y in b.writeScopes && ContainsScope(y, path);
    OverlapIsSharedPath(x, y);
    assert ScopesOverlap(x, y) && ScopesOverlap(y, x);
  }

  lemma ReadyPairDisjoint(tasks: seq<TaskPlan>, s: Sched, a: TaskPlan, b: TaskPlan, path: string)
    requires SchedOk(tasks, s) && ValidTasks(tasks)
    requires a in tasks && b in tasks && a.id != b.id
    requires IsReady(a, s.completed) && IsReady(b, s.completed)
    requires SafePath(path)
    ensures !(InScopes(path, a) && InScopes(path, b))
  {
    ReadyNotOrdered(tasks, s, a, b);
    if InScopes(path, a) && InScopes(path, b) {
      SharedPathOverlaps(a, b, path);
      OverlappingAreOrdered(tasks, a, b);
    }
  }

  lemma ReadyBatchDisjoint(tasks: seq<TaskPlan>, s: Sched, batch: seq<TaskPlan>)
    requires SchedOk(tasks, s) && ValidTasks(tasks) && BatchOf(tasks, s, batch)
    ensures NoSharedPath(batch)
  {
    forall i, j, path | 0 <= i < j < |batch| && SafePath(path)
      ensures !(InScopes(path, batch[i]) && InScopes(path, batch[j]))
    {
      assert batch[i] in batch && batch[j] in batch;
      ReadyPairDisjoint(tasks, s, batch[i], batch[j], path);
    }
  }

  // Scheduler and journal.

  ghost predicate TasksMatch(s: Sched, tasks: map<Id, TaskStatus>) {
    && tasks.Keys == s.completed + s.failed
    && (forall id :: id in s.completed ==> tasks[id].Succeeded?)
    && (forall id :: id in s.failed ==> FailureStatus(tasks[id]))
  }

  /** The journal's task map is the scheduler's sets, as long as every append was stored. */
  ghost predicate JournalOk(tasks: seq<TaskPlan>, s: Sched, j: Journal) {
    && Disciplined(GraphOf(tasks), j.events)
    && s.completed <= SucceededIn(j.events)
    && s.pending !! StartedIn(j.events)
    && StartedIn(j.events) <= s.completed + s.failed
    && SucceededIn(j.events) <= StartedIn(j.events)
    && (!j.broken ==> TasksMatch(s, Tasks(j.events)))
  }

  /** Tasks of the plan start once at most and after everything they depend on, and only what started succeeds. */
  ghost predicate Orderly(tasks: seq<TaskPlan>, events: seq<CampaignEvent>) {
    && Disciplined(GraphOf(tasks), events)
    && StartedIn(events) <= Ids(tasks)
    && SucceededIn(events) <= StartedIn(events)
  }

  lemma JournalIsOrderly(tasks: seq<TaskPlan>, s: Sched, j: Journal)
    requires JournalOk(tasks, s, j) && s.completed + s.failed <= Ids(tasks)
    ensures Orderly(tasks, j.events)
  {
  }

  lemma PendingIsOpen(tasks: seq<TaskPlan>, s: Sched)
    requires SchedOk(tasks, s)
    ensures forall id :: id in s.pending ==> id !in s.completed && exists t :: t in tasks && t.id == id
  {
    forall id | id in s.pending
      ensures exists t :: t in tasks && t.id == id
    {
      assert id in Ids(tasks);
    }
  }

  /** A task given up by the scheduler itself. */
  lemma BlockJournal(tasks: seq<TaskPlan>, s: Sched, j: Journal, campaignId: Id, id: Id, accepts: bool)
    requires JournalOk(tasks, s, j) && id !in s.completed
    ensures JournalOk(tasks, Block(s, id), Emitted(campaignId, j, Request(TaskBlocked, Some(id)), accepts))
  {
    hide Disciplined, StartedIn, SucceededIn, GraphOf, TasksMatch, Tasks;
    var after := Emitted(campaignId, j, Request(TaskBlocked, Some(id)), accepts);
    JournalDiscipline(campaignId, GraphOf(tasks), j, id, Some(TaskBlocked), accepts);
    if !after.broken {
      TasksOfExtended(j.events, EventFor(campaignId, Request(TaskBlocked, Some(id)), |j.events| + 1));
      BlockMatches(s, Tasks(j.events), id);
    }
  }

  lemma BlockMatches(s: Sched, tasks: map<Id, TaskStatus>, id: Id)
    requires TasksMatch(s, tasks) && id !in s.completed
    ensures TasksMatch(Block(s, id), tasks[id := BlockedTask])
  {
  }

  /** An event of the campaign itself changes no task. */
  lemma CampaignEventJournal(tasks: seq<TaskPlan>, s: Sched, j: Journal, campaignId: Id, kind: EventKind, accepts: bool)
    requires JournalOk(tasks, s, j) && !IsTaskEvent(kind)
    ensures JournalOk(tasks, s, Emitted(campaignId, j, Request(kind, None), accepts))
  {
    hide GraphOf;
    if !j.broken && accepts {
      var e := EventFor(campaignId, Request(kind, None), |j.events| + 1);
      ExtendDiscipline(GraphOf(tasks), j.events, e);
      ExtendSets(j.events, e);
      TasksOfExtended(j.events, e);
    }
  }

  ghost predicate BatchOf(tasks: seq<TaskPlan>, s: Sched, batch: seq<TaskPlan>) {
    && UniqueIds(batch)
    && forall t :: t in batch ==> t in tasks && IsReady(t, s.completed) && t.id in s.pending
  }

  function FreshStages(batch: seq<TaskPlan>): map<Id, Stage> {
    map id | id in Ids(batch) :: Waiting
  }

  lemma BatchStarts(tasks: seq<TaskPlan>, s: Sched, batch: seq<TaskPlan>, w: World)
    requires SchedOk(tasks, s) && UniqueIds(tasks) && JournalOk(tasks, s, w.journal) && BatchOf(tasks, s, batch)
    requires w.stages == FreshStages(batch)
    ensures Agrees(w, Tasks(w.journal.events))
    ensures BatchDiscipline(GraphOf(tasks), w, StartedIn(w.journal.events), SucceededIn(w.journal.events))
  {
    hide GraphOf, Reaches, StartedIn, SucceededIn, Disciplined, Explained, TasksMatch, IsReady, Agrees;
    BatchAgrees(s, batch, w);
    assert forall id :: id in w.stages ==> id in s.pending;
    forall id | id in w.stages
      ensures MayStart(GraphOf(tasks), w.journal.events, id)
    {
      var t :| t in batch && t.id == id;
      forall d | Reaches(GraphOf(tasks), id, d)
        ensures d in SucceededIn(w.journal.events)
      {
        ReadyReachesCompleted(tasks, s, t, d);
      }
    }
  }

  lemma BatchAgrees(s: Sched, batch: seq<TaskPlan>, w: World)
    requires w.stages == FreshStages(batch) && s.pending !! s.completed + s.failed
    requires (forall t :: t in batch ==> t.id in s.pending)
    requires (!w.journal.broken ==> TasksMatch(s, Tasks(w.journal.events)))
    ensures Agrees(w, Tasks(w.journal.events))
  {
  }

  predicate Committed(w: World, id: Id) {
    id in w.stages && w.stages[id].Done? && w.stages[id].commit.Some?
  }

  /** The sets after a batch whose tasks are all done. */
  ghost predicate SettledFrom(s: Sched, w: World, after: Sched) {
    && after.pending == s.pending - w.stages.Keys
    && after.completed == s.completed + (set id | id in w.stages && Committed(w, id))
    && after.failed == s.failed + (set id | id in w.stages && !Committed(w, id))
  }

  /** The results of a batch, taken in one after the other. */
  ghost function SettleAll(s: Sched, w: World, batch: seq<TaskPlan>): Sched {
    if batch == [] then s
    else
      var last := batch[|batch| - 1];
      Settle(SettleAll(s, w, batch[..|batch| - 1]), last.id, Committed(w, last.id))
  }

  lemma IdsOfExtended(batch: seq<TaskPlan>)
    requires batch != []
    ensures Ids(batch) == Ids(batch[..|batch| - 1]) + {batch[|batch| - 1].id}
  {
    assert batch == batch[..|batch| - 1] + [batch[|batch| - 1]];
  }

  lemma {:induction false} SettleAllSets(s: Sched, w: World, batch: seq<TaskPlan>)
    ensures var after := SettleAll(s, w, batch);
      && after.pending == s.pending - Ids(batch)
      && after.completed == s.completed + (set id | id in Ids(batch) && Committed(w, id))
      && after.failed == s.failed + (set id | id in Ids(batch) && !Committed(w, id))
  {
    if batch != [] {
      SettleAllSets(s, w, batch[..|batch| - 1]);
      IdsOfExtended(batch);
    }
  }

  lemma BatchSettled(s: Sched, w: World, batch: seq<TaskPlan>)
    requires w.stages.Keys == Ids(batch)
    ensures SettledFrom(s, w, SettleAll(s, w, batch))
  {
    SettleAllSets(s, w, batch);
    assert (set id | id in w.stages && Committed(w, id)) == (set id | id in Ids(batch) && Committed(w, id));
    assert (set id | id in w.stages && !Committed(w, id)) == (set id | id in Ids(batch) && !Committed(w, id));
  }

  lemma {:induction false} SettleAllOk(tasks: seq<TaskPlan>, s: Sched, w: World, batch: seq<TaskPlan>)
    requires SchedOk(tasks, s) && UniqueIds(tasks) && BatchOf(tasks, s, batch)
    ensures SchedOk(tasks, SettleAll(s, w, batch))
  {
    hide SchedOk, GraphOf;
    if batch != [] {
      var rest, last := batch[..|batch| - 1], batch[|batch| - 1];
      assert forall t :: t in rest ==> t in batch;
      SettleAllOk(tasks, s, w, rest);
      SettleAllSets(s, w, rest);
      assert last in batch;
      SettleOk(tasks, SettleAll(s, w, rest), last, Committed(w, last.id));
    }
  }

  lemma BatchEnds(tasks: seq<TaskPlan>, s: Sched, before: Journal, w: World, after: Sched)
    requires SchedOk(tasks, s) && JournalOk(tasks, s, before) && w.stages.Keys <= s.pending
    requires !w.journal.broken ==> !before.broken
    requires Agrees(w, Tasks(before.events))
    requires BatchDiscipline(GraphOf(tasks), w, StartedIn(before.events), SucceededIn(before.events))
    requires forall id :: id in w.stages ==> w.stages[id].Done?
    requires SettledFrom(s, w, after)
    ensures JournalOk(tasks, after, w.journal)
  {
    hide Disciplined, StartedIn, SucceededIn, MayStart, Explained, Agrees;
    if !w.journal.broken {
      BatchMatches(s, Tasks(before.events), w, after);
    }
  }

  /** The task map after a batch is the one before it, with the batch's own tasks where their stages say. */
  lemma BatchMatches(s: Sched, before: map<Id, TaskStatus>, w: World, after: Sched)
    requires TasksMatch(s, before) && !w.journal.broken && Agrees(w, before)
    requires forall id :: id in w.stages ==> w.stages[id].Done?
    requires SettledFrom(s, w, after) && w.stages.Keys !! s.completed + s.failed
    ensures TasksMatch(after, Tasks(w.journal.events))
  {
    hide FailureStatus, Tasks;
    var m := Tasks(w.journal.events);
    forall id
      ensures id in m <==> id in after.completed + after.failed
      ensures id in after.completed ==> id in m && m[id].Succeeded?
      ensures id in after.failed ==> id in m && FailureStatus(m[id])
    {
      if id in w.stages {
        assert StageAgrees(w.stages[id], m, id);
      } else {
        assert SameTask(m, before, id);
      }
    }
  }

  // Batches and dependency depth, when the parallel limit never binds.

  ghost predicate InLayer(g: Graph, batch: seq<TaskPlan>, k: nat) {
    forall t :: t in batch ==> t.id in Layer(g, k + 1) && t.id !in Layer(g, k)
  }

  /** Each batch ran one layer; nothing of the layers so far is pending, and nothing beyond them is completed. */
  ghost predicate LayersOk(tasks: seq<TaskPlan>, s: Sched, batches: seq<seq<TaskPlan>>) {
    && s.completed <= Layer(GraphOf(tasks), |batches|)
    && s.pending !! Layer(GraphOf(tasks), |batches|)
    && forall k :: 0 <= k < |batches| ==> InLayer(GraphOf(tasks), batches[k], k)
  }

  /** After the failure pass, a pending task of the next layer has only completed dependencies. */
  lemma NextLayerIsReady(tasks: seq<TaskPlan>, head: Sched, s: Sched, batches: seq<seq<TaskPlan>>, t: TaskPlan)
    requires UniqueIds(tasks) && KnownDependencies(tasks) && SchedOk(tasks, head) && LayersOk(tasks, head, batches)
    requires s.completed == head.completed
    requires t in tasks && t.id in s.pending && t.id in Layer(GraphOf(tasks), |batches| + 1)
    requires forall d :: d in t.dependencies ==> d !in head.failed
    requires s.pending <= head.pending
    ensures IsReady(t, s.completed)
  {
    var i :| 0 <= i < |tasks| && tasks[i] == t;
    GraphOfTask(tasks, i);
    forall d | d in t.dependencies
      ensures d in s.completed
    {
      assert d in Layer(GraphOf(tasks), |batches|);
      assert d in Ids(tasks);
    }
  }

  lemma ReadyInNextLayer(tasks: seq<TaskPlan>, s: Sched, batches: seq<seq<TaskPlan>>, t: TaskPlan)
    requires UniqueIds(tasks) && LayersOk(tasks, s, batches)
    requires t in tasks && t.id in s.pending && IsReady(t, s.completed)
    ensures t.id in Layer(GraphOf(tasks), |batches| + 1) && t.id !in Layer(GraphOf(tasks), |batches|)
  {
    var i :| 0 <= i < |tasks| && tasks[i] == t;
    GraphOfTask(tasks, i);
  }

  /** One more batch that holds every ready task settles one more layer... */
  lemma BatchSettlesLayer(tasks: seq<TaskPlan>, head: Sched, s: Sched, batch: seq<TaskPlan>,
        batches: seq<seq<TaskPlan>>, id: Id)
    requires UniqueIds(tasks) && KnownDependencies(tasks) && SchedOk(tasks, head) && LayersOk(tasks, head, batches)
    requires s.completed == head.completed && s.pending <= head.pending
    requires forall t, d :: t in tasks && t.id in s.pending && d in t.dependencies ==> d !in head.failed
    requires forall t :: t in tasks && t.id in s.pending && IsReady(t, s.completed) ==> t in batch
    requires id in s.pending - Ids(batch) && id in Ids(tasks)
    ensures id !in Layer(GraphOf(tasks), |batches| + 1)
  {
    var t :| t in tasks && t.id == id;
    if id in Layer(GraphOf(tasks), |batches| + 1) {
      NextLayerIsReady(tasks, head, s, batches, t);
    }
  }

  /** ...and holds tasks of that layer only. */
  lemma LayersAfterBatch(tasks: seq<TaskPlan>, s: Sched, batch: seq<TaskPlan>, after: Sched,
        batches: seq<seq<TaskPlan>>)
    requires UniqueIds(tasks) && LayersOk(tasks, s, batches) && BatchOf(tasks, s, batch)
    requires after.pending == s.pending - Ids(batch)
    requires s.completed <= after.completed <= s.completed + Ids(batch)
    requires forall id :: id in after.pending ==> id !in Layer(GraphOf(tasks), |batches| + 1)
    ensures LayersOk(tasks, after, batches + [batch])
  {
    var g, n := GraphOf(tasks), |batches|;
    LayersGrow(g, n);
    assert InLayer(g, batch, n) by {
      forall t | t in batch
        ensures t.id in Layer(g, n + 1) && t.id !in Layer(g, n)
      {
        ReadyInNextLayer(tasks, s, batches, t);
      }
    }
    assert Ids(batch) <= Layer(g, n + 1);
    assert after.pending !! Layer(g, n + 1);
  }

  /** So the batch that ran a task is numbered by the longest chain of dependencies that starts at it. */
  lemma BatchIsDepth(tasks: seq<TaskPlan>, s: Sched, batches: seq<seq<TaskPlan>>, k: nat, t: TaskPlan)
    requires UniqueIds(tasks) && KnownDependencies(tasks) && LayersOk(tasks, s, batches)
    requires k < |batches| && t in batches[k]
    ensures DepthIs(GraphOf(tasks), t.id, k + 1)
  {
    assert InLayer(GraphOf(tasks), batches[k], k);
    EdgesStayInside(tasks);
    LayerIsDepth(GraphOf(tasks), t.id, k + 1);
  }

  lemma EdgesStayInside(tasks: seq<TaskPlan>)
    requires UniqueIds(tasks) && KnownDependencies(tasks)
    ensures forall a, b :: Edge(GraphOf(tasks), a, b) ==> b in GraphOf(tasks)
  {
    forall a, b | Edge(GraphOf(tasks), a, b)
      ensures b in GraphOf(tasks)
    {
      var t :| t in tasks && t.id == a;
      EdgeOfTask(tasks, t, b);
    }
  }

  lemma GraphKeys(tasks: seq<TaskPlan>)
    ensures GraphOf(tasks).Keys == Ids(tasks)
  {
  }

  /** There are no more batches than tasks in the longest chain, and exactly as many when every task completed. */
  lemma BatchCountIsLongestChain(tasks: seq<TaskPlan>, s: Sched, batches: seq<seq<TaskPlan>>, n: nat)
    requires UniqueIds(tasks) && KnownDependencies(tasks) && LayersOk(tasks, s, batches)
    requires forall k :: 0 <= k < |batches| ==> batches[k] != []
    requires LongestChainIs(GraphOf(tasks), n)
    ensures |batches| <= n
    ensures s.completed == Ids(tasks) ==> |batches| == n
  {
    hide GraphOf, Layer, InLayer, UniqueIds, KnownDependencies, IsChain;
    var g, m := GraphOf(tasks), |batches|;
    if m > 0 {
      var t := batches[m - 1][0];
      BatchIsDepth(tasks, s, batches, m - 1, t);
      var p :| ChainFrom(g, t.id, p) && |p| == m;
    }
    if s.completed == Ids(tasks) {
      GraphKeys(tasks);
      CoveringLayerBounds(g, m, n);
    }
  }

  /** The ready tasks that are still pending, best first, cut at the parallel limit. */
  function Candidates(tasks: seq<TaskPlan>, completed: set<Id>, pending: set<Id>, collate: (Id, Id) -> int)
      : (r: seq<TaskPlan>)
    ensures forall t :: t in r <==> t in tasks && IsReady(t, completed) && t.id in pending
    ensures |r| <= |tasks|
  {
    Filter(Ready(tasks, completed, collate), (t: TaskPlan) => t.id in pending)
  }

  function NextBatch(tasks: seq<TaskPlan>, completed: set<Id>, pending: set<Id>, collate: (Id, Id) -> int,
        parallel: nat): seq<TaskPlan> {
    var candidates := Candidates(tasks, completed, pending, collate);
    if |candidates| <= parallel then candidates else candidates[..parallel]
  }

  lemma NextBatchIsBatch(tasks: seq<TaskPlan>, s: Sched, collate: (Id, Id) -> int, parallel: nat)
    requires UniqueIds(tasks) && parallel > 0
    ensures var batch := NextBatch(tasks, s.completed, s.pending, collate, parallel);
      && BatchOf(tasks, s, batch) && UniqueIds(batch) && |batch| <= parallel
      && (|batch| < parallel ==> forall t :: t in tasks && t.id in s.pending && IsReady(t, s.completed) ==> t in batch)
      && (batch == [] ==> forall t :: t in tasks && t.id in s.pending ==> !IsReady(t, s.completed))
      && (parallel >= |tasks| ==> forall t :: t in tasks && t.id in s.pending && IsReady(t, s.completed) ==> t in batch)
  {
    ReadyUnique(tasks, s.completed, collate);
    FilterUnique(Ready(tasks, s.completed, collate), (t: TaskPlan) => t.id in s.pending);
    var candidates := Candidates(tasks, s.completed, s.pending, collate);
    var batch := NextBatch(tasks, s.completed, s.pending, collate, parallel);
    assert forall t :: t in batch ==> t in candidates;
    if batch == [] {
      assert candidates == [];
    }
  }

  lemma RunsBeforeMeans(t: TaskPlan, u: TaskPlan, collate: (Id, Id) -> int)
    ensures RunsBefore(t, u, collate) <==>
      t.priority > u.priority || (t.priority == u.priority && collate(t.id, u.id) <= 0)
  {
  }

  /** Where the limit binds, it is the tasks that come last that wait: nobody left out comes before anybody taken. */
  lemma BatchTakesTheFirst(tasks: seq<TaskPlan>, s: Sched, collate: (Id, Id) -> int, parallel: nat, t: TaskPlan,
        u: TaskPlan)
    requires Collates(collate)
    requires t in NextBatch(tasks, s.completed, s.pending, collate, parallel)
    requires u in tasks && IsReady(u, s.completed) && u.id in s.pending
    requires u !in NextBatch(tasks, s.completed, s.pending, collate, parallel)
    ensures t.priority > u.priority || (t.priority == u.priority && collate(t.id, u.id) <= 0)
  {
    RunsBeforeMeans(t, u, collate);
    hide Ready, Filter, Collates, RunsBefore, IsReady;
    CandidatesSorted(tasks, s, collate);
    var candidates := Candidates(tasks, s.completed, s.pending, collate);
    assert u in candidates;
    var batch := NextBatch(tasks, s.completed, s.pending, collate, parallel);
    var i :| 0 <= i < |batch| && batch[i] == t;
    var j :| 0 <= j < |candidates| && candidates[j] == u;
    assert forall k :: 0 <= k < |batch| ==> candidates[k] == batch[k] && batch[k] != u;
    assert ByPriority(collate)(candidates[i], candidates[j]);
  }

  lemma CandidatesSorted(tasks: seq<TaskPlan>, s: Sched, collate: (Id, Id) -> int)
    requires Collates(collate)
    ensures Sorted(Candidates(tasks, s.completed, s.pending, collate), ByPriority(collate))
  {
    hide Ready, Filter, Collates, RunsBefore, IsReady, Sorted;
    ReadyIsSorted(tasks, s.completed, collate);
    FilterSorted(Ready(tasks, s.completed, collate), (t: TaskPlan) => t.id in s.pending, ByPriority(collate));
  }

  lemma StartLayers(tasks: seq<TaskPlan>)
    ensures LayersOk(tasks, Start(tasks), [])
  {
  }

  /** A pass that only gives up pending tasks leaves the layers as they are. */
  lemma LayersAfterPass(tasks: seq<TaskPlan>, head: Sched, s: Sched, batches: seq<seq<TaskPlan>>)
    requires LayersOk(tasks, head, batches) && s.completed == head.completed && s.pending <= head.pending
    ensures LayersOk(tasks, s, batches)
  {
  }

  /** One full turn of the loop, seen from the layers: failure pass, then a batch of everything that is ready. */
  lemma LayersAfterTurn(tasks: seq<TaskPlan>, head: Sched, s: Sched, batch: seq<TaskPlan>, w: World, after: Sched,
        batches: seq<seq<TaskPlan>>)
    requires ValidTasks(tasks) && SchedOk(tasks, head) && LayersOk(tasks, head, batches)
    requires SchedOk(tasks, s) && s.completed == head.completed && s.pending <= head.pending
    requires forall t, d :: t in tasks && t.id in s.pending && d in t.dependencies ==> d !in head.failed
    requires BatchOf(tasks, s, batch) && w.stages.Keys == Ids(batch)
    requires forall t :: t in tasks && t.id in s.pending && IsReady(t, s.completed) ==> t in batch
    requires SettledFrom(s, w, after)
    ensures LayersOk(tasks, after, batches + [batch])
  {
    hide LayersOk, Layer, GraphOf, BatchOf;
    PendingIsOpen(tasks, s);
    forall id | id in after.pending
      ensures id !in Layer(GraphOf(tasks), |batches| + 1)
    {
      BatchSettlesLayer(tasks, head, s, batch, batches, id);
    }
    LayersAfterPass(tasks, head, s, batches);
    LayersAfterBatch(tasks, s, batch, after, batches);
  }

}
