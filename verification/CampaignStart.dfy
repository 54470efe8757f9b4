/** One `start` call from planning to application: the run, the integration with its one extra budget admission, and
    the gate before anything is applied. */
module CampaignStart {
  import opened Wrappers
  import opened DependencyGraph
  import opened CampaignPlan
  import opened CampaignEvents
  import opened EventWriter
  import opened CampaignBudget
  import opened TaskExecution
  import opened BatchBudget
  import opened Scheduling
  import opened RunState
  import opened BatchTrace
  import opened RunHistory
  import opened CampaignRun
  import opened RiskAssessment
  import opened Sorting

  const INTEGRATION: Id := "integration"

  // Readable consequences for the run.

  /** Two runs that ended, with the same outcomes, completed and failed the same tasks, whatever limit on parallel
      tasks each ran under. */
  lemma SameForEveryLimit(tasks: seq<TaskPlan>, one: Sched, other: Sched, succeeds: set<Id>)
    requires Acyclic(GraphOf(tasks))
    requires SchedOk(tasks, one) && one.pending == {} && Explains(one, succeeds)
    requires SchedOk(tasks, other) && other.pending == {} && Explains(other, succeeds)
    ensures one.completed == other.completed && one.failed == other.failed
  {
    hide SchedOk, Explains, Acyclic, GraphOf, Successful;
    CompletedIsExact(tasks, one, succeeds);
    CompletedIsExact(tasks, other, succeeds);
    FailedIsTheRest(tasks, one);
    FailedIsTheRest(tasks, other);
  }

  lemma FailedIsTheRest(tasks: seq<TaskPlan>, s: Sched)
    requires SchedOk(tasks, s) && s.pending == {}
    ensures s.failed == Ids(tasks) - s.completed
  {
  }

  /** The scheduler's side of a run that ended: consistent, and layered by depth where the limit never bound. */
  ghost predicate Settled(tasks: seq<TaskPlan>, parallel: nat, s: Sched, batches: seq<seq<TaskPlan>>) {
    && s.pending == {} && SchedOk(tasks, s)
    && (parallel >= |tasks| ==> LayersOk(tasks, s, batches))
  }

  /** What that means for a plan in which the outcome of every execution is fixed: the completed tasks are those that
      succeed with everything they depend on. Without a binding limit there are no more batches than tasks in the
      longest chain, exactly as many when everything completes, and each task runs in the batch of its depth. */
  lemma SettledLaw(tasks: seq<TaskPlan>, parallel: nat, s: Sched, batches: seq<seq<TaskPlan>>, succeeds: set<Id>)
      returns (longest: nat)
    requires ValidTasks(tasks) && Settled(tasks, parallel, s, batches) && Explains(s, succeeds)
    requires forall k :: 0 <= k < |batches| ==> batches[k] != []
    ensures s.completed == Successful(tasks, succeeds)
    ensures LongestChainIs(GraphOf(tasks), longest)
    ensures parallel >= |tasks| ==> |batches| <= longest && (s.completed == Ids(tasks) ==> |batches| == longest)
    ensures parallel >= |tasks| ==> forall k, t :: 0 <= k < |batches| && t in batches[k] ==>
      DepthIs(GraphOf(tasks), t.id, k + 1)
  {
    hide SchedOk, Explains, Acyclic, GraphOf, Successful, KnownDependencies, UniqueIds, IndependentScopesDisjoint,
      LayersOk, LongestChainIs, DepthIs;
    CompletedIsExact(tasks, s, succeeds);
    longest := LongestChainOf(tasks);
    if parallel >= |tasks| {
      BatchCountIsLongestChain(tasks, s, batches, longest);
      forall k, t | 0 <= k < |batches| && t in batches[k]
        ensures DepthIs(GraphOf(tasks), t.id, k + 1)
      {
        BatchIsDepth(tasks, s, batches, k, t);
      }
    }
  }

  /** A valid plan has a longest chain of dependencies. */
  lemma LongestChainOf(tasks: seq<TaskPlan>) returns (longest: nat)
    requires ValidTasks(tasks)
    ensures LongestChainIs(GraphOf(tasks), longest)
  {
    hide Acyclic, KnownDependencies, UniqueIds, IndependentScopesDisjoint, Edge, LongestChainIs;
    EdgesStayInside(tasks);
    GraphKeys(tasks);
    assert tasks[0].id in Ids(tasks);
    longest := LongestChainExists(GraphOf(tasks));
  }

  // The integration task.

  /** The plan's graph with the integration task on top, which depends on every task. */
  ghost function WithIntegration(tasks: seq<TaskPlan>): Graph {
    GraphOf(tasks)[INTEGRATION := seq(|tasks|, i requires 0 <= i < |tasks| => tasks[i].id)]
  }

  lemma {:induction false} WalkStaysInPlan(tasks: seq<TaskPlan>, p: seq<Id>)
    requires UniqueIds(tasks) && KnownDependencies(tasks) && INTEGRATION !in Ids(tasks)
    requires IsWalk(WithIntegration(tasks), p) && p[0] in Ids(tasks)
    ensures IsWalk(GraphOf(tasks), p) && p[|p| - 1] in Ids(tasks)
  {
    hide KnownDependencies, UniqueIds;
    var g, h := GraphOf(tasks), WithIntegration(tasks);
    var n := 0;
    while n < |p| - 1
      invariant 0 <= n <= |p| - 1
      invariant forall i :: 0 <= i <= n ==> p[i] in Ids(tasks)
      invariant forall i :: 0 <= i < n ==> Edge(g, p[i], p[i + 1])
    {
      assert Edge(h, p[n], p[n + 1]);
      StepInPlan(tasks, p[n], p[n + 1]);
      n := n + 1;
    }
  }

  lemma StepInPlan(tasks: seq<TaskPlan>, a: Id, b: Id)
    requires UniqueIds(tasks) && KnownDependencies(tasks) && INTEGRATION !in Ids(tasks)
    requires a in Ids(tasks) && Edge(WithIntegration(tasks), a, b)
    ensures Edge(GraphOf(tasks), a, b) && b in Ids(tasks)
  {
    hide KnownDependencies;
    EdgesStayInside(tasks);
  }

  lemma PlanReachesInPlan(tasks: seq<TaskPlan>, a: Id, b: Id)
    requires UniqueIds(tasks) && KnownDependencies(tasks) && INTEGRATION !in Ids(tasks)
    requires a in Ids(tasks) && Reaches(WithIntegration(tasks), a, b)
    ensures Reaches(GraphOf(tasks), a, b) && b in Ids(tasks)
  {
    hide KnownDependencies, UniqueIds, Edge, WithIntegration;
    var p :| WalkBetween(WithIntegration(tasks), a, b, p);
    WalkStaysInPlan(tasks, p);
    assert WalkBetween(GraphOf(tasks), a, b, p);
  }

  lemma IntegrationReachesTasks(tasks: seq<TaskPlan>, b: Id)
    requires UniqueIds(tasks) && KnownDependencies(tasks) && INTEGRATION !in Ids(tasks)
    requires Reaches(WithIntegration(tasks), INTEGRATION, b)
    ensures b in Ids(tasks)
  {
    hide KnownDependencies, UniqueIds;
    var g := WithIntegration(tasks);
    var c := FirstStep(g, INTEGRATION, b);
    assert c in Ids(tasks);
    if c != b {
      PlanReachesInPlan(tasks, c, b);
    }
  }

  /** The plan's journal is disciplined on the larger graph too. */
  lemma DisciplineWithIntegration(tasks: seq<TaskPlan>, events: seq<CampaignEvent>)
    requires UniqueIds(tasks) && KnownDependencies(tasks) && INTEGRATION !in Ids(tasks)
    requires Disciplined(GraphOf(tasks), events) && StartedIn(events) <= Ids(tasks)
    ensures Disciplined(WithIntegration(tasks), events)
  {
    hide KnownDependencies, UniqueIds, WithIntegration;
    forall i | 0 <= i < |events| && events[i].kind.TaskStarted? && events[i].taskId.Some?
      ensures MayStart(WithIntegration(tasks), events[..i], events[i].taskId.value)
    {
      var id := events[i].taskId.value;
      assert events[i] in events;
      assert id in StartedIn(events);
      assert MayStart(GraphOf(tasks), events[..i], id);
      forall d | Reaches(WithIntegration(tasks), id, d)
        ensures d in SucceededIn(events[..i])
      {
        PlanReachesInPlan(tasks, id, d);
      }
    }
  }

  /** Up to event `n` the journal is that of the plan, all of it succeeded; then the integration starts, and nothing
      after it. */
  ghost predicate BeganAt(tasks: seq<TaskPlan>, events: seq<CampaignEvent>, n: int) {
    && 0 <= n < |events|
    && events[n].kind.TaskStarted? && events[n].taskId == Some(INTEGRATION)
    && Orderly(tasks, events[..n]) && Ids(tasks) <= SucceededIn(events[..n])
    && forall j :: n < j < |events| ==> !events[j].kind.TaskStarted?
  }

  ghost predicate Began(tasks: seq<TaskPlan>, events: seq<CampaignEvent>) {
    exists n :: BeganAt(tasks, events, n)
  }

  /** The journal of a call: that of the plan's tasks, until the integration starts over all of them. */
  ghost predicate CallOrderly(tasks: seq<TaskPlan>, events: seq<CampaignEvent>) {
    Orderly(tasks, events) || Began(tasks, events)
  }

  /** How often an id is started. */
  ghost function Starts(events: seq<CampaignEvent>, id: Id): nat {
    if events == [] then 0
    else
      var e := events[|events| - 1];
      Starts(events[..|events| - 1], id) + if e.kind.TaskStarted? && e.taskId == Some(id) then 1 else 0
  }

  lemma DisciplinedPrefix(g: Graph, events: seq<CampaignEvent>, n: nat)
    requires Disciplined(g, events) && n <= |events|
    ensures Disciplined(g, events[..n])
  {
    forall i | 0 <= i < n && events[..n][i].kind.TaskStarted? && events[..n][i].taskId.Some?
      ensures MayStart(g, events[..n][..i], events[..n][i].taskId.value)
    {
      assert events[..n][..i] == events[..i];
    }
  }

  lemma {:induction false} DisciplinedStarts(g: Graph, events: seq<CampaignEvent>, id: Id)
    requires Disciplined(g, events)
    ensures Starts(events, id) == if id in StartedIn(events) then 1 else 0
  {
    hide Disciplined, StartedIn, SucceededIn;
    if events != [] {
      var n := |events| - 1;
      DisciplinedPrefix(g, events, n);
      DisciplinedStarts(g, events[..n], id);
      assert events == events[..n] + [events[n]];
      ExtendSets(events[..n], events[n]);
      if events[n].kind.TaskStarted? && events[n].taskId == Some(id) {
        FirstStart(g, events, n, id);
      }
    } else {
      NothingStarted(id);
    }
  }

  lemma FirstStart(g: Graph, events: seq<CampaignEvent>, n: nat, id: Id)
    requires Disciplined(g, events) && n < |events| && events[n].kind.TaskStarted? && events[n].taskId == Some(id)
    ensures id !in StartedIn(events[..n])
  {
    hide Reaches;
    assert MayStart(g, events[..n], id);
  }

  lemma NothingStarted(id: Id)
    ensures id !in StartedIn([])
  {
  }

  lemma {:induction false} NoLaterStarts(events: seq<CampaignEvent>, n: nat, id: Id)
    requires n <= |events| && forall j :: n <= j < |events| ==> !events[j].kind.TaskStarted?
    ensures Starts(events, id) == Starts(events[..n], id)
    decreases |events|
  {
    if n < |events| {
      var m := |events| - 1;
      assert events[..m][..n] == events[..n];
      NoLaterStarts(events[..m], n, id);
    } else {
      assert events[..n] == events;
    }
  }

  /** What a call may leave behind, read off its journal: no id starts twice, except that the integration starts over a
      task of the plan that carries its id. */
  lemma StartsCounted(tasks: seq<TaskPlan>, events: seq<CampaignEvent>, id: Id)
    requires CallOrderly(tasks, events)
    ensures Starts(events, id) == 2 <==> id == INTEGRATION && id in Ids(tasks) && Began(tasks, events)
    ensures Starts(events, id) <= 2
    ensures Began(tasks, events) ==> forall t :: t in Ids(tasks) ==> t in StartedIn(events)
  {
    hide Disciplined, StartedIn, SucceededIn, GraphOf;
    if n :| BeganAt(tasks, events, n) {
      var before := events[..n];
      DisciplinedStarts(GraphOf(tasks), before, id);
      assert events[..n + 1][..n] == before;
      NoLaterStarts(events, n + 1, id);
      StartedPrefix(events, n);
    } else {
      DisciplinedStarts(GraphOf(tasks), events, id);
    }
  }

  lemma StartedPrefix(events: seq<CampaignEvent>, n: nat)
    requires n <= |events|
    ensures StartedIn(events[..n]) <= StartedIn(events)
  {
  }

  lemma IntegrationStarts(ctx: Context, j: Journal)
    requires MayIntegrate(ctx, j) || Began(ctx.tasks, j.events)
    ensures MayIntegrate(ctx, j) <==> !Began(ctx.tasks, j.events)
    ensures Starts(j.events, INTEGRATION) ==
      (if INTEGRATION in Ids(ctx.tasks) then 1 else 0) + if Began(ctx.tasks, j.events) then 1 else 0
  {
    hide Orderly, Starts, SucceededIn;
    if Began(ctx.tasks, j.events) {
      BeganStarts(ctx.tasks, j.events);
      if Orderly(ctx.tasks, j.events) && Ids(ctx.tasks) <= SucceededIn(j.events) {
        OrderlyStarts(ctx.tasks, j.events);
      }
    } else {
      OrderlyStarts(ctx.tasks, j.events);
    }
  }

  lemma BeganStarts(tasks: seq<TaskPlan>, events: seq<CampaignEvent>)
    requires Began(tasks, events)
    ensures Starts(events, INTEGRATION) == (if INTEGRATION in Ids(tasks) then 1 else 0) + 1
  {
    hide Orderly, SucceededIn;
    var n :| BeganAt(tasks, events, n);
    OrderlyStarts(tasks, events[..n]);
    assert events[..n + 1][..n] == events[..n];
    NoLaterStarts(events, n + 1, INTEGRATION);
  }

  lemma OrderlyStarts(tasks: seq<TaskPlan>, events: seq<CampaignEvent>)
    requires Orderly(tasks, events) && Ids(tasks) <= SucceededIn(events)
    ensures Starts(events, INTEGRATION) == if INTEGRATION in Ids(tasks) then 1 else 0
  {
    hide Disciplined, GraphOf, Starts, StartedIn, SucceededIn;
    DisciplinedStarts(GraphOf(tasks), events, INTEGRATION);
  }

  /** So on a plan with such a task, a journal in which the integration started is not disciplined on any graph. */
  lemma SecondStartBreaksDiscipline(tasks: seq<TaskPlan>, g: Graph, events: seq<CampaignEvent>)
    requires Began(tasks, events) && INTEGRATION in Ids(tasks)
    ensures !Disciplined(g, events)
  {
    hide Disciplined, Orderly;
    StartsCounted(tasks, events, INTEGRATION);
    if Disciplined(g, events) {
      DisciplinedStarts(g, events, INTEGRATION);
    }
  }

  /** On any other plan the journal is disciplined, the integration included, whose dependencies are all tasks. */
  lemma CallIsDisciplined(tasks: seq<TaskPlan>, events: seq<CampaignEvent>)
    requires UniqueIds(tasks) && KnownDependencies(tasks) && INTEGRATION !in Ids(tasks) && CallOrderly(tasks, events)
    ensures Disciplined(WithIntegration(tasks), events)
  {
    hide KnownDependencies, UniqueIds, WithIntegration, Disciplined, MayStart, StartedIn, SucceededIn;
    if Orderly(tasks, events) {
      DisciplineWithIntegration(tasks, events);
    } else {
      var n :| BeganAt(tasks, events, n);
      DisciplineWithIntegration(tasks, events[..n]);
      MayStartIntegration(tasks, events[..n]);
      ExtendDiscipline(WithIntegration(tasks), events[..n], events[n]);
      assert events[..n] + [events[n]] == events[..n + 1];
      QuietKeepsDiscipline(WithIntegration(tasks), events, n + 1);
    }
  }

  lemma {:induction false} QuietKeepsDiscipline(g: Graph, events: seq<CampaignEvent>, n: nat)
    requires n <= |events| && Disciplined(g, events[..n]) && forall j :: n <= j < |events| ==>
      !events[j].kind.TaskStarted?
    ensures Disciplined(g, events)
  {
    hide MayStart;
    forall i | 0 <= i < |events| && events[i].kind.TaskStarted? && events[i].taskId.Some?
      ensures MayStart(g, events[..i], events[i].taskId.value)
    {
      assert events[..n][..i] == events[..i];
    }
  }

  /** What holds of every journal and ledger a call leaves behind, whether it returns or throws. */
  ghost predicate CallSafe(ctx: Context, w: World, watch: Watch, parallel: nat) {
    && AcceptedFor(ctx.campaignId, w.journal.events)
    && LedgerIsLog(w)
    && Below(ctx, w.ledger, w.log, watch, parallel)
    && CallOrderly(ctx.tasks, w.journal.events)
  }

  /** Every task of the plan projects as the scheduler's sets say. */
  ghost predicate PlanTasksMatch(s: Sched, tasks: map<Id, TaskStatus>) {
    && (forall id :: id in s.completed && id != INTEGRATION ==> id in tasks && tasks[id].Succeeded?)
    && (forall id :: id in s.failed && id != INTEGRATION ==> id in tasks && FailureStatus(tasks[id]))
  }

  /** What holds from the end of the run on. */
  ghost predicate Integrating(ctx: Context, s: Sched, w: World, watch: Watch, parallel: nat) {
    && CallSafe(ctx, w, watch, parallel)
    && (!w.journal.broken ==> PlanTasksMatch(s, Tasks(w.journal.events)))
  }

  /** Every task of the plan succeeded, and the integration has not started. */
  ghost predicate MayIntegrate(ctx: Context, j: Journal) {
    Ids(ctx.tasks) <= SucceededIn(j.events) && Orderly(ctx.tasks, j.events)
  }

  lemma MayStartIntegration(tasks: seq<TaskPlan>, events: seq<CampaignEvent>)
    requires UniqueIds(tasks) && KnownDependencies(tasks) && INTEGRATION !in Ids(tasks)
    requires Ids(tasks) <= SucceededIn(events) && StartedIn(events) <= Ids(tasks)
    ensures MayStart(WithIntegration(tasks), events, INTEGRATION)
  {
    hide KnownDependencies, UniqueIds, WithIntegration;
    forall d | Reaches(WithIntegration(tasks), INTEGRATION, d)
      ensures d in SucceededIn(events)
    {
      IntegrationReachesTasks(tasks, d);
    }
  }

  lemma RunIsCallSafe(ctx: Context, w: World, watch: Watch, parallel: nat)
    requires RunSafe(ctx, w, watch, parallel)
    ensures CallSafe(ctx, w, watch, parallel)
  {
    hide Orderly, Began, Below, LedgerIsLog, AcceptedFor;
  }

  /** After the run, before the integration. */
  lemma IntegrationMayBegin(ctx: Context, s: Sched, w: World, watch: Watch, parallel: nat)
    requires RunSafe(ctx, w, watch, parallel) && SchedOk(ctx.tasks, s) && JournalOk(ctx.tasks, s, w.journal)
    ensures Integrating(ctx, s, w, watch, parallel)
    ensures s.completed == Ids(ctx.tasks) ==> MayIntegrate(ctx, w.journal)
  {
    hide Orderly, Began, Below, LedgerIsLog, AcceptedFor, Explained;
  }

  lemma SayMatches(campaignId: Id, s: Sched, j: Journal, kind: EventKind, taskId: Option<Id>, accepts: bool)
    requires WellFormed(Request(kind, taskId)) && taskId in {None, Some(INTEGRATION)}
    requires !j.broken ==> PlanTasksMatch(s, Tasks(j.events))
    ensures var after := Emitted(campaignId, j, Request(kind, taskId), accepts);
      !after.broken ==> PlanTasksMatch(s, Tasks(after.events))
  {
    if !j.broken && accepts {
      TasksOfExtended(j.events, EventFor(campaignId, Request(kind, taskId), |j.events| + 1));
    }
  }

  /** What extends a journal once the integration has begun, or before it: anything but a task's start and success. */
  lemma ExtendOrderly(tasks: seq<TaskPlan>, events: seq<CampaignEvent>, e: CampaignEvent)
    requires !e.kind.TaskStarted?
    ensures Orderly(tasks, events) && !e.kind.TaskSucceeded? ==> Orderly(tasks, events + [e])
    ensures Began(tasks, events) ==> Began(tasks, events + [e])
  {
    hide MayStart;
    if Orderly(tasks, events) && !e.kind.TaskSucceeded? {
      ExtendDiscipline(GraphOf(tasks), events, e);
      ExtendSets(events, e);
    }
    if n :| BeganAt(tasks, events, n) {
      hide Orderly, SucceededIn;
      assert (events + [e])[..n] == events[..n];
      assert BeganAt(tasks, events + [e], n);
    }
  }

  lemma IntegrationBegins(tasks: seq<TaskPlan>, events: seq<CampaignEvent>, e: CampaignEvent)
    requires Orderly(tasks, events) && Ids(tasks) <= SucceededIn(events)
    requires e.kind.TaskStarted? && e.taskId == Some(INTEGRATION)
    ensures Began(tasks, events + [e])
  {
    hide Orderly, SucceededIn;
    assert (events + [e])[..|events|] == events;
    assert BeganAt(tasks, events + [e], |events|);
  }

  /** An emission of the campaign itself, or about the integration task. */
  lemma SayIsSafe(ctx: Context, w: World, kind: EventKind, taskId: Option<Id>, accepts: bool, watch: Watch,
        parallel: nat)
    requires CallSafe(ctx, w, watch, parallel)
    requires WellFormed(Request(kind, taskId)) && (kind.CampaignPlanned? ==> w.journal.events == [])
    requires kind.TaskStarted? ==> taskId == Some(INTEGRATION) && MayIntegrate(ctx, w.journal)
    requires kind.TaskSucceeded? ==> Began(ctx.tasks, w.journal.events)
    ensures var after := Emitted(ctx.campaignId, w.journal, Request(kind, taskId), accepts);
      && CallSafe(ctx, w.(journal := after), watch, parallel)
      && (!kind.TaskStarted? && Began(ctx.tasks, w.journal.events) ==> Began(ctx.tasks, after.events))
      && (kind.TaskStarted? && !after.broken ==> Began(ctx.tasks, after.events))
      && (kind.TaskStarted? && after.broken ==> MayIntegrate(ctx, after))
  {
    hide Began, Orderly, Below, RecordedAll, AcceptedFor, SucceededIn;
    EmittedAccepted(ctx.campaignId, w.journal, Request(kind, taskId), accepts);
    if !w.journal.broken && accepts {
      var e := EventFor(ctx.campaignId, Request(kind, taskId), |w.journal.events| + 1);
      if kind.TaskStarted? {
        IntegrationBegins(ctx.tasks, w.journal.events, e);
      } else {
        ExtendOrderly(ctx.tasks, w.journal.events, e);
      }
    }
  }

  lemma SayKeepsMayIntegrate(ctx: Context, j: Journal, kind: EventKind, taskId: Option<Id>, accepts: bool)
    requires MayIntegrate(ctx, j) && !kind.TaskStarted? && !kind.TaskSucceeded?
    ensures MayIntegrate(ctx, Emitted(ctx.campaignId, j, Request(kind, taskId), accepts))
  {
    hide StartedIn, SucceededIn, Orderly;
    if !j.broken && accepts {
      var e := EventFor(ctx.campaignId, Request(kind, taskId), |j.events| + 1);
      ExtendSets(j.events, e);
      ExtendOrderly(ctx.tasks, j.events, e);
    }
  }

  /** The extra record: whoever was admitted below the limit stays below it by less than one more use. */
  lemma RecordIsSafe(ctx: Context, w: World, profile: ProfileId, usage: Usage, watch: Watch, parallel: nat)
    requires CallSafe(ctx, w, watch, parallel) && parallel > 0
    requires !Refuses(Decision(ctx.mode, ctx.limits, w.ledger, profile))
    ensures CallSafe(ctx, w.(ledger := Recorded(w.ledger, profile, usage).0, log := w.log + [Entry(profile, usage)]),
      watch, parallel)
  {
    hide CallOrderly, AcceptedFor, Recorded;
    var after := w.(ledger := Recorded(w.ledger, profile, usage).0, log := w.log + [Entry(profile, usage)]);
    assert (w.log + [Entry(profile, usage)])[..|w.log|] == w.log;
    if Watching(ctx, watch) && UsesAtMost(after.log, watch.limit.metric, watch.bound) {
      assert Entry(profile, usage) in after.log;
      RecordedTotals(w.ledger, profile, usage, watch.limit.profileId, watch.limit.metric);
      if profile == watch.limit.profileId {
        assert !ExceedsLimit(w.ledger, watch.limit);
        TimesMonotone(1, parallel, watch.bound);
      }
    }
  }

  // The call.

  /** What the git port reports of an integration. */
  datatype Integration = Integration(conflicted: bool, humanApproval: bool)

  datatype Gate = HumanPolicy | DirtySnapshot | RiskGate | PriorityFallback | BaselineDiverged

  /** What was authorized and planned beyond the run itself. */
  datatype Application = Application(integrationRole: string, automatic: bool, clean: bool, policy: RiskPolicy,
        threshold: int)

  /** How the ports answer once the run is over, should they be asked. `None` stands for an exception; of the fallback,
      the answer says whether it is still conflicted. */
  datatype Answers = Answers(
    integrated: Option<Integration>, preparedSaved: bool, startedSaved: bool, execution: Execution, proofsValid: bool,
    failureSaved: bool, resolved: Option<Integration>, fallback: Option<bool>, commit: Option<Commit>,
    successSaved: bool, changes: Option<seq<RiskChange>>, diverged: bool, resultSaved: bool)

  function DetermineApplicationGate(app: Application, riskEligible: bool, fallback: bool): Option<Gate> {
    if !app.automatic then Some(HumanPolicy)
    else if !app.clean then Some(DirtySnapshot)
    else if !riskEligible then Some(RiskGate)
    else if fallback then Some(PriorityFallback)
    else None
  }

  /** The project's policy under the smaller of the two thresholds. */
  function EffectivePolicy(app: Application): RiskPolicy {
    var given := app.policy.automaticThreshold;
    app.policy.(automaticThreshold := if given <= app.threshold then given else app.threshold)
  }

  datatype Finish = Halted(projection: Projection) | Candidate(projection: Projection, gate: Option<Gate>,
        integration: Integration, changes: seq<RiskChange>, commits: seq<Commit>)

  /** One emission; returns false where it throws. */
  method Say(run: CampaignRun, kind: EventKind, taskId: Option<Id>, ghost watch: Watch) returns (ok: bool)
    requires run.Wired() && ValidTasks(run.ctx.tasks) && CallSafe(run.ctx, run.Now(), watch, run.parallel)
    requires WellFormed(Request(kind, taskId)) && taskId in {None, Some(INTEGRATION)}
    requires !kind.CampaignPlanned? && (kind.TaskStarted? ==> MayIntegrate(run.ctx, run.writer.View()))
    requires kind.TaskSucceeded? ==> Began(run.ctx.tasks, run.writer.View().events)
    modifies run.writer
    ensures run.Wired() && CallSafe(run.ctx, run.Now(), watch, run.parallel)
    ensures !kind.TaskStarted? && old(Began(run.ctx.tasks, run.writer.View().events)) ==>
      Began(run.ctx.tasks, run.writer.View().events)
    ensures kind.TaskStarted? ==>
      if ok then Began(run.ctx.tasks, run.writer.View().events) else MayIntegrate(run.ctx, run.writer.View())
    ensures forall s :: old(Integrating(run.ctx, s, run.Now(), watch, run.parallel)) ==>
      Integrating(run.ctx, s, run.Now(), watch, run.parallel)
    ensures !kind.TaskStarted? && !kind.TaskSucceeded? && old(MayIntegrate(run.ctx, run.writer.View())) ==>
      MayIntegrate(run.ctx, run.writer.View())
    ensures ok <==> !run.writer.View().broken
    ensures old(run.writer.View()).broken ==> run.writer.View() == old(run.writer.View())
    ensures old(run.writer.View()).events <= run.writer.View().events
    ensures !kind.TaskStarted? && !kind.TaskSucceeded? ==>
      QuietSince(old(run.writer.View()).events, run.writer.View().events)
    ensures ok ==>
      run.writer.View().events == old(run.writer.View()).events + [EventFor(run.ctx.campaignId, Request(kind, taskId),
        |old(run.writer.View()).events| + 1)]
  {
    hide CallSafe, ValidTasks, MayIntegrate, PlanTasksMatch, Began;
    ghost var w := run.Now();
    var accepts: bool := *;
    SayIsSafe(run.ctx, w, kind, taskId, accepts, watch, run.parallel);
    if !kind.TaskStarted? && !kind.TaskSucceeded? && MayIntegrate(run.ctx, w.journal) {
      SayKeepsMayIntegrate(run.ctx, w.journal, kind, taskId, accepts);
    }
    forall s | Integrating(run.ctx, s, w, watch, run.parallel)
      ensures var after := Emitted(run.ctx.campaignId, w.journal, Request(kind, taskId), accepts);
        !after.broken ==> PlanTasksMatch(s, Tasks(after.events))
    {
      SayMatches(run.ctx.campaignId, s, w.journal, kind, taskId, accepts);
    }
    ok := run.writer.Emit(kind, taskId, accepts);
  }

  /** The journal with more events about the integration. */
  ghost function Continued(campaignId: Id, events: seq<CampaignEvent>, kinds: seq<EventKind>): seq<CampaignEvent> {
    if kinds == [] then events
    else
      var before := Continued(campaignId, events, kinds[..|kinds| - 1]);
      before + [EventFor(campaignId, Request(kinds[|kinds| - 1], Some(INTEGRATION)), |before| + 1)]
  }

  lemma ContinuedOnce(campaignId: Id, events: seq<CampaignEvent>, kinds: seq<EventKind>, kind: EventKind)
    ensures var before := Continued(campaignId, events, kinds);
      Continued(campaignId, events, kinds + [kind]) ==
        before + [EventFor(campaignId, Request(kind, Some(INTEGRATION)), |before| + 1)]
  {
    assert (kinds + [kind])[..|kinds|] == kinds;
  }

  /** What comes of a conflict, and what the journal says about it. */
  datatype Outcome = Outcome(result: Result<Integration, ()>, story: seq<EventKind>)

  function Begun(): seq<EventKind> {
    [TaskPrepared, TaskStarted]
  }

  lemma BegunInTwo()
    ensures [] + [TaskPrepared] == [TaskPrepared] && [TaskPrepared] + [TaskStarted] == Begun()
  {
  }

  /** The keep-both fallback: it always asks for a human. */
  function Fallback(a: Answers): Result<Integration, ()> {
    if a.fallback.None? then Err(()) else Ok(Integration(a.fallback.value, true))
  }

  ghost predicate MayTakeOn(ctx: Context, log: seq<Entry>, p: ProfileId) {
    p in ctx.runnable && !UsedUp(ctx, log, p)
  }

  /** The worker is back with something that may be committed. */
  ghost predicate WorkedOut(ctx: Context, log: seq<Entry>, p: ProfileId, a: Answers) {
    && Measured(a.execution) && !Exhausts(ctx, log, p, a.execution)
    && a.execution.status.WorkerSucceeded? && a.proofsValid && ctx.allowCommits
  }

  /** A conflict as the answers decide it, while the queue holds. */
  ghost function ResolutionOf(ctx: Context, log: seq<Entry>, p: ProfileId, a: Answers): Outcome {
    if !MayTakeOn(ctx, log, p) then Outcome(Fallback(a), [TaskBlocked])
    else if !a.preparedSaved then Outcome(Err(()), [])
    else if !a.startedSaved then Outcome(Err(()), [TaskPrepared])
    else WorkOf(ctx, log, p, a)
  }

  ghost function WorkOf(ctx: Context, log: seq<Entry>, p: ProfileId, a: Answers): Outcome {
    if a.execution.Threw? then Outcome(Fallback(a), Begun() + [TaskFailed])
    else if !Measured(a.execution) then Outcome(Err(()), Begun())
    else if !WorkedOut(ctx, log, p, a) then
      if !a.failureSaved then Outcome(Err(()), Begun())
      else if Exhausts(ctx, log, p, a.execution) then Outcome(Fallback(a), Begun() + [TaskBudgetStopped])
      else Outcome(Fallback(a), Begun() + [TaskFailed])
    else TakenOf(a)
  }

  function TakenOf(a: Answers): Outcome {
    if a.resolved.None? then Outcome(Fallback(a), Begun() + [TaskFailed])
    else
      var taken := if a.resolved.value.conflicted then Fallback(a) else Ok(a.resolved.value);
      if taken.Err? then Outcome(taken, Begun())
      else if a.commit.None? then Outcome(taken, Begun() + [TaskFailed])
      else if !a.successSaved then Outcome(Err(()), Begun())
      else Outcome(taken, Begun() + [TaskSucceeded])
  }

  /** No conflict is resolved without asking a human but by a worker that the budget admitted and did not stop, that
      succeeded with valid proofs, with commits allowed, and whose resolution git took without asking for one. */
  lemma ResolvedUnattended(ctx: Context, log: seq<Entry>, p: ProfileId, a: Answers)
    ensures var r := ResolutionOf(ctx, log, p, a).result;
      (r.Ok? && !r.value.humanApproval) <==>
        && MayTakeOn(ctx, log, p) && a.preparedSaved && a.startedSaved && WorkedOut(ctx, log, p, a)
        && a.resolved.Some? && !a.resolved.value.conflicted && !a.resolved.value.humanApproval
        && (a.commit.Some? ==> a.successSaved)
    ensures var r := ResolutionOf(ctx, log, p, a).result;
      r.Ok? ==> r == Fallback(a) || Some(r.value) == a.resolved
  {
    hide Reached;
  }

  /** The journal says that the integration succeeded only if a commit came of it, and that the budget stopped it only
      if its own record used up a limit in hard-stop mode. */
  lemma IntegrationStory(ctx: Context, log: seq<Entry>, p: ProfileId, a: Answers)
    ensures var r := ResolutionOf(ctx, log, p, a);
      && (TaskSucceeded in r.story <==>
           && r.result.Ok? && MayTakeOn(ctx, log, p) && WorkedOut(ctx, log, p, a)
           && a.preparedSaved && a.startedSaved && a.resolved.Some? && a.commit.Some? && a.successSaved)
      && (TaskBudgetStopped in r.story ==> Exhausts(ctx, log, p, a.execution))
      && (TaskBlocked in r.story <==> !MayTakeOn(ctx, log, p))
      && (TaskStarted in r.story <==> MayTakeOn(ctx, log, p) && a.preparedSaved && a.startedSaved)
  {
    hide Reached;
  }

  /** The budget and the journal once the worker is back: the usage counts before its outcome is looked at. */
  method RecordIntegration(run: CampaignRun, profile: ProfileId, execution: Execution,
        ghost watch: Watch) returns (decision: Result<Action, ()>)
    requires run.Wired() && run.parallel > 0 && CallSafe(run.ctx, run.Now(), watch, run.parallel)
    requires execution.Returned? && !UsedUp(run.ctx, run.log, profile)
    modifies run`log, run.budget
    ensures run.Wired() && CallSafe(run.ctx, run.Now(), watch, run.parallel)
    ensures run.writer.View() == old(run.writer.View())
    ensures run.log == old(run.log) + [Entry(profile, execution.usage)]
    ensures decision.Ok? <==> Measured(execution)
    ensures decision.Ok? ==> (decision.value.Stop? <==> Exhausts(run.ctx, old(run.log), profile, execution))
  {
    hide CallSafe, Recorded, Decision, Reached, Exceeded;
    ghost var was, log := run.budget.View(), run.log;
    BudgetOf(run.ctx, run.Now(), profile, watch, run.parallel);
    RecordIsSafe(run.ctx, run.Now(), profile, execution.usage, watch, run.parallel);
    decision := run.budget.Record(profile, execution.usage);
    run.log := run.log + [Entry(profile, execution.usage)];
    BudgetOf(run.ctx, run.Now(), profile, watch, run.parallel);
  }

  /** What the budget says, read off the records. */
  lemma BudgetOf(ctx: Context, w: World, profile: ProfileId, watch: Watch, parallel: nat)
    requires CallSafe(ctx, w, watch, parallel)
    ensures Exceeded(ctx.limits, w.ledger, profile) <==> Reached(ctx.limits, w.log, profile)
    ensures Refuses(Decision(ctx.mode, ctx.limits, w.ledger, profile)) <==> UsedUp(ctx, w.log, profile)
  {
    hide Reached, Exceeded, RecordedAll, CallOrderly, Below, AcceptedFor;
    DecisionOnSums(ctx.mode, ctx.limits, w.log, profile);
  }

  method BuildPriorityFallback(a: Answers) returns (r: Result<Integration, ()>)
    ensures r == Fallback(a)
  {
    return if a.fallback.None? then Err(()) else Ok(Integration(a.fallback.value, true));
  }

  /** A worker resolves the conflict, if its profile may run and the budget admits it once more. */
  method ResolveIntegration(run: CampaignRun, role: string, a: Answers, ghost s: Sched,
        ghost watch: Watch) returns (r: Result<Integration, ()>)
    requires run.Wired() && ValidTasks(run.ctx.tasks) && run.parallel > 0
    requires Integrating(run.ctx, s, run.Now(), watch, run.parallel) && MayIntegrate(run.ctx, run.writer.View())
    modifies run`log, run.budget, run.writer
    ensures run.Wired() && Integrating(run.ctx, s, run.Now(), watch, run.parallel)
    ensures |run.log| <= |old(run.log)| + 1
    ensures old(run.writer.View()).broken ==> run.writer.View().broken
    ensures old(run.writer.View()).events <= run.writer.View().events
    ensures !run.writer.View().broken ==>
      var o := ResolutionOf(run.ctx, old(run.log), ProfileOf(run.ctx, role), a);
      && r == o.result
      && run.writer.View().events == Continued(run.ctx.campaignId, old(run.writer.View()).events, o.story)
  {
    hide CallSafe, ValidTasks, MayIntegrate, PlanTasksMatch, Decision, Recorded, Began, Exceeded, Reached, Continued,
      Begun, WorkOf, UsedUp;
    ghost var events := run.writer.View().events;
    var profile := ProfileOf(run.ctx, role);
    BudgetOf(run.ctx, run.Now(), profile, watch, run.parallel);
    var action := run.budget.Before(profile);
    if profile !in run.ctx.runnable || action.Stop? || action.BlockNew? {
      r := RefuseIntegration(run, a, s, watch);
      return;
    }
    var prepared := PrepareIntegration(run, a, s, watch);
    if !prepared {
      return Err(());
    }
    r := Undertake(run, profile, a, events, s, watch);
  }

  /** Nobody may take the conflict on. */
  method RefuseIntegration(run: CampaignRun, a: Answers, ghost s: Sched, ghost watch: Watch)
      returns (r: Result<Integration, ()>)
    requires run.Wired() && ValidTasks(run.ctx.tasks) && Integrating(run.ctx, s, run.Now(), watch, run.parallel)
    modifies run.writer
    ensures run.Wired() && Integrating(run.ctx, s, run.Now(), watch, run.parallel)
    ensures old(run.writer.View()).broken ==> run.writer.View().broken
    ensures old(run.writer.View()).events <= run.writer.View().events
    ensures !run.writer.View().broken ==>
      && r == Fallback(a)
      && run.writer.View().events == Continued(run.ctx.campaignId, old(run.writer.View()).events, [TaskBlocked])
  {
    hide CallSafe, ValidTasks, MayIntegrate, PlanTasksMatch, Began, Continued, QuietSince;
    ContinuedNot(run.ctx.campaignId, run.writer.View().events);
    assert [] + [TaskBlocked] == [TaskBlocked];
    var ok := Tell(run, TaskBlocked, run.writer.View().events, [], s, watch);
    if !ok {
      return Err(());
    }
    r := BuildPriorityFallback(a);
  }

  function ProfileOf(ctx: Context, role: string): (r: ProfileId)
    ensures role in ctx.profileByRole ==> r == ctx.profileByRole[role]
  {
    if role in ctx.profileByRole then ctx.profileByRole[role] else ""
  }

  lemma ContinuedNot(campaignId: Id, events: seq<CampaignEvent>)
    ensures Continued(campaignId, events, []) == events
  {
  }

  /** One more event about the integration. */
  method Tell(run: CampaignRun, kind: EventKind, ghost events: seq<CampaignEvent>, ghost told: seq<EventKind>,
        ghost s: Sched, ghost watch: Watch) returns (ok: bool)
    requires run.Wired() && ValidTasks(run.ctx.tasks) && Integrating(run.ctx, s, run.Now(), watch, run.parallel)
    requires IsTaskEvent(kind) && (kind.TaskStarted? ==> MayIntegrate(run.ctx, run.writer.View()))
    requires kind.TaskSucceeded? ==> Began(run.ctx.tasks, run.writer.View().events)
    requires run.writer.View().events == Continued(run.ctx.campaignId, events, told)
    modifies run.writer
    ensures run.Wired() && Integrating(run.ctx, s, run.Now(), watch, run.parallel)
    ensures ok <==> !run.writer.View().broken
    ensures old(run.writer.View()).broken ==> run.writer.View().broken
    ensures old(run.writer.View()).events <= run.writer.View().events
    ensures kind.TaskStarted? ==>
      if ok then Began(run.ctx.tasks, run.writer.View().events) else MayIntegrate(run.ctx, run.writer.View())
    ensures !kind.TaskStarted? && !kind.TaskSucceeded? && old(MayIntegrate(run.ctx, run.writer.View())) ==>
      MayIntegrate(run.ctx, run.writer.View())
    ensures ok ==> run.writer.View().events == Continued(run.ctx.campaignId, events, told + [kind])
  {
    hide CallSafe, ValidTasks, MayIntegrate, PlanTasksMatch, Began, Continued, QuietSince;
    ContinuedOnce(run.ctx.campaignId, events, told, kind);
    ok := Say(run, kind, Some(INTEGRATION), watch);
  }

  /** The worker is at it, and comes back. */
  method Undertake(run: CampaignRun, profile: ProfileId, a: Answers, ghost events: seq<CampaignEvent>, ghost s: Sched,
        ghost watch: Watch) returns (r: Result<Integration, ()>)
    requires run.Wired() && ValidTasks(run.ctx.tasks) && run.parallel > 0
    requires Integrating(run.ctx, s, run.Now(), watch, run.parallel) && !UsedUp(run.ctx, run.log, profile)
    requires Began(run.ctx.tasks, run.writer.View().events) && !run.writer.View().broken
    requires run.writer.View().events == Continued(run.ctx.campaignId, events, Begun())
    modifies run`log, run.budget, run.writer
    ensures run.Wired() && Integrating(run.ctx, s, run.Now(), watch, run.parallel)
    ensures |run.log| <= |old(run.log)| + 1
    ensures old(run.writer.View()).events <= run.writer.View().events
    ensures !run.writer.View().broken ==>
      var o := WorkOf(run.ctx, old(run.log), profile, a);
      && r == o.result && run.writer.View().events == Continued(run.ctx.campaignId, events, o.story)
  {
    hide CallSafe, ValidTasks, MayIntegrate, PlanTasksMatch, Began, Continued, Begun, UsedUp, Exhausts, Measured,
      TakenOf, QuietSince;
    if a.execution.Threw? {
      var _ := Tell(run, TaskFailed, events, Begun(), s, watch);
      r := BuildPriorityFallback(a);
      return;
    }
    var decision := RecordIntegration(run, profile, a.execution, watch);
    if decision.Err? {
      return Err(());
    }
    if !a.execution.status.WorkerSucceeded? || !a.proofsValid || decision.value.Stop? || !run.ctx.allowCommits {
      r := FailIntegration(run, a, if decision.value.Stop? then TaskBudgetStopped else TaskFailed, events, s, watch);
    } else {
      r := TakeResolution(run, a, events, s, watch);
    }
  }

  /** The worker's result is not taken. */
  method FailIntegration(run: CampaignRun, a: Answers, kind: EventKind, ghost events: seq<CampaignEvent>,
        ghost s: Sched, ghost watch: Watch) returns (r: Result<Integration, ()>)
    requires run.Wired() && ValidTasks(run.ctx.tasks) && Integrating(run.ctx, s, run.Now(), watch, run.parallel)
    requires kind in {TaskBudgetStopped, TaskFailed} && !run.writer.View().broken
    requires run.writer.View().events == Continued(run.ctx.campaignId, events, Begun())
    modifies run.writer
    ensures run.Wired() && Integrating(run.ctx, s, run.Now(), watch, run.parallel)
    ensures old(run.writer.View()).events <= run.writer.View().events
    ensures !run.writer.View().broken ==>
      && r == (if a.failureSaved then Fallback(a) else Err(()))
      && run.writer.View().events ==
           Continued(run.ctx.campaignId, events, if a.failureSaved then Begun() + [kind] else Begun())
  {
    hide CallSafe, ValidTasks, MayIntegrate, PlanTasksMatch, Began, Continued, Begun, QuietSince;
    if !a.failureSaved {
      return Err(());
    }
    var ok := Tell(run, kind, events, Begun(), s, watch);
    if !ok {
      return Err(());
    }
    r := BuildPriorityFallback(a);
  }

  /** Two saved attempts and two emissions before the worker starts. The integration has started when this succeeds,
      and only then; should a task of the plan carry its id, that is the second start of the id. */
  method PrepareIntegration(run: CampaignRun, a: Answers, ghost s: Sched, ghost watch: Watch) returns (ok: bool)
    requires run.Wired() && ValidTasks(run.ctx.tasks)
    requires Integrating(run.ctx, s, run.Now(), watch, run.parallel) && MayIntegrate(run.ctx, run.writer.View())
    modifies run.writer
    ensures run.Wired() && Integrating(run.ctx, s, run.Now(), watch, run.parallel)
    ensures ok <==> Began(run.ctx.tasks, run.writer.View().events)
    ensures ok <==> a.preparedSaved && a.startedSaved && !run.writer.View().broken
    ensures old(run.writer.View()).broken ==> run.writer.View().broken
    ensures old(run.writer.View()).events <= run.writer.View().events
    ensures !run.writer.View().broken ==>
      run.writer.View().events == Continued(run.ctx.campaignId, old(run.writer.View()).events,
        if !a.preparedSaved then [] else if !a.startedSaved then [TaskPrepared] else Begun())
    ensures Starts(run.writer.View().events, INTEGRATION) ==
      (if INTEGRATION in Ids(run.ctx.tasks) then 1 else 0) + if ok then 1 else 0
  {
    hide CallSafe, ValidTasks, MayIntegrate, PlanTasksMatch, Began, Continued, QuietSince, Starts, Begun;
    ghost var events := run.writer.View().events;
    ContinuedNot(run.ctx.campaignId, events);
    BegunInTwo();
    ok := false;
    if a.preparedSaved {
      ok := Tell(run, TaskPrepared, events, [], s, watch);
      if ok && a.startedSaved {
        ok := Tell(run, TaskStarted, events, [TaskPrepared], s, watch);
      } else {
        ok := false;
      }
    }
    IntegrationStarts(run.ctx, run.writer.View());
  }

  /** The git port turns the worker's result into a commit, or fails to. */
  method TakeResolution(run: CampaignRun, a: Answers, ghost events: seq<CampaignEvent>, ghost s: Sched,
        ghost watch: Watch) returns (r: Result<Integration, ()>)
    requires run.Wired() && ValidTasks(run.ctx.tasks) && Integrating(run.ctx, s, run.Now(), watch, run.parallel)
    requires Began(run.ctx.tasks, run.writer.View().events) && !run.writer.View().broken
    requires run.writer.View().events == Continued(run.ctx.campaignId, events, Begun())
    modifies run.writer
    ensures old(run.writer.View()).events <= run.writer.View().events
    ensures run.Wired() && Integrating(run.ctx, s, run.Now(), watch, run.parallel)
    ensures !run.writer.View().broken ==>
      r == TakenOf(a).result &&
        run.writer.View().events == Continued(run.ctx.campaignId, events, TakenOf(a).story)
  {
    hide CallSafe, ValidTasks, MayIntegrate, PlanTasksMatch, Began, Continued, Begun, QuietSince;
    if a.resolved.None? {
      var _ := Tell(run, TaskFailed, events, Begun(), s, watch);
      r := BuildPriorityFallback(a);
      return;
    }
    r := Ok(a.resolved.value);
    if a.resolved.value.conflicted {
      r := BuildPriorityFallback(a);
      if r.Err? {
        return;
      }
    }
    if a.commit.None? {
      var _ := Tell(run, TaskFailed, events, Begun(), s, watch);
      return;
    }
    if !a.successSaved {
      return Err(());
    }
    var ok := Tell(run, TaskSucceeded, events, Begun(), s, watch);
    if !ok {
      r := Err(());
    }
  }

  // From planning to application.

  predicate PositiveLimits(ctx: Context) {
    forall l :: l in ctx.limits ==> l.maximum > 0.0
  }

  lemma BarrierAtStart(ctx: Context, w: World, watch: Watch, parallel: nat)
    requires PositiveLimits(ctx) && w.ledger == Ledger(map[], {}) && w.log == []
    requires w.journal ==
      Journal([EventFor(ctx.campaignId, Request(CampaignPlanned, None), 1),
        EventFor(ctx.campaignId, Request(CampaignAuthorized, None), 2)], false)
    ensures BarrierOk(ctx, Start(ctx.tasks), w, watch, parallel)
  {
    hide GraphOf;
    var events := w.journal.events;
    assert events[..1] == [events[0]] && events[..1][..0] == [];
    assert Tasks(events[..1]) == map[];
    if Watching(ctx, watch) {
      TimesMonotone(0, parallel, watch.bound);
    }
    assert Ids(ctx.tasks) + {} + {} == Ids(ctx.tasks);
  }

  lemma EmptyIsCallSafe(ctx: Context, w: World, watch: Watch, parallel: nat)
    requires PositiveLimits(ctx) && w.ledger == Ledger(map[], {}) && w.log == [] && w.journal.events == []
    ensures CallSafe(ctx, w, watch, parallel)
  {
    hide GraphOf, WithIntegration;
    if Watching(ctx, watch) {
      TimesMonotone(0, parallel, watch.bound);
    }
  }

  /** The result shows the journal as it stands. */
  method CurrentResult(run: CampaignRun, ghost watch: Watch) returns (r: Result<Projection, ()>)
    requires run.Wired() && CallSafe(run.ctx, run.Now(), watch, run.parallel)
    ensures r == if run.writer.View().events == [] then Err(()) else Ok(ProjectionOf(run.writer.View().events))
  {
    hide ProjectionOf, Disciplined, WithIntegration, Below;
    ghost var journal := run.writer.View().events;
    AcceptedForIsAccepted(run.ctx.campaignId, journal);
    if journal != [] {
      ProjectionIgnoresStoredOrder(journal, journal);
    }
    var projected := ProjectCampaignEvents(run.writer.stored);
    return if projected.Ok? && projected.value.Some? then Ok(projected.value.value) else Err(());
  }

  ghost predicate Shows(j: Journal, projection: Projection) {
    j.events != [] && projection == ProjectionOf(j.events)
  }

  /** What a call that returns has to show for itself, given where the run left its tasks. */
  ghost predicate Delivered(run: CampaignRun, s: Sched, j: Journal, app: Application, finish: Finish)
    reads run
  {
    && Shows(j, finish.projection)
    && PlanTasksMatch(s, finish.projection.tasks)
    && match finish
       case Halted(projection) => projection.status == Blocked
       case Candidate(projection, gate, integration, changes, commits) =>
         && s.completed == Ids(run.ctx.tasks) && s.failed == {} && run.AllCommitted(commits)
         && projection.status == (if gate.None? then Completed else AwaitingApplication)
  }

  /** Applied without a human: authorized, clean, and without denial below both thresholds. */
  ghost predicate MayApply(app: Application, changes: seq<RiskChange>) {
    app.automatic && app.clean && LowRisk(app, changes)
  }

  ghost predicate LowRisk(app: Application, changes: seq<RiskChange>) {
    && ValidChanges(changes) && AllDenials(changes) == {}
    && TotalOf(changes, app.policy) <= app.policy.automaticThreshold && TotalOf(changes, app.policy) <= app.threshold
  }

  /** What can be assessed: a change list of the right form and length, under valid weights and a threshold in range. */
  ghost predicate Assessable(app: Application, changes: seq<RiskChange>) {
    && 0 < |changes| <= 10_000 && ValidChanges(changes) && ValidPolicy(app.policy.(automaticThreshold := 0))
    && 0 <= app.policy.automaticThreshold && 0 <= app.threshold
    && (app.policy.automaticThreshold <= GLOBAL_AUTOMATIC_RISK_CEILING ||
         app.threshold <= GLOBAL_AUTOMATIC_RISK_CEILING)
  }

  /** The gate is the first thing that stands in the way. */
  ghost predicate GateFits(app: Application, changes: seq<RiskChange>, fallback: bool, diverged: bool,
        gate: Option<Gate>) {
    && (gate == None <==> MayApply(app, changes) && !fallback && !diverged)
    && (gate == Some(HumanPolicy) <==> !app.automatic)
    && (gate == Some(DirtySnapshot) <==> app.automatic && !app.clean)
    && (gate == Some(RiskGate) <==> app.automatic && app.clean && !LowRisk(app, changes))
    && (gate == Some(PriorityFallback) <==> MayApply(app, changes) && fallback)
    && (gate == Some(BaselineDiverged) <==> MayApply(app, changes) && !fallback && diverged)
  }

  /** A result after an emission of the campaign itself. */
  lemma DeliveredAfter(events: seq<CampaignEvent>, kind: EventKind)
    requires events != [] && events[|events| - 1].kind == kind
    ensures ProjectionOf(events).tasks == Tasks(events)
    ensures ProjectionOf(events).status == StatusAfter(kind, StatusOf(events[..|events| - 1]))
  {
  }

  method Halt(run: CampaignRun, ghost s: Sched, ghost watch: Watch) returns (r: Result<Finish, ()>)
    requires run.Wired() && Integrating(run.ctx, s, run.Now(), watch, run.parallel) && run.EndedWith(CampaignBlocked)
    ensures r.Ok? && r.value.Halted?
    ensures forall app :: Delivered(run, s, run.writer.View(), app, r.value)
  {
    hide CallSafe, PlanTasksMatch;
    var current := CurrentResult(run, watch);
    DeliveredAfter(run.writer.View().events, CampaignBlocked);
    return if current.Ok? then Ok(Halted(current.value)) else Err(());
  }

  /** The assessment and the gate; where nothing stands in the way, the fast-forward still may find that the baseline
      moved. */
  method Gatekeep(app: Application, changes: seq<RiskChange>, fallback: bool, diverged: bool)
      returns (r: Result<Option<Gate>, ()>)
    ensures r.Ok? <==> Assessable(app, changes)
    ensures r.Ok? ==> GateFits(app, changes, fallback, diverged, r.value)
  {
    hide AllDenials, AllFactors, SumOfFactors, ValidChange;
    var risk := AssessRisk(changes, EffectivePolicy(app), 0);
    if risk.Err? {
      return Err(());
    }
    ThresholdWeighsNothing(changes, app.policy, EffectivePolicy(app).automaticThreshold);
    var gate := DetermineApplicationGate(app, risk.value.automaticEligible, fallback);
    return Ok(if gate.None? && diverged then Some(BaselineDiverged) else gate);
  }

  /** The candidate is assessed, applied or not, saved and announced. */
  method Deliver(run: CampaignRun, app: Application, a: Answers, integration: Integration, commits: seq<Commit>,
        ghost s: Sched, ghost watch: Watch) returns (r: Result<Finish, ()>)
    requires run.Wired() && ValidTasks(run.ctx.tasks) && Integrating(run.ctx, s, run.Now(), watch, run.parallel)
    requires s.completed == Ids(run.ctx.tasks) && s.failed == {} && run.AllCommitted(commits)
    modifies run.writer
    ensures run.Wired() && CallSafe(run.ctx, run.Now(), watch, run.parallel)
    ensures old(run.writer.View()).broken ==> run.writer.View().broken
    ensures old(run.writer.View()).events <= run.writer.View().events
    ensures r.Ok? ==> !run.writer.View().broken
    ensures !run.writer.View().broken ==> (r.Err? <==> !Presentable(app, a))
    ensures r.Ok? ==> CandidateFits(app, a, integration, r.value)
    ensures r.Ok? ==> Delivered(run, s, run.writer.View(), app, r.value)
  {
    hide CallSafe, PlanTasksMatch, ValidTasks, MayApply, Shows, Assessable, GateFits;
    if a.changes.None? {
      return Err(());
    }
    var gate := Gatekeep(app, a.changes.value, integration.humanApproval, a.diverged);
    if gate.Err? || !a.resultSaved {
      return Err(());
    }
    var current := Announce(run, if gate.value.None? then CampaignCompleted else CampaignAwaitingApplication, s, watch);
    return if current.Ok? then Ok(Candidate(current.value, gate.value, integration, a.changes.value, commits))
      else Err(());
  }

  /** The changes can be inspected and assessed, and the result saved. */
  ghost predicate Presentable(app: Application, a: Answers) {
    a.changes.Some? && Assessable(app, a.changes.value) && a.resultSaved
  }

  /** The candidate shows what was integrated, the changes that were inspected, and the gate that fits them. */
  ghost predicate CandidateFits(app: Application, a: Answers, integration: Integration, finish: Finish) {
    && finish.Candidate? && finish.integration == integration && a.changes == Some(finish.changes)
    && GateFits(app, finish.changes, integration.humanApproval, a.diverged, finish.gate)
  }

  /** The last event, and the journal as it stands then. */
  method Announce(run: CampaignRun, kind: EventKind, ghost s: Sched, ghost watch: Watch)
      returns (r: Result<Projection, ()>)
    requires run.Wired() && ValidTasks(run.ctx.tasks) && Integrating(run.ctx, s, run.Now(), watch, run.parallel)
    requires !IsTaskEvent(kind) && !kind.CampaignPlanned?
    modifies run.writer
    ensures run.Wired() && CallSafe(run.ctx, run.Now(), watch, run.parallel)
    ensures old(run.writer.View()).broken ==> run.writer.View().broken
    ensures old(run.writer.View()).events <= run.writer.View().events
    ensures r.Ok? <==> !run.writer.View().broken
    ensures r.Ok? ==>
      Shows(run.writer.View(), r.value) && PlanTasksMatch(s, r.value.tasks) &&
        r.value.status == StatusAfter(kind, Planned)
  {
    hide CallSafe, PlanTasksMatch, ValidTasks, MayIntegrate;
    var ok := Say(run, kind, None, watch);
    if !ok {
      return Err(());
    }
    r := CurrentResult(run, watch);
    DeliveredAfter(run.writer.View().events, kind);
  }

  /** What the integration comes to, while the queue holds. */
  ghost function IntegrationOf(ctx: Context, log: seq<Entry>, role: string, a: Answers): Outcome {
    if a.integrated.None? then Outcome(Err(()), [])
    else if !a.integrated.value.conflicted then Outcome(Ok(a.integrated.value), [])
    else ResolutionOf(ctx, log, ProfileOf(ctx, role), a)
  }

  /** The git port integrates the commits; a conflict is resolved or kept. */
  method IntegrateCommits(run: CampaignRun, role: string, a: Answers, ghost s: Sched,
        ghost watch: Watch) returns (r: Result<Integration, ()>)
    requires run.Wired() && ValidTasks(run.ctx.tasks) && run.parallel > 0
    requires Integrating(run.ctx, s, run.Now(), watch, run.parallel) && MayIntegrate(run.ctx, run.writer.View())
    modifies run`log, run.budget, run.writer
    ensures run.Wired() && Integrating(run.ctx, s, run.Now(), watch, run.parallel)
    ensures old(run.writer.View()).broken ==> run.writer.View().broken
    ensures old(run.writer.View()).events <= run.writer.View().events
    ensures !run.writer.View().broken ==>
      var o := IntegrationOf(run.ctx, old(run.log), role, a);
      && r == o.result
      && run.writer.View().events == Continued(run.ctx.campaignId, old(run.writer.View()).events, o.story)
  {
    hide Integrating, ValidTasks, MayIntegrate, ResolutionOf, Continued;
    ContinuedNot(run.ctx.campaignId, run.writer.View().events);
    if a.integrated.None? {
      return Err(());
    }
    if !a.integrated.value.conflicted {
      return Ok(a.integrated.value);
    }
    r := ResolveIntegration(run, role, a, s, watch);
  }

  lemma ConcludedMeans(run: CampaignRun, watch: Watch)
    requires run.Concluded(watch) && ValidTasks(run.ctx.tasks)
    ensures Settled(run.ctx.tasks, run.parallel, run.Without(run.pending), run.batches)
    ensures Integrating(run.ctx, run.Without(run.pending), run.Now(), watch, run.parallel)
    ensures run.completed == Ids(run.ctx.tasks) ==> MayIntegrate(run.ctx, run.writer.View())
  {
    hide CallSafe, PlanTasksMatch, ValidTasks, RunSafe, NoSharedPath, SchedOk, JournalOk, LayersOk, MayIntegrate;
    IntegrationMayBegin(run.ctx, run.Without(run.pending), run.Now(), watch, run.parallel);
  }

  /** What a call comes to on a queue that holds, given what the run has recorded and how the ports answer: a blocked
      campaign, an exception, or the candidate. */
  ghost predicate Decided(ctx: Context, log: seq<Entry>, failed: bool, app: Application, a: Answers,
        r: Result<Finish, ()>) {
    if failed then r.Ok? && r.value.Halted?
    else match IntegrationOf(ctx, log, app.integrationRole, a).result
      case Err(_) => r.Err?
      case Ok(integration) =>
        if integration.conflicted then r.Ok? && r.value.Halted?
        else (r.Err? <==> !Presentable(app, a)) && (r.Ok? ==> CandidateFits(app, a, integration, r.value))
  }

  /** The run, then the integration, then the candidate. `ended` is the world when the run was over. */
  method RunToCandidate(run: CampaignRun, app: Application, a: Answers, ghost watch: Watch)
      returns (r: Result<Finish, ()>, ghost ended: World)
    requires run.AtBarrier(watch) && ValidTasks(run.ctx.tasks) && run.parallel > 0
    requires run.Sets() == Start(run.ctx.tasks) && run.batches == []
    modifies run, run.budget, run.writer
    ensures run.Wired() && CallSafe(run.ctx, run.Now(), watch, run.parallel) && run.BatchesFine()
    ensures History(run.ctx, run.opening, run.traces, ended) && CommitsTraced(run)
    ensures ended.journal.events <= run.writer.View().events
    ensures r.Ok? ==> !run.writer.View().broken
    ensures !run.writer.View().broken ==> Decided(run.ctx, ended.log, run.terminalFailures != {}, app, a, r)
    ensures !run.writer.View().broken ==>
      Settled(run.ctx.tasks, run.parallel, run.Without(run.pending), run.batches)
    ensures r.Ok? ==> Delivered(run, run.Without(run.pending), run.writer.View(), app, r.value)
  {
    hide CallSafe, ValidTasks, BarrierOk, NoSharedPath, SchedOk, RunSafe, MayIntegrate, GraphOf, Settled, Start,
      Delivered, History, Earned, IntegrationOf, Presentable, CandidateFits;
    var commits := run.Run(watch);
    ended := run.Now();
    RunIsCallSafe(run.ctx, run.Now(), watch, run.parallel);
    if commits.Err? {
      return Err(()), ended;
    }
    ConcludedMeans(run, watch);
    if commits.value.None? {
      r := Halt(run, run.Without(run.pending), watch);
    } else {
      r := Integrate(run, app, a, commits.value.value, run.Without(run.pending), watch);
    }
  }

  /** Every commit was earned in one of the batches. */
  ghost predicate CommitsTraced(run: CampaignRun)
    reads run
  {
    forall id :: id in run.commits ==>
      exists k :: 0 <= k < |run.traces| && Earned(run.ctx, run.traces[k], id, run.commits[id])
  }

  /** All commits are there: integrate them, and deliver the candidate unless the conflict remains. */
  method Integrate(run: CampaignRun, app: Application, a: Answers, commits: seq<Commit>, ghost s: Sched,
        ghost watch: Watch) returns (r: Result<Finish, ()>)
    requires run.Wired() && ValidTasks(run.ctx.tasks) && run.parallel > 0
    requires Integrating(run.ctx, s, run.Now(), watch, run.parallel) && MayIntegrate(run.ctx, run.writer.View())
    requires s.completed == Ids(run.ctx.tasks) && s.failed == {} && run.AllCommitted(commits)
    modifies run`log, run.budget, run.writer
    ensures run.Wired() && CallSafe(run.ctx, run.Now(), watch, run.parallel)
    ensures old(run.writer.View()).broken ==> run.writer.View().broken
    ensures old(run.writer.View()).events <= run.writer.View().events
    ensures r.Ok? ==> !run.writer.View().broken
    ensures !run.writer.View().broken ==> Decided(run.ctx, old(run.log), false, app, a, r)
    ensures r.Ok? ==> Delivered(run, s, run.writer.View(), app, r.value)
  {
    hide CallSafe, ValidTasks, MayIntegrate, Delivered, PlanTasksMatch, IntegrationOf, Presentable, CandidateFits,
      Continued;
    var integration := IntegrateCommits(run, app.integrationRole, a, s, watch);
    if integration.Err? {
      return Err(());
    }
    if integration.value.conflicted {
      var ok := Say(run, CampaignBlocked, None, watch);
      if !ok {
        return Err(());
      }
      r := Halt(run, s, watch);
      return;
    }
    r := Deliver(run, app, a, integration.value, commits, s, watch);
  }

  /** A run nothing has happened to yet. */
  ghost predicate Untouched(run: CampaignRun)
    reads run, run.budget, run.writer
  {
    && run.Wired() && run.writer.View() == Journal([], false)
    && run.budget.View() == Ledger(map[], {}) && run.log == [] && !run.hardStop
    && run.Sets() == Start(run.ctx.tasks) && run.commits == map[] && run.batches == []
    && run.opening == NewWorld() && run.traces == []
  }

  /** Nothing journaled, nothing spent. */
  function NewWorld(): World {
    World(map[], Ledger(map[], {}), false, Journal([], false), [])
  }

  /** The two events every journal starts with. */
  method Authorize(run: CampaignRun, ghost watch: Watch) returns (ok: bool)
    requires Untouched(run) && ValidTasks(run.ctx.tasks) && PositiveLimits(run.ctx)
    modifies run.writer
    ensures run.Wired() && CallSafe(run.ctx, run.Now(), watch, run.parallel) && run.BatchesFine()
    ensures History(run.ctx, run.opening, run.traces, run.Now())
    ensures ok <==> !run.writer.View().broken
    ensures ok ==> run.AtBarrier(watch)
  {
    hide CallSafe, ValidTasks, BarrierOk, NoSharedPath, PositiveLimits, Start, GraphOf, Integrating, MayIntegrate,
      Began, History, QuietSince;
    IdsFit(run.ctx.tasks);
    StartSets(run.ctx.tasks);
    EmptyIsCallSafe(run.ctx, run.Now(), watch, run.parallel);
    var accepts: bool := *;
    SayIsSafe(run.ctx, run.Now(), CampaignPlanned, None, accepts, watch, run.parallel);
    EmittedIsQuiet(run.ctx.campaignId, run.writer.View(), Request(CampaignPlanned, None), accepts);
    HistoryBegins(run.ctx, run.Now());
    ok := run.writer.Emit(CampaignPlanned, None, accepts);
    HistoryGoesOn(run.ctx, run.opening, run.traces, NewWorld(), run.Now());
    if !ok {
      return false;
    }
    ghost var planned := run.Now();
    ok := Say(run, CampaignAuthorized, None, watch);
    HistoryGoesOn(run.ctx, run.opening, run.traces, planned, run.Now());
    if ok {
      BarrierAtStart(run.ctx, run.Now(), watch, run.parallel);
    }
  }

  lemma HistoryBegins(ctx: Context, w: World)
    requires w.ledger == Ledger(map[], {}) && w.log == [] && !w.hardStop && w.journal == Journal([], false)
    ensures History(ctx, NewWorld(), [], NewWorld())
  {
  }

  lemma StartSets(tasks: seq<TaskPlan>)
    ensures Start(tasks).pending == Ids(tasks) && Start(tasks).completed == {} == Start(tasks).failed
  {
  }

  /** The authorized run, to its end or an exception, which is reported. */
  method Conduct(run: CampaignRun, app: Application, a: Answers, ghost watch: Watch)
      returns (r: Result<Finish, ()>, ghost ended: World)
    requires run.AtBarrier(watch) && ValidTasks(run.ctx.tasks) && run.parallel > 0
    requires run.Sets() == Start(run.ctx.tasks) && run.batches == []
    modifies run, run.budget, run.writer
    ensures run.Wired() && CallSafe(run.ctx, run.Now(), watch, run.parallel) && run.BatchesFine()
    ensures History(run.ctx, run.opening, run.traces, ended) && CommitsTraced(run)
    ensures ended.journal.events <= run.writer.View().events
    ensures r.Ok? ==> !run.writer.View().broken
    ensures !run.writer.View().broken ==>
      && Settled(run.ctx.tasks, run.parallel, run.Without(run.pending), run.batches)
      && Decided(run.ctx, ended.log, run.terminalFailures != {}, app, a, r)
      && (r.Err? ==> run.EndedWith(CampaignBlocked))
    ensures r.Ok? ==> Delivered(run, run.Without(run.pending), run.writer.View(), app, r.value)
  {
    hide CallSafe, ValidTasks, BarrierOk, NoSharedPath, Settled, Delivered, Start, GraphOf, Decided, History, Earned;
    r, ended := RunToCandidate(run, app, a, watch);
    if r.Err? {
      var _ := Say(run, CampaignBlocked, None, watch);
    }
  }

  /** One `start` call on a campaign that has no journal yet. `Err` stands for an exception, `ended` for the world when
      the run was over. As long as every append is stored, the run goes to its end, and what comes after it is decided
      by the answers of the ports; an exception is reported. */
  method StartCampaign(ctx: Context, parallel: nat, collate: (Id, Id) -> int, app: Application, a: Answers,
        ghost watch: Watch) returns (r: Result<Finish, ()>, run: CampaignRun, ghost ended: World)
    requires ValidTasks(ctx.tasks) && parallel > 0 && PositiveLimits(ctx)
    ensures fresh(run) && run.ctx == ctx && run.parallel == parallel && run.Wired()
    ensures CallSafe(ctx, run.Now(), watch, parallel) && run.BatchesFine()
    ensures History(ctx, NewWorld(), run.traces, ended) && CommitsTraced(run)
    ensures ended.journal.events <= run.writer.View().events
    ensures r.Ok? ==> !run.writer.View().broken
    ensures !run.writer.View().broken ==>
      && Settled(ctx.tasks, parallel, run.Without(run.pending), run.batches)
      && Decided(ctx, ended.log, run.terminalFailures != {}, app, a, r)
      && (r.Err? ==> run.EndedWith(CampaignBlocked))
    ensures r.Ok? ==> Delivered(run, run.Without(run.pending), run.writer.View(), app, r.value)
  {
    hide CallSafe, ValidTasks, BarrierOk, NoSharedPath, Settled, Delivered, PositiveLimits, Start, GraphOf, Decided,
      History, Earned;
    var writer := new EventWriter(ctx.campaignId, []);
    run := new CampaignRun(ctx, parallel, collate, writer);
    var ok := Authorize(run, watch);
    if !ok {
      return Err(()), run, run.Now();
    }
    r, ended := Conduct(run, app, a, watch);
  }

}
