/** One batch of concurrently executed tasks, as a state machine: any task that is not finished may take the next step,
    and the ports answer each step as they like. A step is what a task does between two awaits. */
module TaskExecution {
  import opened Wrappers
  import opened DependencyGraph
  import opened CampaignPlan
  import opened CampaignEvents
  import opened EventWriter
  import opened CampaignBudget

  type Commit = string

  /** What a run is authorized to do. */
  datatype Context = Context(
    campaignId: Id,
    tasks: seq<TaskPlan>,
    profileByRole: map<string, ProfileId>,
    runnable: set<ProfileId>,
    mode: BudgetMode,
    limits: seq<BudgetLimit>,
    allowCommits: bool)

  predicate TerminalFailure(kind: EventKind) {
    kind.TaskFailed? || kind.TaskBlocked? || kind.TaskBudgetStopped? || kind.TaskCancelled?
  }

  type FailureKind = k: EventKind | TerminalFailure(k) witness TaskFailed

  datatype Stage =
    | Waiting
    | Allocating
    | PreparedAttempt
    | Executing
    | Settling(verdict: FailureKind)
    | Committing
    | Done(commit: Option<Commit>)
    | Rejected

  datatype WorkerStatus = WorkerSucceeded | WorkerFailed | WorkerBlocked | WorkerCancelled

  datatype Execution = Threw | Returned(status: WorkerStatus, usage: Usage)

  /** How the event store, the workspace, the attempt store, the worker and the git port answer one step. */
  datatype Reply = Reply(accepts: bool, workspace: bool, saved: bool, execution: Execution, proofsValid: bool,
        commit: Option<Commit>)

  datatype World = World(stages: map<Id, Stage>, ledger: Ledger, hardStop: bool, journal: Journal, log: seq<Entry>)

  predicate Finished(s: Stage) {
    s.Done? || s.Rejected?
  }

  function ProfileFor(ctx: Context, t: TaskPlan): (r: ProfileId)
    ensures t.role in ctx.profileByRole ==> r == ctx.profileByRole[t.role]
  {
    if t.role in ctx.profileByRole then ctx.profileByRole[t.role] else ""
  }

  /** What one step does: the event it emits, if any, where the task goes when the event is stored and where when the
      store fails, and the budget afterwards. */
  datatype Effect = Effect(emits: Option<EventKind>, stored: Stage, failed: Stage, ledger: Ledger, hardStop: bool,
        log: seq<Entry>)

  /** No emission. */
  function Quietly(w: World, next: Stage): Effect {
    Effect(None, next, next, w.ledger, w.hardStop, w.log)
  }

  /** An emission inside the try block; if it throws, the catch block gives the task up. (The catch block's own report
      then reaches a queue that has already rejected and stores nothing.) */
  function Report(w: World, kind: EventKind, next: Stage): Effect {
    Effect(Some(kind), next, Done(None), w.ledger, w.hardStop, w.log)
  }

  /** The catch block: report the failure, ignore a failing report. */
  function Fail(w: World): Effect {
    Report(w, TaskFailed, Done(None))
  }

  /** An emission before the try block: if it throws, the whole campaign call rejects. */
  function Refuse(w: World, kind: EventKind): Effect {
    Effect(Some(kind), Done(None), Rejected, w.ledger, w.hardStop, w.log)
  }

  function Admit(ctx: Context, w: World, t: TaskPlan): Effect {
    if w.hardStop then Refuse(w, TaskBudgetStopped)
    else if Refuses(Decision(ctx.mode, ctx.limits, w.ledger, ProfileFor(ctx, t))) then Refuse(w, TaskBudgetStopped)
    else if ProfileFor(ctx, t) !in ctx.runnable then Refuse(w, TaskBlocked)
    else Quietly(w, Allocating)
  }

  function Verdict(ctx: Context, status: WorkerStatus, proofsValid: bool): Stage {
    match status
    case WorkerFailed => Settling(TaskFailed)
    case WorkerBlocked => Settling(TaskBlocked)
    case WorkerCancelled => Settling(TaskCancelled)
    case WorkerSucceeded =>
      if !proofsValid then Settling(TaskFailed)
      else if !ctx.allowCommits then Settling(TaskBlocked)
      else Committing
  }

  /** The worker is back: its usage is recorded first, and only then is its outcome looked at. */
  function Return(ctx: Context, w: World, t: TaskPlan, reply: Reply): Effect {
    match reply.execution
    case Threw => Fail(w)
    case Returned(status, usage) =>
      var profile := ProfileFor(ctx, t);
      var (ledger, ok) := Recorded(w.ledger, profile, usage);
      var after := w.(ledger := ledger, log := w.log + [Entry(profile, usage)]);
      if !ok then Fail(after)
      else if Decision(ctx.mode, ctx.limits, ledger, profile).Stop? then Quietly(after.(hardStop := true),
        Settling(TaskBudgetStopped))
      else Quietly(after, Verdict(ctx, status, reply.proofsValid))
  }

  function EffectOf(ctx: Context, w: World, t: TaskPlan, reply: Reply): Effect
    requires t.id in w.stages
  {
    match w.stages[t.id]
    case Waiting => Admit(ctx, w, t)
    case Allocating =>
      if !reply.workspace || !reply.saved then Fail(w) else Report(w, TaskPrepared, PreparedAttempt)
    case PreparedAttempt =>
      if !reply.saved then Fail(w) else Report(w, TaskStarted, Executing)
    case Executing => Return(ctx, w, t, reply)
    case Settling(verdict) =>
      if !reply.saved then Fail(w) else Report(w, verdict, Done(None))
    case Committing =>
      if reply.commit.None? || !reply.saved then Fail(w) else Report(w, TaskSucceeded, Done(reply.commit))
    case Done(_) => Quietly(w, w.stages[t.id])
    case Rejected => Quietly(w, w.stages[t.id])
  }

  function JournalAfter(campaignId: Id, j: Journal, id: Id, emits: Option<EventKind>, accepts: bool): Journal {
    if emits.None? then j else Emitted(campaignId, j, Request(emits.value, Some(id)), accepts)
  }

  function Apply(campaignId: Id, w: World, id: Id, e: Effect, accepts: bool): World {
    var journal := JournalAfter(campaignId, w.journal, id, e.emits, accepts);
    World(w.stages[id := if e.emits.Some? && journal.broken then e.failed else e.stored], e.ledger, e.hardStop, journal,
      e.log)
  }

  function TaskStep(ctx: Context, w: World, t: TaskPlan, reply: Reply): World
    requires t.id in w.stages
  {
    Apply(ctx.campaignId, w, t.id, EffectOf(ctx, w, t, reply), reply.accepts)
  }

  function Rank(s: Stage): nat {
    match s
    case Waiting => 5
    case Allocating => 4
    case PreparedAttempt => 3
    case Executing => 2
    case Settling(_) => 1
    case Committing => 1
    case Done(_) => 0
    case Rejected => 0
  }

  predicate NotStarted(s: Stage) {
    s.Waiting? || s.Allocating? || s.PreparedAttempt?
  }

  /** Between the start of the task and its last event. */
  predicate Underway(s: Stage) {
    s.Executing? || s.Settling? || s.Committing?
  }

  /** The task map an effect leaves when its event is stored. */
  function TasksOnStored(tasks: map<Id, TaskStatus>, id: Id, emits: Option<EventKind>): map<Id, TaskStatus>
    requires emits.Some? ==> IsTaskEvent(emits.value)
  {
    if emits.None? then tasks else tasks[id := StatusOfTask(emits.value)]
  }

  /** The shape of every effect on a task at stage `s`. */
  ghost predicate ProperEffect(s: Stage, e: Effect) {
    && (e.emits.Some? ==> IsTaskEvent(e.emits.value))
    && (if Finished(s) then e.emits.None? && e.stored == s else Rank(e.stored) < Rank(s) && Rank(e.failed) < Rank(s))
    && (e.emits == Some(TaskStarted) ==> s.PreparedAttempt?)
    && (NotStarted(e.stored) ==> NotStarted(s) && e.emits != Some(TaskStarted))
    && (e.emits == Some(TaskSucceeded) ==> Underway(s))
    && (Underway(e.stored) ==> Underway(s) || e.emits == Some(TaskStarted))
    && (e.stored.Done? && e.stored.commit.Some? ==> e.emits == Some(TaskSucceeded) || e.stored == s)
    && (e.emits.Some? ==> e.failed == Done(None) || (e.failed == Rejected && s.Waiting?))
    && (forall tasks, id :: StageAgrees(s, tasks, id) ==> StageAgrees(e.stored, TasksOnStored(tasks, id, e.emits), id))
  }

  lemma AdmitIsProper(ctx: Context, w: World, t: TaskPlan)
    ensures ProperEffect(Waiting, Admit(ctx, w, t))
  {
    var e := Admit(ctx, w, t);
    assert e.emits in {None, Some(TaskBudgetStopped), Some(TaskBlocked)};
  }

  lemma ReturnIsProper(ctx: Context, w: World, t: TaskPlan, reply: Reply)
    ensures ProperEffect(Executing, Return(ctx, w, t, reply))
  {
    hide Recorded, Decision;
    var e := Return(ctx, w, t, reply);
    assert e.emits in {None, Some(TaskFailed)};
    assert e.emits.None? ==> e.stored.Settling? || e.stored.Committing?;
    assert e.emits.Some? ==> e.stored == Done(None);
  }

  lemma EffectIsProper(ctx: Context, w: World, t: TaskPlan, reply: Reply)
    requires t.id in w.stages
    ensures ProperEffect(w.stages[t.id], EffectOf(ctx, w, t, reply))
  {
    match w.stages[t.id]
    case Waiting => AdmitIsProper(ctx, w, t);
    case Executing => ReturnIsProper(ctx, w, t, reply);
    case Allocating =>
    case PreparedAttempt =>
    case Settling(_) =>
    case Committing =>
    case Done(_) =>
    case Rejected =>
  }

  /** A step moves its own task forward and no other task at all. */
  lemma StepProgress(ctx: Context, w: World, t: TaskPlan, reply: Reply)
    requires t.id in w.stages
    ensures var after := TaskStep(ctx, w, t, reply);
      && after.stages.Keys == w.stages.Keys
      && after.stages == w.stages[t.id := after.stages[t.id]]
      && (!Finished(w.stages[t.id]) ==> Rank(after.stages[t.id]) < Rank(w.stages[t.id]))
  {
    EffectIsProper(ctx, w, t, reply);
  }

  // The journal agrees with the stages.

  lemma TasksOfExtended(events: seq<CampaignEvent>, e: CampaignEvent)
    ensures Tasks(events + [e]) == TasksAfter(e, Tasks(events))
  {
    assert (events + [e])[..|events|] == events;
  }

  predicate StageAgrees(s: Stage, tasks: map<Id, TaskStatus>, id: Id) {
    match s
    case Waiting => id !in tasks
    case Allocating => id !in tasks
    case PreparedAttempt => id in tasks && tasks[id].Prepared?
    case Executing => id in tasks && tasks[id].InProgress?
    case Settling(_) => id in tasks && tasks[id].InProgress?
    case Committing => id in tasks && tasks[id].InProgress?
    case Done(commit) =>
      id in tasks && if commit.Some? then tasks[id].Succeeded? else FailureStatus(tasks[id])
    case Rejected => false
  }

  predicate FailureStatus(s: TaskStatus) {
    s.Failed? || s.BlockedTask? || s.BudgetStopped? || s.Cancelled?
  }

  ghost predicate SameTask(one: map<Id, TaskStatus>, other: map<Id, TaskStatus>, id: Id) {
    (id in one <==> id in other) && (id in one ==> one[id] == other[id])
  }

  /** Unless an append failed, each task of the batch projects as its stage says and every other task as before the
      batch. */
  ghost predicate Agrees(w: World, before: map<Id, TaskStatus>) {
    !w.journal.broken ==>
      && (forall id :: id in w.stages ==> StageAgrees(w.stages[id], Tasks(w.journal.events), id))
      && (forall id :: id !in w.stages ==> SameTask(Tasks(w.journal.events), before, id))
  }

  lemma ApplyAgrees(campaignId: Id, w: World, id: Id, e: Effect, accepts: bool, before: map<Id, TaskStatus>)
    requires id in w.stages && ProperEffect(w.stages[id], e) && Agrees(w, before)
    ensures Agrees(Apply(campaignId, w, id, e, accepts), before)
  {
    var after := Apply(campaignId, w, id, e, accepts);
    if !after.journal.broken {
      if e.emits.Some? {
        TasksOfExtended(w.journal.events, EventFor(campaignId, Request(e.emits.value, Some(id)),
          |w.journal.events| + 1));
      }
      assert Tasks(after.journal.events) == TasksOnStored(Tasks(w.journal.events), id, e.emits);
    }
  }

  lemma StepAgrees(ctx: Context, w: World, t: TaskPlan, reply: Reply, before: map<Id, TaskStatus>)
    requires t.id in w.stages && Agrees(w, before)
    ensures Agrees(TaskStep(ctx, w, t, reply), before)
  {
    EffectIsProper(ctx, w, t, reply);
    ApplyAgrees(ctx.campaignId, w, t.id, EffectOf(ctx, w, t, reply), reply.accepts, before);
  }

  // No task starts twice, or before everything it depends on has committed.

  function StartedIn(events: seq<CampaignEvent>): set<Id> {
    set e | e in events && e.kind.TaskStarted? && e.taskId.Some? :: e.taskId.value
  }

  function SucceededIn(events: seq<CampaignEvent>): set<Id> {
    set e | e in events && e.kind.TaskSucceeded? && e.taskId.Some? :: e.taskId.value
  }

  ghost predicate MayStart(g: Graph, events: seq<CampaignEvent>, id: Id) {
    id !in StartedIn(events) && forall d :: Reaches(g, id, d) ==> d in SucceededIn(events)
  }

  /** Every start in the journal was allowed by what the journal held before it. */
  ghost predicate Disciplined(g: Graph, events: seq<CampaignEvent>) {
    forall i :: 0 <= i < |events| && events[i].kind.TaskStarted? && events[i].taskId.Some? ==>
      MayStart(g, events[..i], events[i].taskId.value)
  }

  /** Read off the journal: at most one start a task, and each transitive dependency succeeded earlier. */
  lemma DisciplineInJournal(g: Graph, events: seq<CampaignEvent>, i: nat)
    requires Disciplined(g, events)
    requires i < |events| && events[i].kind.TaskStarted? && events[i].taskId.Some?
    ensures forall j :: 0 <= j < |events| && j != i && events[j].kind.TaskStarted? ==>
      events[j].taskId != events[i].taskId
    ensures forall d :: Reaches(g, events[i].taskId.value, d) ==>
      exists j :: 0 <= j < i && events[j].kind.TaskSucceeded? && events[j].taskId == Some(d)
  {
    forall j | 0 <= j < |events| && j != i && events[j].kind.TaskStarted?
      ensures events[j].taskId != events[i].taskId
    {
      if j < i {
        assert events[j] in events[..i];
      } else {
        assert events[i] in events[..j];
      }
    }
    forall d | Reaches(g, events[i].taskId.value, d)
      ensures exists j :: 0 <= j < i && events[j].kind.TaskSucceeded? && events[j].taskId == Some(d)
    {
      var e :| e in events[..i] && e.kind.TaskSucceeded? && e.taskId.Some? && e.taskId.value == d;
      var j :| 0 <= j < |events[..i]| && events[..i][j] == e;
      assert events[j].taskId == Some(d);
    }
  }

  /** Only tasks of the batch have started since the batch began, no success has been lost, and nothing succeeds that
      did not start. */
  ghost predicate BatchDiscipline(g: Graph, w: World, started: set<Id>, succeeded: set<Id>) {
    && Disciplined(g, w.journal.events)
    && StartedIn(w.journal.events) <= started + w.stages.Keys
    && succeeded <= SucceededIn(w.journal.events)
    && (forall id :: id in w.stages && NotStarted(w.stages[id]) ==> MayStart(g, w.journal.events, id))
    && (forall id :: id in w.stages && w.stages[id].Done? && w.stages[id].commit.Some? ==>
      id in SucceededIn(w.journal.events))
    && SucceededIn(w.journal.events) <= StartedIn(w.journal.events)
    && (forall id :: id in w.stages && Underway(w.stages[id]) ==> id in StartedIn(w.journal.events))
  }

  lemma ExtendDiscipline(g: Graph, events: seq<CampaignEvent>, e: CampaignEvent)
    requires Disciplined(g, events)
    requires e.kind.TaskStarted? && e.taskId.Some? ==> MayStart(g, events, e.taskId.value)
    ensures Disciplined(g, events + [e])
  {
    var longer := events + [e];
    forall i | 0 <= i < |longer| && longer[i].kind.TaskStarted? && longer[i].taskId.Some?
      ensures MayStart(g, longer[..i], longer[i].taskId.value)
    {
      if i < |events| {
        assert longer[..i] == events[..i];
      } else {
        assert longer[..i] == events;
      }
    }
  }

  lemma ExtendSets(events: seq<CampaignEvent>, e: CampaignEvent)
    ensures StartedIn(events + [e]) ==
      StartedIn(events) + (if e.kind.TaskStarted? && e.taskId.Some? then {e.taskId.value} else {})
    ensures SucceededIn(events + [e]) ==
      SucceededIn(events) + (if e.kind.TaskSucceeded? && e.taskId.Some? then {e.taskId.value} else {})
  {
  }

  lemma JournalDiscipline(campaignId: Id, g: Graph, j: Journal, id: Id, emits: Option<EventKind>, accepts: bool)
    requires Disciplined(g, j.events)
    requires emits == Some(TaskStarted) ==> MayStart(g, j.events, id)
    ensures var after := JournalAfter(campaignId, j, id, emits, accepts);
      && Disciplined(g, after.events)
      && SucceededIn(j.events) <= SucceededIn(after.events)
      && StartedIn(after.events) <= StartedIn(j.events) + (if emits == Some(TaskStarted) then {id} else {})
      && (emits == Some(TaskSucceeded) && !after.broken ==> id in SucceededIn(after.events))
      && StartedIn(j.events) <= StartedIn(after.events)
      && (emits == Some(TaskStarted) && !after.broken ==> id in StartedIn(after.events))
      && SucceededIn(after.events) <= SucceededIn(j.events) + (if emits == Some(TaskSucceeded) then {id} else {})
  {
    if emits.Some? && !j.broken && accepts {
      var e := EventFor(campaignId, Request(emits.value, Some(id)), |j.events| + 1);
      ExtendDiscipline(g, j.events, e);
      ExtendSets(j.events, e);
    }
  }

  lemma ApplyDiscipline(campaignId: Id, g: Graph, w: World, id: Id, e: Effect, accepts: bool,
                        started: set<Id>, succeeded: set<Id>)
    requires id in w.stages && ProperEffect(w.stages[id], e) && BatchDiscipline(g, w, started, succeeded)
    ensures BatchDiscipline(g, Apply(campaignId, w, id, e, accepts), started, succeeded)
  {
    hide Disciplined, StartedIn, SucceededIn, JournalAfter, Reaches, StageAgrees;
    JournalDiscipline(campaignId, g, w.journal, id, e.emits, accepts);
  }

  lemma StepDiscipline(ctx: Context, g: Graph, w: World, t: TaskPlan, reply: Reply, started: set<Id>,
        succeeded: set<Id>)
    requires t.id in w.stages && BatchDiscipline(g, w, started, succeeded)
    ensures BatchDiscipline(g, TaskStep(ctx, w, t, reply), started, succeeded)
  {
    EffectIsProper(ctx, w, t, reply);
    ApplyDiscipline(ctx.campaignId, g, w, t.id, EffectOf(ctx, w, t, reply), reply.accepts, started, succeeded);
  }

  // The campaign status follows the interleaving.

  /** Two independent tasks of a campaign, both at work. */
  function BothAtWork(c: Id, s: Id, t: Id): seq<CampaignEvent> {
    [CampaignEvent(c, 1, CampaignPlanned, None), CampaignEvent(c, 2, CampaignAuthorized, None),
     CampaignEvent(c, 3, TaskPrepared, Some(s)), CampaignEvent(c, 4, TaskStarted, Some(s)),
     CampaignEvent(c, 5, TaskPrepared, Some(t)), CampaignEvent(c, 6, TaskStarted, Some(t))]
  }

  lemma Independent(s: Id, t: Id, a: Id, b: Id)
    ensures !Reaches(map[s := [], t := []], a, b)
  {
    if Reaches(map[s := [], t := []], a, b) {
      var d := FirstStep(map[s := [], t := []], a, b);
      assert false;
    }
  }

  lemma BothAtWorkDisciplined(c: Id, s: Id, t: Id, events: seq<CampaignEvent>)
    requires s != t && |events| == 8 && BothAtWork(c, s, t) == events[..6]
    requires !events[6].kind.TaskStarted? && !events[7].kind.TaskStarted?
    ensures Disciplined(map[s := [], t := []], events)
  {
    hide Reaches;
    var g: Graph := map[s := [], t := []];
    forall i | 0 <= i < |events| && events[i].kind.TaskStarted? && events[i].taskId.Some?
      ensures MayStart(g, events[..i], events[i].taskId.value)
    {
      assert i < 6 && events[..6][i] == events[i];
      assert i == 3 || i == 5;
      assert events[..i] == events[..6][..i];
      forall d
        ensures !Reaches(g, events[i].taskId.value, d)
      {
        Independent(s, t, events[i].taskId.value, d);
      }
    }
  }

  /** The campaign status has no law like that of the task map: one task is blocked and another succeeds, in either
      order, and the journal of a run is left with two different statuses. */
  lemma StatusDependsOnInterleaving(c: Id, s: Id, t: Id) returns (one: seq<CampaignEvent>, other: seq<CampaignEvent>)
    requires s != t
    ensures Accepted(one) && Accepted(other) && BothAtWork(c, s, t) <= one && BothAtWork(c, s, t) <= other
    ensures Disciplined(map[s := [], t := []], one) && Disciplined(map[s := [], t := []], other)
    ensures forall task :: HistoryOf(one, task) == HistoryOf(other, task)
    ensures StatusOf(one) == Running && StatusOf(other) == Blocked
  {
    hide HistoryOf, Disciplined;
    var start := BothAtWork(c, s, t);
    var blockedFirst := start + [CampaignEvent(c, 7, TaskBlocked, Some(s))];
    var successFirst := start + [CampaignEvent(c, 7, TaskSucceeded, Some(t))];
    one := blockedFirst + [CampaignEvent(c, 8, TaskSucceeded, Some(t))];
    other := successFirst + [CampaignEvent(c, 8, TaskBlocked, Some(s))];
    assert one[..6] == start && other[..6] == start;
    BothAtWorkDisciplined(c, s, t, one);
    BothAtWorkDisciplined(c, s, t, other);
    forall task
      ensures HistoryOf(one, task) == HistoryOf(other, task)
    {
      HistoryOfExtended(blockedFirst, one[7], task);
      HistoryOfExtended(start, blockedFirst[6], task);
      HistoryOfExtended(successFirst, other[7], task);
      HistoryOfExtended(start, successFirst[6], task);
    }
  }

}
